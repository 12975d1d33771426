/** components/three-scene-contact.tsx: a wireframe globe, two hundred points
    spread over a sphere, and thirty lines joining randomly chosen points; the
    cleanup closure removes all three objects and disposes their three
    geometries and three materials. */
module ContactScene {
  import opened Three
  import opened Dom
  import opened SceneSetup
  import opened Buffers

  const PointsCount := 200
  const LinkCount := 30

  /** The argument `-1 + (2 * i) / pointsCount` of `Math.acos` for point i. */
  function AcosArgument(i: int): real
  {
    -1.0 + (2 * i) as real / PointsCount as real
  }

  /** For every point the argument lies in [-1, 1), the domain of `Math.acos`,
      and it rises with i, so the points run from one pole towards the other. */
  lemma AcosArgumentInDomain(i: int, j: int)
    requires 0 <= i < j < PointsCount
    ensures -1.0 <= AcosArgument(i) < AcosArgument(j) < 1.0
  {
  }

  /** `Math.floor(Math.random() * pointsCount)` for the draw r. */
  function RandomIndex(r: real): (k: nat)
    requires 0.0 <= r < 1.0
    ensures k < PointsCount
  {
    (r * PointsCount as real).Floor
  }

  /** Every coordinate the line loop reads lies inside `posArray`. */
  lemma LinkReadInBounds(r: real, k: int)
    requires 0.0 <= r < 1.0 && 0 <= k < 3
    ensures 0 <= 3 * RandomIndex(r) + k < 3 * PointsCount
  {
  }

  /** The loop of lines 71-83: link i joins the points chosen by draws 2i and
      2i + 1, pushing the three coordinates of each, read from `posArray`. */
  method LinkRandomPoints(posArray: array<real>, draws: seq<real>) returns (ps: seq<real>)
    requires posArray.Length == 3 * PointsCount
    requires |draws| == 2 * LinkCount && Draws(draws)
    ensures |ps| == 6 * LinkCount
    ensures forall s :: 0 <= s < 6 * LinkCount ==> ps[s] == posArray[3 * RandomIndex(draws[s / 3]) + s % 3]
  {
    ps := [];
    var i := 0;
    while i < LinkCount
      invariant 0 <= i <= LinkCount && |ps| == 6 * i
      invariant forall s :: 0 <= s < 6 * i ==> ps[s] == posArray[3 * RandomIndex(draws[s / 3]) + s % 3]
    {
      var index1 := RandomIndex(draws[2 * i]);
      var index2 := RandomIndex(draws[2 * i + 1]);
      var link := [posArray[index1 * 3], posArray[index1 * 3 + 1], posArray[index1 * 3 + 2],
                   posArray[index2 * 3], posArray[index2 * 3 + 1], posArray[index2 * 3 + 2]];
      LinkSlots(i);
      ps := ps + link;
      i := i + 1;
    }
  }

  /** The six numbers of link i are coordinates s % 3 of endpoint s / 3. */
  lemma LinkSlots(i: nat)
    ensures forall s :: 6 * i <= s < 6 * i + 3 ==> s / 3 == 2 * i && s % 3 == s - 6 * i
    ensures forall s :: 6 * i + 3 <= s < 6 * i + 6 ==> s / 3 == 2 * i + 1 && s % 3 == s - 6 * i - 3
  {
  }

  /** The y rotations of the three objects, which the frame callback turns
      together. */
  class Spin {
    var globe: real
    var points: real
    var lines: real

    ghost predicate Valid()
      reads this
    {
      globe == points == lines
    }

    /** The three objects start unrotated. */
    constructor ()
      ensures Valid() && globe == 0.0
    {
      globe, points, lines := 0.0, 0.0, 0.0;
    }

    /** Lines 108-110: each rotation grows by 0.002, so they stay equal. */
    method Frame()
      requires Valid()
      modifies this
      ensures Valid()
      ensures globe == old(globe) + 0.002 && points == old(points) + 0.002 && lines == old(lines) + 0.002
    {
      globe := globe + 0.002;
      points := points + 0.002;
      lines := lines + 0.002;
    }
  }

  /** What the effect keeps for its cleanup closure. */
  datatype Mounted = Mounted(scene: Node, canvas: nat, handler: nat, globe: Drawable, points: Drawable,
                             lines: Drawable, posArray: array<real>, linesPositions: seq<real>, lights: Lights)

  /** The three drawables in the order they are built and disposed. */
  function Drawn(a: Mounted): seq<Drawable>
  {
    [a.globe, a.points, a.lines]
  }

  /** Lines 36-65: `pointsGeometry`, the `posArray` loop placing point i at
      surface(AcosArgument(i)) (the trigonometry of lines 43-48), then
      `pointsMaterial` and the Points object added to the scene. */
  method BuildPoints(ledger: Ledger, graph: SceneGraph, scene: Node, surface: real -> Vec3)
    returns (points: Drawable, posArray: array<real>)
    requires ledger.Valid() && graph.Valid() && scene.id < graph.next
    modifies ledger, graph
    ensures ledger.Valid() && graph.Valid() && fresh(posArray)
    ensures points.node == Node(PointsNode, old(graph.next)) && graph.next == old(graph.next) + 1
    ensures graph.parent == old(graph.parent)[points.node := scene]
    ensures ledger.created == old(ledger.created) + [points.geometry, points.material]
    ensures ledger.disposed == old(ledger.disposed)
    ensures posArray.Length == 3 * PointsCount
    ensures forall s :: 0 <= s < 3 * PointsCount ==> posArray[s] == Coord(surface(AcosArgument(s / 3)), s % 3)
  {
    var pointsGeometry := ledger.Allocate(Geometry);
    posArray := new real[3 * PointsCount](_ => 0.0);
    ghost var writes := FillPoints(posArray, i => surface(AcosArgument(i)));
    var pointsMaterial := ledger.Allocate(Material);
    var node := graph.Create(PointsNode);
    graph.Add(scene, node);
    points := Drawable(node, pointsGeometry, pointsMaterial);
  }

  /** Lines 67-94: `linesGeometry`, the thirty random links, then
      `linesMaterial` and the LineSegments object added to the scene. */
  method BuildLinks(ledger: Ledger, graph: SceneGraph, scene: Node, posArray: array<real>, draws: seq<real>)
    returns (lines: Drawable, linesPositions: seq<real>)
    requires ledger.Valid() && graph.Valid() && scene.id < graph.next
    requires posArray.Length == 3 * PointsCount
    requires |draws| == 2 * LinkCount && Draws(draws)
    modifies ledger, graph
    ensures ledger.Valid() && graph.Valid()
    ensures lines.node == Node(LineSegmentsNode, old(graph.next)) && graph.next == old(graph.next) + 1
    ensures graph.parent == old(graph.parent)[lines.node := scene]
    ensures ledger.created == old(ledger.created) + [lines.geometry, lines.material]
    ensures ledger.disposed == old(ledger.disposed)
    ensures |linesPositions| == 6 * LinkCount
    ensures forall s :: 0 <= s < 6 * LinkCount ==>
      linesPositions[s] == posArray[3 * RandomIndex(draws[s / 3]) + s % 3]
  {
    var linesGeometry := ledger.Allocate(Geometry);
    linesPositions := LinkRandomPoints(posArray, draws);
    var linesMaterial := ledger.Allocate(Material);
    var node := graph.Create(LineSegmentsNode);
    graph.Add(scene, node);
    lines := Drawable(node, linesGeometry, linesMaterial);
  }

  /** Three drawables built one after the other contribute their resources in
      that order. */
  lemma ResourcesOfThree(x: Drawable, y: Drawable, z: Drawable)
    ensures Resources([x, y, z]) == [x.geometry, x.material, y.geometry, y.material, z.geometry, z.material]
  {
    ResourcesSnoc([], x);
    assert [x] + [y] == [x, y];
    ResourcesSnoc([x], y);
    assert [x, y] + [z] == [x, y, z];
    ResourcesSnoc([x, y], z);
  }

  /** Lines 26-94: the globe, the points and the links, each added to the
      scene as it is built. */
  method BuildObjects(ledger: Ledger, graph: SceneGraph, scene: Node, surface: real -> Vec3, draws: seq<real>)
    returns (globe: Drawable, points: Drawable, lines: Drawable, posArray: array<real>, linesPositions: seq<real>)
    requires ledger.Valid() && graph.Valid() && scene.id < graph.next
    requires |draws| == 2 * LinkCount && Draws(draws)
    modifies ledger, graph
    ensures ledger.Valid() && graph.Valid() && graph.next == old(graph.next) + 3
    ensures globe.node == Node(MeshNode, old(graph.next))
    ensures points.node == Node(PointsNode, old(graph.next) + 1)
    ensures lines.node == Node(LineSegmentsNode, old(graph.next) + 2)
    ensures graph.parent == old(graph.parent)[globe.node := scene][points.node := scene][lines.node := scene]
    ensures ledger.created == old(ledger.created) + Resources([globe, points, lines])
    ensures ledger.disposed == old(ledger.disposed)
    ensures fresh(posArray) && posArray.Length == 3 * PointsCount && |linesPositions| == 6 * LinkCount
    ensures forall s :: 0 <= s < 3 * PointsCount ==> posArray[s] == Coord(surface(AcosArgument(s / 3)), s % 3)
    ensures forall s :: 0 <= s < 6 * LinkCount ==>
      linesPositions[s] == posArray[3 * RandomIndex(draws[s / 3]) + s % 3]
  {
    globe := BuildAndAdd(ledger, graph, MeshNode, scene);
    points, posArray := BuildPoints(ledger, graph, scene, surface);
    lines, linesPositions := BuildLinks(ledger, graph, scene, posArray, draws);
    ResourcesOfThree(globe, points, lines);
  }

  /** The effect body: return at once without a container; otherwise the scene
      and renderer, the globe, the points, the links, the two lights and the
      resize handler. */
  method Mount(ledger: Ledger, graph: SceneGraph, page: Page, surface: real -> Vec3, draws: seq<real>)
    returns (m: Option<Mounted>)
    requires ledger.Valid() && graph.Valid() && page.Valid()
    requires |draws| == 2 * LinkCount && Draws(draws)
    modifies ledger, graph, page
    ensures ledger.Valid() && graph.Valid() && page.Valid()
    ensures m.Some? <==> old(page.container)
    ensures m.None? ==> ledger.created == old(ledger.created) && ledger.disposed == old(ledger.disposed)
    ensures m.None? ==> graph.parent == old(graph.parent) && page.canvases == old(page.canvases)
    ensures m.None? ==> page.listeners == old(page.listeners)
    ensures m.Some? ==>
      var a := m.value;
      && a.scene.id == old(graph.next)
      && a.globe.node == Node(MeshNode, old(graph.next) + 1)
      && a.points.node == Node(PointsNode, old(graph.next) + 2)
      && a.lines.node == Node(LineSegmentsNode, old(graph.next) + 3)
      && a.lights == Lights(Node(LightNode, old(graph.next) + 4), Node(LightNode, old(graph.next) + 5))
      && graph.parent == old(graph.parent) +
           Attach({a.globe.node, a.points.node, a.lines.node, a.lights.ambient, a.lights.point}, a.scene)
      && a.posArray.Length == 3 * PointsCount && |a.linesPositions| == 6 * LinkCount
      && fresh(a.posArray)
      && (forall s :: 0 <= s < 3 * PointsCount ==> a.posArray[s] == Coord(surface(AcosArgument(s / 3)), s % 3))
      && (forall s :: 0 <= s < 6 * LinkCount ==>
            a.linesPositions[s] == a.posArray[3 * RandomIndex(draws[s / 3]) + s % 3])
      && ledger.created == old(ledger.created) + Resources(Drawn(a))
      && ledger.disposed == old(ledger.disposed)
      && a.canvas !in old(page.canvases) && page.canvases == old(page.canvases) + {a.canvas}
      && a.handler !in old(page.listeners) && page.listeners == old(page.listeners) + {a.handler}
      && page.container
  {
    if !page.container {
      return None;
    }
    var scene, canvas := Begin(graph, page);
    var globe, points, lines, posArray, linesPositions := BuildObjects(ledger, graph, scene, surface, draws);
    var lights := AddLights(graph, scene);
    AttachFive(old(graph.parent), scene, globe.node, points.node, lines.node, lights.ambient, lights.point);
    var handler := ListenResize(page);
    m := Some(Mounted(scene, canvas, handler, globe, points, lines, posArray, linesPositions, lights));
  }

  /** The cleanup closure of lines 127-141: the three objects leave the scene,
      then the six resources are disposed. */
  method Cleanup(ledger: Ledger, graph: SceneGraph, page: Page, a: Mounted)
    requires graph.Valid() && page.Valid()
    requires page.container ==> a.canvas in page.canvases
    modifies ledger, graph, page
    ensures graph.Valid() && page.Valid()
    ensures page.listeners == old(page.listeners) - {a.handler}
    ensures page.canvases == if old(page.container) then old(page.canvases) - {a.canvas} else old(page.canvases)
    ensures page.container == old(page.container)
    ensures graph.parent == Detach(old(graph.parent), a.scene, {a.globe.node, a.points.node, a.lines.node})
    ensures ledger.created == old(ledger.created)
    ensures ledger.disposed == old(ledger.disposed) + multiset(Resources(Drawn(a)))
  {
    End(page, a.canvas, a.handler);
    RemoveTriple(graph, a.scene, a.globe.node, a.points.node, a.lines.node);
    DisposeThree(ledger, a.globe, a.points, a.lines);
  }

  /** The six `dispose()` calls of lines 136-141, drawable by drawable. */
  method DisposeThree(ledger: Ledger, x: Drawable, y: Drawable, z: Drawable)
    modifies ledger
    ensures ledger.created == old(ledger.created)
    ensures ledger.disposed == old(ledger.disposed) + multiset(Resources([x, y, z]))
  {
    DisposeDrawable(ledger, x);
    DisposeDrawable(ledger, y);
    DisposeDrawable(ledger, z);
    BagOfThree(x, y, z);
    ResourceBagIsResources([x, y, z]);
  }

  lemma BagOfThree(x: Drawable, y: Drawable, z: Drawable)
    ensures ResourceBag([x, y, z])
      == multiset{x.geometry, x.material} + multiset{y.geometry, y.material} + multiset{z.geometry, z.material}
  {
    assert [x, y, z][..2] == [x, y];
    assert [x, y][..1] == [x];
    assert ResourceBag([x]) == multiset{x.geometry, x.material};
    assert ResourceBag([x, y]) == ResourceBag([x]) + multiset{y.geometry, y.material};
  }

  /** The cleanup of a mounted scene, with the container present or gone:
      stated against the state before the mount (parent map p0 whose ids are
      all below n0, canvases c0, listeners l0). */
  method Unmount(ledger: Ledger, graph: SceneGraph, page: Page, a: Mounted, presentAtCleanup: bool,
                 ghost p0: map<Node, Node>, ghost n0: nat, ghost c0: set<nat>, ghost l0: set<nat>)
    requires graph.Valid() && page.Valid() && page.container
    requires forall n :: n in p0 ==> p0[n].id < n0
    requires a.scene.id == n0 && a.globe.node.id == n0 + 1 && a.points.node.id == n0 + 2 && a.lines.node.id == n0 + 3
    requires a.lights.ambient.id == n0 + 4 && a.lights.point.id == n0 + 5
    requires graph.parent == p0 +
      Attach({a.globe.node, a.points.node, a.lines.node, a.lights.ambient, a.lights.point}, a.scene)
    requires ledger.disposed == multiset{}
    requires a.canvas !in c0 && page.canvases == c0 + {a.canvas}
    requires a.handler !in l0 && page.listeners == l0 + {a.handler}
    modifies ledger, graph, page
    ensures ledger.created == old(ledger.created)
    ensures ledger.disposed == multiset(Resources(Drawn(a)))
    ensures page.listeners == l0
    ensures graph.Children(a.scene) == {a.lights.ambient, a.lights.point}
    ensures page.canvases == if presentAtCleanup then c0 else c0 + {a.canvas}
  {
    ghost var attached := graph.parent;
    page.SetContainer(presentAtCleanup);
    Cleanup(ledger, graph, page, a);
    AddThenRemove(l0, a.handler);
    AddThenRemove(c0, a.canvas);
    OnlyLightsAfterTriple(p0, n0, a.scene, a.globe.node, a.points.node, a.lines.node, a.lights,
                          attached, graph.parent);
  }

  /** One mount followed by its cleanup, with the container present or gone at
      cleanup time: the six resources are each disposed exactly once, the
      handler is gone, and only the two lights stay in the scene. */
  method Lifecycle(ledger: Ledger, graph: SceneGraph, page: Page, surface: real -> Vec3, draws: seq<real>,
                   presentAtCleanup: bool)
    returns (m: Option<Mounted>)
    requires ledger.Valid() && graph.Valid() && page.Valid()
    requires ledger.created == [] && ledger.disposed == multiset{}
    requires |draws| == 2 * LinkCount && Draws(draws)
    modifies ledger, graph, page
    ensures Balanced(ledger.created, ledger.disposed)
    ensures forall r :: r in ledger.created ==> ledger.disposed[r] == 1
    ensures |ledger.created| == if old(page.container) then 6 else 0
    ensures page.listeners == old(page.listeners)
    ensures m.Some? ==> graph.Children(m.value.scene) == {m.value.lights.ambient, m.value.lights.point}
    ensures m.Some? ==>
      page.canvases == if presentAtCleanup then old(page.canvases) else old(page.canvases) + {m.value.canvas}
  {
    ghost var p0, n0, c0, l0 := graph.parent, graph.next, page.canvases, page.listeners;
    m := Mount(ledger, graph, page, surface, draws);
    if m.None? {
      return;
    }
    Unmount(ledger, graph, page, m.value, presentAtCleanup, p0, n0, c0, l0);
    assert ledger.created == Resources(Drawn(m.value));
    BalancedIsExactlyOnce(ledger.created, ledger.disposed);
  }
}
