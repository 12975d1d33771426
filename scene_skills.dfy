/** components/three-scene-skills.tsx: a sphere of points and fifty random line
    segments; the cleanup closure removes both and disposes their two
    geometries and two materials. */
module SkillsScene {
  import opened Three
  import opened Dom
  import opened SceneSetup
  import opened Buffers

  const SegmentCount := 50
  /** Three coordinates for each end of each segment. */
  const PositionCount := SegmentCount * 2 * 3
  /** Segment ends are drawn from a cube of this side centred on the origin. */
  const Side := 4.0

  /** The loop of lines 53-68: segment i takes draws 6i .. 6i + 2 for its start
      point and 6i + 3 .. 6i + 5 for its end point, each `(r - 0.5) * 4`, and
      pushes the six numbers in that order. */
  method LinePositions(draws: seq<real>) returns (ps: seq<real>)
    requires |draws| == PositionCount && Draws(draws)
    ensures |ps| == PositionCount
    ensures forall s :: 0 <= s < PositionCount ==> ps[s] == Centered(draws[s], Side)
  {
    ps := [];
    var i := 0;
    while i < SegmentCount
      invariant 0 <= i <= SegmentCount && |ps| == 6 * i
      invariant forall s :: 0 <= s < 6 * i ==> ps[s] == Centered(draws[s], Side)
    {
      var start := Vec3(Centered(draws[6 * i], Side), Centered(draws[6 * i + 1], Side), Centered(draws[6 * i + 2], Side));
      var end := Vec3(Centered(draws[6 * i + 3], Side), Centered(draws[6 * i + 4], Side), Centered(draws[6 * i + 5], Side));
      ps := ps + [start.x, start.y, start.z];
      ps := ps + [end.x, end.y, end.z];
      i := i + 1;
    }
  }

  /** The buffer holds exactly the hundred segment ends, each coordinate inside
      the cube [-2, 2). */
  lemma SegmentEndsInCube(draws: seq<real>, ps: seq<real>)
    requires |draws| == PositionCount && Draws(draws)
    requires |ps| == PositionCount && forall s :: 0 <= s < PositionCount ==> ps[s] == Centered(draws[s], Side)
    ensures |ps| / 3 == 2 * SegmentCount
    ensures forall s :: 0 <= s < |ps| ==> -2.0 <= ps[s] < 2.0
  {
  }

  /** What the effect keeps for its cleanup closure. */
  datatype Mounted = Mounted(scene: Node, canvas: nat, handler: nat, sphere: Drawable, lines: Drawable,
                             linePositions: seq<real>, lights: Lights)

  /** The resources in the order the effect constructs them: the sphere's
      geometry and material, then `linesMaterial` before `linesGeometry`. */
  function Allocated(a: Mounted): seq<Resource>
  {
    [a.sphere.geometry, a.sphere.material, a.lines.material, a.lines.geometry]
  }

  /** The two drawables, in the order the cleanup disposes them. */
  function Drawn(a: Mounted): seq<Drawable>
  {
    [a.sphere, a.lines]
  }

  /** Disposing the sphere's pair and then the lines' pair accounts for every
      allocation, although the lines' material was constructed first. */
  lemma AllocatedBag(a: Mounted)
    ensures multiset(Allocated(a)) == multiset(Resources(Drawn(a)))
  {
    ResourcesSnoc([a.sphere], a.lines);
    ResourcesSnoc([], a.sphere);
    assert [a.sphere] + [a.lines] == Drawn(a);
    var sg, sm, lg, lm := a.sphere.geometry, a.sphere.material, a.lines.geometry, a.lines.material;
    assert Resources(Drawn(a)) == [sg, sm] + [lg, lm];
    assert Allocated(a) == [sg, sm] + [lm, lg];
    assert multiset([lm, lg]) == multiset([lg, lm]);
  }

  /** Lines 44-75: `linesMaterial`, then `linesGeometry`, the fifty segments,
      and the LineSegments object added to the scene. */
  method BuildLines(ledger: Ledger, graph: SceneGraph, scene: Node, draws: seq<real>)
    returns (lines: Drawable, linePositions: seq<real>)
    requires ledger.Valid() && graph.Valid() && scene.id < graph.next
    requires |draws| == PositionCount && Draws(draws)
    modifies ledger, graph
    ensures ledger.Valid() && graph.Valid()
    ensures lines.node == Node(LineSegmentsNode, old(graph.next)) && graph.next == old(graph.next) + 1
    ensures graph.parent == old(graph.parent)[lines.node := scene]
    ensures ledger.created == old(ledger.created) + [lines.material, lines.geometry]
    ensures ledger.disposed == old(ledger.disposed)
    ensures |linePositions| == PositionCount
    ensures forall s :: 0 <= s < PositionCount ==> linePositions[s] == Centered(draws[s], Side)
  {
    var linesMaterial := ledger.Allocate(Material);
    var linesGeometry := ledger.Allocate(Geometry);
    linePositions := LinePositions(draws);
    var linesNode := graph.Create(LineSegmentsNode);
    graph.Add(scene, linesNode);
    lines := Drawable(linesNode, linesGeometry, linesMaterial);
  }

  /** The effect body: return at once without a container; otherwise the
      scene and renderer, the sphere, the lines, the two lights and the resize
      handler. */
  method Mount(ledger: Ledger, graph: SceneGraph, page: Page, draws: seq<real>) returns (m: Option<Mounted>)
    requires ledger.Valid() && graph.Valid() && page.Valid()
    requires |draws| == PositionCount && Draws(draws)
    modifies ledger, graph, page
    ensures ledger.Valid() && graph.Valid() && page.Valid()
    ensures m.Some? <==> old(page.container)
    ensures m.None? ==> ledger.created == old(ledger.created) && ledger.disposed == old(ledger.disposed)
    ensures m.None? ==> graph.parent == old(graph.parent) && page.canvases == old(page.canvases)
    ensures m.None? ==> page.listeners == old(page.listeners)
    ensures m.Some? ==>
      var a := m.value;
      && a.scene.id == old(graph.next)
      && a.sphere.node == Node(PointsNode, old(graph.next) + 1)
      && a.lines.node == Node(LineSegmentsNode, old(graph.next) + 2)
      && a.lights == Lights(Node(LightNode, old(graph.next) + 3), Node(LightNode, old(graph.next) + 4))
      && graph.parent == old(graph.parent) +
           Attach({a.sphere.node, a.lines.node, a.lights.ambient, a.lights.point}, a.scene)
      && |a.linePositions| == PositionCount
      && (forall s :: 0 <= s < PositionCount ==> a.linePositions[s] == Centered(draws[s], Side))
      && ledger.created == old(ledger.created) + Allocated(a)
      && ledger.disposed == old(ledger.disposed)
      && a.canvas !in old(page.canvases) && page.canvases == old(page.canvases) + {a.canvas}
      && a.handler !in old(page.listeners) && page.listeners == old(page.listeners) + {a.handler}
      && page.container
  {
    if !page.container {
      return None;
    }
    var scene, canvas := Begin(graph, page);
    var sphere := BuildAndAdd(ledger, graph, PointsNode, scene);
    var lines, linePositions := BuildLines(ledger, graph, scene, draws);
    var lights := AddLights(graph, scene);
    AttachFour(old(graph.parent), scene, sphere.node, lines.node, lights.ambient, lights.point);
    var handler := ListenResize(page);
    m := Some(Mounted(scene, canvas, handler, sphere, lines, linePositions, lights));
  }

  /** The cleanup closure of lines 110-121: both drawables leave the scene,
      then the four resources are disposed. */
  method Cleanup(ledger: Ledger, graph: SceneGraph, page: Page, a: Mounted)
    requires graph.Valid() && page.Valid()
    requires page.container ==> a.canvas in page.canvases
    modifies ledger, graph, page
    ensures graph.Valid() && page.Valid()
    ensures page.listeners == old(page.listeners) - {a.handler}
    ensures page.canvases == if old(page.container) then old(page.canvases) - {a.canvas} else old(page.canvases)
    ensures page.container == old(page.container)
    ensures graph.parent == Detach(old(graph.parent), a.scene, {a.sphere.node, a.lines.node})
    ensures ledger.created == old(ledger.created)
    ensures ledger.disposed == old(ledger.disposed) + multiset(Resources(Drawn(a)))
  {
    End(page, a.canvas, a.handler);
    RemovePair(graph, a.scene, a.sphere.node, a.lines.node);
    DisposeDrawable(ledger, a.sphere);
    DisposeDrawable(ledger, a.lines);
    ResourcesSnoc([a.sphere], a.lines);
    ResourcesSnoc([], a.sphere);
    assert [a.sphere] + [a.lines] == Drawn(a);
  }

  /** The cleanup of a mounted scene, with the container present or gone:
      stated against the state before the mount (parent map p0 whose ids are
      all below n0, canvases c0, listeners l0). */
  method Unmount(ledger: Ledger, graph: SceneGraph, page: Page, a: Mounted, presentAtCleanup: bool,
                 ghost p0: map<Node, Node>, ghost n0: nat, ghost c0: set<nat>, ghost l0: set<nat>)
    requires graph.Valid() && page.Valid() && page.container
    requires forall n :: n in p0 ==> p0[n].id < n0
    requires a.scene.id == n0 && a.sphere.node.id == n0 + 1 && a.lines.node.id == n0 + 2
    requires a.lights.ambient.id == n0 + 3 && a.lights.point.id == n0 + 4
    requires graph.parent == p0 + Attach({a.sphere.node, a.lines.node, a.lights.ambient, a.lights.point}, a.scene)
    requires ledger.disposed == multiset{}
    requires a.canvas !in c0 && page.canvases == c0 + {a.canvas}
    requires a.handler !in l0 && page.listeners == l0 + {a.handler}
    modifies ledger, graph, page
    ensures ledger.created == old(ledger.created)
    ensures ledger.disposed == multiset(Resources(Drawn(a)))
    ensures page.listeners == l0
    ensures graph.Children(a.scene) == {a.lights.ambient, a.lights.point}
    ensures page.canvases == if presentAtCleanup then c0 else c0 + {a.canvas}
  {
    ghost var attached := graph.parent;
    page.SetContainer(presentAtCleanup);
    Cleanup(ledger, graph, page, a);
    assert page.listeners == l0 by {
      AddThenRemove(l0, a.handler);
    }
    assert presentAtCleanup ==> page.canvases == c0 by {
      AddThenRemove(c0, a.canvas);
    }
    assert graph.Children(a.scene) == {a.lights.ambient, a.lights.point} by {
      OnlyLightsAfterPair(p0, n0, a.scene, a.sphere.node, a.lines.node, a.lights, attached, graph.parent);
    }
  }

  /** One mount followed by its cleanup, with the container present or gone at
      cleanup time: the four resources are each disposed exactly once, the
      handler is gone, and only the two lights stay in the scene. */
  method Lifecycle(ledger: Ledger, graph: SceneGraph, page: Page, draws: seq<real>, presentAtCleanup: bool)
    returns (m: Option<Mounted>)
    requires ledger.Valid() && graph.Valid() && page.Valid()
    requires ledger.created == [] && ledger.disposed == multiset{}
    requires |draws| == PositionCount && Draws(draws)
    modifies ledger, graph, page
    ensures Balanced(ledger.created, ledger.disposed)
    ensures forall r :: r in ledger.created ==> ledger.disposed[r] == 1
    ensures |ledger.created| == if old(page.container) then 4 else 0
    ensures page.listeners == old(page.listeners)
    ensures m.Some? ==> graph.Children(m.value.scene) == {m.value.lights.ambient, m.value.lights.point}
    ensures m.Some? ==>
      page.canvases == if presentAtCleanup then old(page.canvases) else old(page.canvases) + {m.value.canvas}
  {
    ghost var p0, n0, c0, l0 := graph.parent, graph.next, page.canvases, page.listeners;
    m := Mount(ledger, graph, page, draws);
    if m.None? {
      return;
    }
    Unmount(ledger, graph, page, m.value, presentAtCleanup, p0, n0, c0, l0);
    AllocatedBag(m.value);
    BalancedIsExactlyOnce(ledger.created, ledger.disposed);
  }
}
