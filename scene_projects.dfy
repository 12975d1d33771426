/** components/three-scene-projects.tsx: thirty hexagons laid out five to a row;
    the cleanup closure removes and disposes every hexagon. */
module ProjectsScene {
  import opened Three
  import opened Dom
  import opened SceneSetup

  const HexCount := 30
  const Columns := 5

  /** `Math.floor(i / 5)`; for i >= 0 the floor is Dafny's division. */
  function GridRow(i: nat): nat
  {
    i / Columns
  }

  /** `i % 5`; for i >= 0 JavaScript's remainder is Dafny's. */
  function GridCol(i: nat): nat
  {
    i % Columns
  }

  /** Every hexagon falls in one of six rows and five columns. */
  lemma GridBounds(i: nat)
    requires i < HexCount
    ensures GridRow(i) < 6 && GridCol(i) < Columns
  {
  }

  /** Row and column give the hexagon's index back. */
  lemma GridInverse(i: nat)
    ensures i == GridRow(i) * Columns + GridCol(i)
  {
  }

  /** Distinct hexagons occupy distinct cells. */
  lemma GridInjective(i: nat, j: nat)
    requires i != j
    ensures (GridRow(i), GridCol(i)) != (GridRow(j), GridCol(j))
  {
    GridInverse(i);
    GridInverse(j);
  }

  /** `hex.position.x = col * 1.1 - 2.2`: a function of the column alone. */
  function HexX(col: nat): real
  {
    col as real * 1.1 - 2.2
  }

  /** `hex.position.y = row * 1.1 - 2.2`: a function of the row alone. */
  function HexY(row: nat): real
  {
    row as real * 1.1 - 2.2
  }

  /** The centre of hexagon i in the plane of the grid. */
  function Centre(i: nat): (real, real)
  {
    (HexX(GridCol(i)), HexY(GridRow(i)))
  }

  /** No two hexagons are placed on the same point of the plane: a step of
      1.1 along either axis separates different cells. */
  lemma CentresDistinct(i: nat, j: nat)
    requires i != j
    ensures Centre(i) != Centre(j)
  {
    GridInjective(i, j);
  }

  /** What the effect keeps for its cleanup closure. */
  datatype Mounted = Mounted(scene: Node, canvas: nat, handler: nat, hexagons: seq<Drawable>, lights: Lights)

  /** The state after the first i hexagons, against the next node id n0,
      the parent map p0 and the created resources c0 from before the loop:
      hexagon k has node id n0 + k and centre Centre(k), every hexagon is a
      child of the scene, and their resources are created in order. */
  ghost predicate Laid(i: nat, hexagons: seq<Drawable>, centres: seq<(real, real)>, next: nat,
                       parent: map<Node, Node>, created: seq<Resource>,
                       scene: Node, n0: nat, p0: map<Node, Node>, c0: seq<Resource>)
  {
    && |hexagons| == i && |centres| == i && next == n0 + i
    && (forall k :: 0 <= k < i ==> centres[k] == Centre(k))
    && (forall k :: 0 <= k < i ==> hexagons[k].node == Node(MeshNode, n0 + k))
    && parent == p0 + Attach(Nodes(hexagons), scene)
    && created == c0 + Resources(hexagons)
  }

  /** One iteration of the loop of lines 29-53: hexagon i is built, added to
      the scene and pushed, with its centre. */
  method PlaceHexagon(ledger: Ledger, graph: SceneGraph, scene: Node, i: nat,
                      hexagons: seq<Drawable>, centres: seq<(real, real)>,
                      ghost n0: nat, ghost p0: map<Node, Node>, ghost c0: seq<Resource>)
    returns (hexagons': seq<Drawable>, centres': seq<(real, real)>)
    requires ledger.Valid() && graph.Valid() && scene.id < graph.next
    requires Laid(i, hexagons, centres, graph.next, graph.parent, ledger.created, scene, n0, p0, c0)
    modifies ledger, graph
    ensures ledger.Valid() && graph.Valid() && scene.id < graph.next
    ensures Laid(i + 1, hexagons', centres', graph.next, graph.parent, ledger.created, scene, n0, p0, c0)
    ensures ledger.disposed == old(ledger.disposed)
  {
    var hex := BuildInto(ledger, graph, MeshNode, scene, hexagons, p0, c0);
    var row, col := GridRow(i), GridCol(i);
    hexagons', centres' := hexagons + [hex], centres + [(HexX(col), HexY(row))];
  }

  /** The `for` loop of lines 29-53: hexagon i gets a fresh circle geometry and
      a fresh material, is placed at Centre(i), added to the scene once and
      pushed onto `hexagons`. */
  method BuildHexagons(ledger: Ledger, graph: SceneGraph, scene: Node)
    returns (hexagons: seq<Drawable>, centres: seq<(real, real)>)
    requires ledger.Valid() && graph.Valid() && scene.id < graph.next
    modifies ledger, graph
    ensures ledger.Valid() && graph.Valid()
    ensures |hexagons| == HexCount && |centres| == HexCount
    ensures forall k :: 0 <= k < HexCount ==> centres[k] == Centre(k)
    ensures forall k :: 0 <= k < HexCount ==> hexagons[k].node == Node(MeshNode, old(graph.next) + k)
    ensures graph.next == old(graph.next) + HexCount
    ensures graph.parent == old(graph.parent) + Attach(Nodes(hexagons), scene)
    ensures ledger.created == old(ledger.created) + Resources(hexagons)
    ensures ledger.disposed == old(ledger.disposed)
  {
    ghost var n0, p0, c0 := graph.next, graph.parent, ledger.created;
    hexagons, centres := [], [];
    AttachNone(p0, scene);
    var i := 0;
    while i < HexCount
      invariant 0 <= i <= HexCount
      invariant ledger.Valid() && graph.Valid() && scene.id < graph.next
      invariant Laid(i, hexagons, centres, graph.next, graph.parent, ledger.created, scene, n0, p0, c0)
      invariant ledger.disposed == old(ledger.disposed)
    {
      hexagons, centres := PlaceHexagon(ledger, graph, scene, i, hexagons, centres, n0, p0, c0);
      i := i + 1;
    }
  }

  /** The effect body: return at once without a container; otherwise build the
      scene and the renderer, the hexagons, the two lights, and register the
      resize handler. */
  method Mount(ledger: Ledger, graph: SceneGraph, page: Page) returns (m: Option<Mounted>)
    requires ledger.Valid() && graph.Valid() && page.Valid()
    modifies ledger, graph, page
    ensures ledger.Valid() && graph.Valid() && page.Valid()
    ensures m.Some? <==> old(page.container)
    ensures m.None? ==> ledger.created == old(ledger.created) && ledger.disposed == old(ledger.disposed)
    ensures m.None? ==> graph.parent == old(graph.parent) && page.canvases == old(page.canvases)
    ensures m.None? ==> page.listeners == old(page.listeners)
    ensures m.Some? ==>
      var a := m.value;
      && a.scene.id == old(graph.next)
      && |a.hexagons| == HexCount
      && (forall k :: 0 <= k < HexCount ==> a.hexagons[k].node == Node(MeshNode, old(graph.next) + 1 + k))
      && graph.next == old(graph.next) + 3 + HexCount
      && a.lights.ambient != a.lights.point
      && a.lights.ambient !in Nodes(a.hexagons) && a.lights.point !in Nodes(a.hexagons)
      && graph.parent == old(graph.parent) + Attach(Nodes(a.hexagons) + {a.lights.ambient, a.lights.point}, a.scene)
      && ledger.created == old(ledger.created) + Resources(a.hexagons)
      && ledger.disposed == old(ledger.disposed)
      && a.canvas !in old(page.canvases) && page.canvases == old(page.canvases) + {a.canvas}
      && a.handler !in old(page.listeners) && page.listeners == old(page.listeners) + {a.handler}
      && page.container
  {
    if !page.container {
      return None;
    }
    var scene, canvas := Begin(graph, page);
    var hexagons, centres := BuildHexagons(ledger, graph, scene);
    var lights := AddLights(graph, scene);
    AscendingFromIds(hexagons, scene.id + 1);
    NodesWithin(hexagons, scene.id + 1, lights.ambient.id);
    AttachTwoMore(old(graph.parent), Nodes(hexagons), scene, lights.ambient, lights.point);
    var handler := ListenResize(page);
    m := Some(Mounted(scene, canvas, handler, hexagons, lights));
  }

  /** The cleanup closure of lines 91-105. */
  method Cleanup(ledger: Ledger, graph: SceneGraph, page: Page, a: Mounted)
    requires graph.Valid() && page.Valid()
    requires page.container ==> a.canvas in page.canvases
    modifies ledger, graph, page
    ensures graph.Valid() && page.Valid()
    ensures page.listeners == old(page.listeners) - {a.handler}
    ensures page.canvases == if old(page.container) then old(page.canvases) - {a.canvas} else old(page.canvases)
    ensures page.container == old(page.container)
    ensures graph.parent == Detach(old(graph.parent), a.scene, Nodes(a.hexagons))
    ensures ledger.created == old(ledger.created)
    ensures ledger.disposed == old(ledger.disposed) + multiset(Resources(a.hexagons))
  {
    End(page, a.canvas, a.handler);
    DisposeAll(ledger, graph, a.scene, a.hexagons);
  }

  /** The cleanup of a mounted scene, with the container present or gone:
      stated against the state before the mount (parent map p0 whose ids are
      all below n0, canvases c0, listeners l0). */
  method Unmount(ledger: Ledger, graph: SceneGraph, page: Page, a: Mounted, presentAtCleanup: bool,
                 ghost p0: map<Node, Node>, ghost n0: nat, ghost c0: set<nat>, ghost l0: set<nat>)
    requires graph.Valid() && page.Valid() && page.container
    requires forall n :: n in p0 ==> p0[n].id < n0
    requires a.scene.id == n0 && Nodes(a.hexagons) !! {a.lights.ambient, a.lights.point}
    requires graph.parent == p0 + Attach(Nodes(a.hexagons) + {a.lights.ambient, a.lights.point}, a.scene)
    requires ledger.disposed == multiset{}
    requires a.canvas !in c0 && page.canvases == c0 + {a.canvas}
    requires a.handler !in l0 && page.listeners == l0 + {a.handler}
    modifies ledger, graph, page
    ensures ledger.created == old(ledger.created)
    ensures ledger.disposed == multiset(Resources(a.hexagons))
    ensures page.listeners == l0
    ensures graph.Children(a.scene) == {a.lights.ambient, a.lights.point}
    ensures page.canvases == if presentAtCleanup then c0 else c0 + {a.canvas}
  {
    ghost var attached := graph.parent;
    page.SetContainer(presentAtCleanup);
    Cleanup(ledger, graph, page, a);
    AddThenRemove(l0, a.handler);
    AddThenRemove(c0, a.canvas);
    OnlyRestRemains(p0, n0, a.scene, Nodes(a.hexagons), {a.lights.ambient, a.lights.point}, attached, graph.parent);
  }

  /** One mount followed by its cleanup, with the container present or gone at
      cleanup time: every geometry and material created is disposed exactly
      once, the handler is gone, and only the two lights stay in the scene. */
  method Lifecycle(ledger: Ledger, graph: SceneGraph, page: Page, presentAtCleanup: bool)
    returns (m: Option<Mounted>)
    requires ledger.Valid() && graph.Valid() && page.Valid()
    requires ledger.created == [] && ledger.disposed == multiset{}
    modifies ledger, graph, page
    ensures Balanced(ledger.created, ledger.disposed)
    ensures forall r :: r in ledger.created ==> ledger.disposed[r] == 1
    ensures |ledger.created| == if old(page.container) then 2 * HexCount else 0
    ensures page.listeners == old(page.listeners)
    ensures m.Some? ==> graph.Children(m.value.scene) == {m.value.lights.ambient, m.value.lights.point}
    ensures m.Some? ==>
      page.canvases == if presentAtCleanup then old(page.canvases) else old(page.canvases) + {m.value.canvas}
  {
    ghost var p0, n0, c0, l0 := graph.parent, graph.next, page.canvases, page.listeners;
    m := Mount(ledger, graph, page);
    if m.Some? {
      Unmount(ledger, graph, page, m.value, presentAtCleanup, p0, n0, c0, l0);
    }
    BalancedIsExactlyOnce(ledger.created, ledger.disposed);
  }
}
