/** components/three-scene-about.tsx: twenty floating cubes, each with its own
    box geometry and a material whose colour is drawn from a four-colour
    palette; the cleanup closure removes and disposes every cube. */
module AboutScene {
  import opened Three
  import opened Dom
  import opened SceneSetup
  import opened Buffers

  const CubeCount := 20
  const Palette: seq<int> := [0x8b5cf6, 0x6d28d9, 0x4c1d95, 0x7c3aed]

  /** `Math.floor(r * colors.length)` for a draw r of `Math.random()`. */
  function PaletteIndex(r: real): (k: nat)
    requires 0.0 <= r < 1.0
    ensures k < |Palette|
  {
    (r * 4.0).Floor
  }

  /** `colors[Math.floor(Math.random() * colors.length)]` for the draw r. */
  function Colour(r: real): (c: int)
    requires 0.0 <= r < 1.0
    ensures c in Palette
  {
    Palette[PaletteIndex(r)]
  }

  /** What the effect keeps for its cleanup closure. */
  datatype Mounted = Mounted(scene: Node, canvas: nat, handler: nat, cubes: seq<Drawable>,
                             colors: seq<int>, lights: Lights)

  /** The `for` loop of lines 30-54: cube i gets a fresh geometry, a fresh
      material coloured `colors[floor(draws[i] * 4)]`, is added to the scene
      once and pushed onto `cubes`. Positions and rotations are left out. */
  method BuildCubes(ledger: Ledger, graph: SceneGraph, scene: Node, draws: seq<real>)
    returns (cubes: seq<Drawable>, colors: seq<int>)
    requires ledger.Valid() && graph.Valid() && scene.id < graph.next
    requires |draws| == CubeCount && Draws(draws)
    modifies ledger, graph
    ensures ledger.Valid() && graph.Valid()
    ensures |cubes| == CubeCount && |colors| == CubeCount
    ensures forall k :: 0 <= k < CubeCount ==> colors[k] == Colour(draws[k]) && colors[k] in Palette
    ensures forall k :: 0 <= k < CubeCount ==> cubes[k].node == Node(MeshNode, old(graph.next) + k)
    ensures graph.next == old(graph.next) + CubeCount
    ensures graph.parent == old(graph.parent) + Attach(Nodes(cubes), scene)
    ensures ledger.created == old(ledger.created) + Resources(cubes)
    ensures ledger.disposed == old(ledger.disposed)
  {
    cubes, colors := [], [];
    var i := 0;
    while i < CubeCount
      modifies ledger, graph
      invariant 0 <= i <= CubeCount && |cubes| == i && |colors| == i
      invariant ledger.Valid() && graph.Valid()
      invariant forall k :: 0 <= k < i ==> colors[k] == Colour(draws[k])
      invariant forall k :: 0 <= k < i ==> cubes[k].node == Node(MeshNode, old(graph.next) + k)
      invariant graph.next == old(graph.next) + i
      invariant graph.parent == old(graph.parent) + Attach(Nodes(cubes), scene)
      invariant ledger.created == old(ledger.created) + Resources(cubes)
      invariant ledger.disposed == old(ledger.disposed)
    {
      var color := Colour(draws[i]);
      var cube := BuildInto(ledger, graph, MeshNode, scene, cubes, old(graph.parent), old(ledger.created));
      cubes, colors := cubes + [cube], colors + [color];
      i := i + 1;
    }
  }

  /** The effect body: return at once without a container; otherwise build the
      scene and the renderer, the cubes, the two lights, and register the
      resize handler. */
  method Mount(ledger: Ledger, graph: SceneGraph, page: Page, draws: seq<real>) returns (m: Option<Mounted>)
    requires ledger.Valid() && graph.Valid() && page.Valid()
    requires |draws| == CubeCount && Draws(draws)
    modifies ledger, graph, page
    ensures ledger.Valid() && graph.Valid() && page.Valid()
    ensures m.Some? <==> old(page.container)
    ensures m.None? ==> ledger.created == old(ledger.created) && ledger.disposed == old(ledger.disposed)
    ensures m.None? ==> graph.parent == old(graph.parent) && page.canvases == old(page.canvases)
    ensures m.None? ==> page.listeners == old(page.listeners)
    ensures m.Some? ==>
      var a := m.value;
      && a.scene.id == old(graph.next)
      && |a.cubes| == CubeCount && |a.colors| == CubeCount
      && (forall k :: 0 <= k < CubeCount ==> a.colors[k] == Colour(draws[k]) && a.colors[k] in Palette)
      && (forall k :: 0 <= k < CubeCount ==> a.cubes[k].node == Node(MeshNode, old(graph.next) + 1 + k))
      && graph.next == old(graph.next) + 3 + CubeCount
      && a.lights.ambient != a.lights.point
      && a.lights.ambient !in Nodes(a.cubes) && a.lights.point !in Nodes(a.cubes)
      && graph.parent == old(graph.parent) + Attach(Nodes(a.cubes) + {a.lights.ambient, a.lights.point}, a.scene)
      && ledger.created == old(ledger.created) + Resources(a.cubes)
      && ledger.disposed == old(ledger.disposed)
      && a.canvas !in old(page.canvases) && page.canvases == old(page.canvases) + {a.canvas}
      && a.handler !in old(page.listeners) && page.listeners == old(page.listeners) + {a.handler}
      && page.container
  {
    if !page.container {
      return None;
    }
    var scene, canvas := Begin(graph, page);
    var cubes, colors := BuildCubes(ledger, graph, scene, draws);
    var lights := AddLights(graph, scene);
    AscendingFromIds(cubes, scene.id + 1);
    NodesWithin(cubes, scene.id + 1, lights.ambient.id);
    AttachTwoMore(old(graph.parent), Nodes(cubes), scene, lights.ambient, lights.point);
    var handler := ListenResize(page);
    m := Some(Mounted(scene, canvas, handler, cubes, colors, lights));
  }

  /** The cleanup closure of lines 91-105. */
  method Cleanup(ledger: Ledger, graph: SceneGraph, page: Page, a: Mounted)
    requires graph.Valid() && page.Valid()
    requires page.container ==> a.canvas in page.canvases
    modifies ledger, graph, page
    ensures graph.Valid() && page.Valid()
    ensures page.listeners == old(page.listeners) - {a.handler}
    ensures page.canvases == if old(page.container) then old(page.canvases) - {a.canvas} else old(page.canvases)
    ensures page.container == old(page.container)
    ensures graph.parent == Detach(old(graph.parent), a.scene, Nodes(a.cubes))
    ensures ledger.created == old(ledger.created)
    ensures ledger.disposed == old(ledger.disposed) + multiset(Resources(a.cubes))
  {
    End(page, a.canvas, a.handler);
    DisposeAll(ledger, graph, a.scene, a.cubes);
  }

  /** The cleanup of a mounted scene, with the container present or gone:
      stated against the state before the mount (parent map p0 whose ids are
      all below n0, canvases c0, listeners l0). */
  method Unmount(ledger: Ledger, graph: SceneGraph, page: Page, a: Mounted, presentAtCleanup: bool,
                 ghost p0: map<Node, Node>, ghost n0: nat, ghost c0: set<nat>, ghost l0: set<nat>)
    requires graph.Valid() && page.Valid() && page.container
    requires forall n :: n in p0 ==> p0[n].id < n0
    requires a.scene.id == n0 && Nodes(a.cubes) !! {a.lights.ambient, a.lights.point}
    requires graph.parent == p0 + Attach(Nodes(a.cubes) + {a.lights.ambient, a.lights.point}, a.scene)
    requires ledger.disposed == multiset{}
    requires a.canvas !in c0 && page.canvases == c0 + {a.canvas}
    requires a.handler !in l0 && page.listeners == l0 + {a.handler}
    modifies ledger, graph, page
    ensures ledger.created == old(ledger.created)
    ensures ledger.disposed == multiset(Resources(a.cubes))
    ensures page.listeners == l0
    ensures graph.Children(a.scene) == {a.lights.ambient, a.lights.point}
    ensures page.canvases == if presentAtCleanup then c0 else c0 + {a.canvas}
  {
    ghost var attached := graph.parent;
    page.SetContainer(presentAtCleanup);
    Cleanup(ledger, graph, page, a);
    AddThenRemove(l0, a.handler);
    AddThenRemove(c0, a.canvas);
    OnlyRestRemains(p0, n0, a.scene, Nodes(a.cubes), {a.lights.ambient, a.lights.point}, attached, graph.parent);
  }

  /** One mount followed by its cleanup, with the container present or gone at
      cleanup time: every geometry and material created is disposed exactly
      once, the handler is gone, and only the two lights stay in the scene. */
  method Lifecycle(ledger: Ledger, graph: SceneGraph, page: Page, draws: seq<real>, presentAtCleanup: bool)
    returns (m: Option<Mounted>)
    requires ledger.Valid() && graph.Valid() && page.Valid()
    requires ledger.created == [] && ledger.disposed == multiset{}
    requires |draws| == CubeCount && Draws(draws)
    modifies ledger, graph, page
    ensures Balanced(ledger.created, ledger.disposed)
    ensures forall r :: r in ledger.created ==> ledger.disposed[r] == 1
    ensures |ledger.created| == if old(page.container) then 2 * CubeCount else 0
    ensures page.listeners == old(page.listeners)
    ensures m.Some? ==> graph.Children(m.value.scene) == {m.value.lights.ambient, m.value.lights.point}
    ensures m.Some? ==>
      page.canvases == if presentAtCleanup then old(page.canvases) else old(page.canvases) + {m.value.canvas}
  {
    ghost var p0, n0, c0, l0 := graph.parent, graph.next, page.canvases, page.listeners;
    m := Mount(ledger, graph, page, draws);
    if m.Some? {
      Unmount(ledger, graph, page, m.value, presentAtCleanup, p0, n0, c0, l0);
    }
    BalancedIsExactlyOnce(ledger.created, ledger.disposed);
  }
}
