/** The steps that every scene component's effect performs the same way:
    creating the scene and the renderer's canvas, adding the two lights,
    registering the resize handler, and the start of the cleanup closure
    (unregistering the handler and the guarded removal of the canvas). */
module SceneSetup {
  import opened Three
  import opened Dom
  import opened Buffers

  datatype Option<T> = None | Some(value: T)

  datatype Lights = Lights(ambient: Node, point: Node)

  /** The ids of ds's nodes rise strictly and lie in [lo, hi): each drawable
      has its own node, none of which existed before lo was handed out. */
  predicate Ascending(ds: seq<Drawable>, lo: nat, hi: nat)
  {
    && (forall j, k :: 0 <= j < k < |ds| ==> ds[j].node.id < ds[k].node.id)
    && (forall k :: 0 <= k < |ds| ==> lo <= ds[k].node.id < hi)
  }

  /** Drawables whose nodes were numbered lo, lo + 1, ... in turn. */
  lemma AscendingFromIds(ds: seq<Drawable>, lo: nat)
    requires forall k :: 0 <= k < |ds| ==> ds[k].node.id == lo + k
    ensures Ascending(ds, lo, lo + |ds|)
  {
  }

  lemma NodesWithin(ds: seq<Drawable>, lo: nat, hi: nat)
    requires Ascending(ds, lo, hi)
    ensures forall n :: n in Nodes(ds) ==> lo <= n.id < hi
  {
    forall n | n in Nodes(ds)
      ensures lo <= n.id < hi
    {
      InNodes(ds, n);
    }
  }

  /** After the cleanup detaches the nodes ns from a scene created after every
      node of p0, only the other nodes attached with them (rest) are left as the
      scene's children. */
  lemma OnlyRestRemains(p0: map<Node, Node>, n0: nat, scene: Node, ns: set<Node>, rest: set<Node>,
                        attached: map<Node, Node>, after: map<Node, Node>)
    requires forall n :: n in p0 ==> p0[n].id < n0
    requires scene.id == n0 && ns !! rest
    requires attached == p0 + Attach(ns + rest, scene)
    requires after == Detach(attached, scene, ns)
    ensures ChildrenOf(after, scene) == rest
  {
    DetachAfterAttach(p0, scene, ns, rest);
  }

  /** OnlyRestRemains for a cleanup that removes the two drawables x and y of a
      scene that also holds the two lights. */
  lemma OnlyLightsAfterPair(p0: map<Node, Node>, n0: nat, scene: Node, x: Node, y: Node, lights: Lights,
                            attached: map<Node, Node>, after: map<Node, Node>)
    requires forall n :: n in p0 ==> p0[n].id < n0
    requires scene.id == n0 && x.id == n0 + 1 && y.id == n0 + 2
    requires lights.ambient.id == n0 + 3 && lights.point.id == n0 + 4
    requires attached == p0 + Attach({x, y, lights.ambient, lights.point}, scene)
    requires after == Detach(attached, scene, {x, y})
    ensures ChildrenOf(after, scene) == {lights.ambient, lights.point}
  {
    assert {x, y, lights.ambient, lights.point} == {x, y} + {lights.ambient, lights.point};
    OnlyRestRemains(p0, n0, scene, {x, y}, {lights.ambient, lights.point}, attached, after);
  }

  /** The same with three drawables detached before the two lights. */
  lemma OnlyLightsAfterTriple(p0: map<Node, Node>, n0: nat, scene: Node, x: Node, y: Node, z: Node, lights: Lights,
                              attached: map<Node, Node>, after: map<Node, Node>)
    requires forall n :: n in p0 ==> p0[n].id < n0
    requires scene.id == n0 && x.id == n0 + 1 && y.id == n0 + 2 && z.id == n0 + 3
    requires lights.ambient.id == n0 + 4 && lights.point.id == n0 + 5
    requires attached == p0 + Attach({x, y, z, lights.ambient, lights.point}, scene)
    requires after == Detach(attached, scene, {x, y, z})
    ensures ChildrenOf(after, scene) == {lights.ambient, lights.point}
  {
    assert {x, y, z, lights.ambient, lights.point} == {x, y, z} + {lights.ambient, lights.point};
    OnlyRestRemains(p0, n0, scene, {x, y, z}, {lights.ambient, lights.point}, attached, after);
  }

  /** `new THREE.Scene()`, `new THREE.WebGLRenderer(...)` and
      `containerRef.current.appendChild(renderer.domElement)`. */
  method Begin(graph: SceneGraph, page: Page) returns (scene: Node, canvas: nat)
    requires graph.Valid() && page.Valid() && page.container
    modifies graph, page
    ensures graph.Valid() && page.Valid()
    ensures scene == Node(SceneRoot, old(graph.next)) && scene !in graph.parent
    ensures graph.next == old(graph.next) + 1 && graph.parent == old(graph.parent)
    ensures canvas !in old(page.canvases) && page.canvases == old(page.canvases) + {canvas}
    ensures page.listeners == old(page.listeners) && page.container
  {
    scene := graph.Create(SceneRoot);
    canvas := page.Fresh();
    page.AppendChild(canvas);
  }

  /** The ambient light and the point light, both added to the scene. */
  method AddLights(graph: SceneGraph, scene: Node) returns (lights: Lights)
    requires graph.Valid() && scene.id < graph.next
    modifies graph
    ensures graph.Valid()
    ensures lights == Lights(Node(LightNode, old(graph.next)), Node(LightNode, old(graph.next) + 1))
    ensures graph.next == old(graph.next) + 2
    ensures graph.parent == old(graph.parent)[lights.ambient := scene][lights.point := scene]
  {
    var ambient := graph.Create(LightNode);
    graph.Add(scene, ambient);
    var point := graph.Create(LightNode);
    graph.Add(scene, point);
    lights := Lights(ambient, point);
  }

  /** `window.addEventListener("resize", handleResize)` with a new closure. */
  method ListenResize(page: Page) returns (handler: nat)
    requires page.Valid()
    modifies page
    ensures page.Valid()
    ensures handler !in old(page.listeners) && page.listeners == old(page.listeners) + {handler}
    ensures page.canvases == old(page.canvases) && page.container == old(page.container)
  {
    handler := page.Fresh();
    page.AddResizeListener(handler);
  }

  /** The first statements of every cleanup closure: unregister the handler, and
      remove the canvas only if the container is still there. */
  method End(page: Page, canvas: nat, handler: nat)
    requires page.Valid()
    requires page.container ==> canvas in page.canvases
    modifies page
    ensures page.Valid()
    ensures page.listeners == old(page.listeners) - {handler}
    ensures page.canvases == if old(page.container) then old(page.canvases) - {canvas} else old(page.canvases)
    ensures page.container == old(page.container)
  {
    page.RemoveResizeListener(handler);
    if page.container {
      page.RemoveChild(canvas);
    }
  }

  /** A geometry, then a material, then the object built from them. */
  method Build(ledger: Ledger, graph: SceneGraph, kind: NodeKind) returns (d: Drawable)
    requires ledger.Valid() && graph.Valid()
    modifies ledger, graph
    ensures ledger.Valid() && graph.Valid()
    ensures d.node == Node(kind, old(graph.next)) && d.node !in graph.parent
    ensures graph.next == old(graph.next) + 1 && graph.parent == old(graph.parent)
    ensures d.geometry.kind == Geometry && d.material.kind == Material
    ensures ledger.created == old(ledger.created) + [d.geometry, d.material]
    ensures ledger.disposed == old(ledger.disposed)
  {
    var geometry := ledger.Allocate(Geometry);
    var material := ledger.Allocate(Material);
    var node := graph.Create(kind);
    d := Drawable(node, geometry, material);
  }

  /** Build then `scene.add(d)`. */
  method BuildAndAdd(ledger: Ledger, graph: SceneGraph, kind: NodeKind, scene: Node) returns (d: Drawable)
    requires ledger.Valid() && graph.Valid() && scene.id < graph.next
    modifies ledger, graph
    ensures ledger.Valid() && graph.Valid()
    ensures d.node == Node(kind, old(graph.next)) && d.node !in old(graph.parent)
    ensures graph.next == old(graph.next) + 1 && graph.parent == old(graph.parent)[d.node := scene]
    ensures d.geometry.kind == Geometry && d.material.kind == Material
    ensures ledger.created == old(ledger.created) + [d.geometry, d.material]
    ensures ledger.disposed == old(ledger.disposed)
  {
    d := Build(ledger, graph, kind);
    graph.Add(scene, d.node);
  }

  /** The particle cloud: `particlesGeometry`, a `posArray` of 3 * count
      numbers filled by the particle loop from three draws per particle,
      `particlesMaterial`, and the Points object added to the scene. */
  method BuildParticles(ledger: Ledger, graph: SceneGraph, scene: Node, draws: seq<real>, spread: Vec3)
    returns (particles: Drawable, posArray: array<real>)
    requires ledger.Valid() && graph.Valid() && scene.id < graph.next
    requires |draws| % 3 == 0 && Draws(draws) && Positive(spread)
    modifies ledger, graph
    ensures ledger.Valid() && graph.Valid() && fresh(posArray)
    ensures particles.node == Node(PointsNode, old(graph.next)) && graph.next == old(graph.next) + 1
    ensures graph.parent == old(graph.parent)[particles.node := scene]
    ensures ledger.created == old(ledger.created) + [particles.geometry, particles.material]
    ensures ledger.disposed == old(ledger.disposed)
    ensures posArray.Length == |draws|
    ensures forall s :: 0 <= s < |draws| ==> posArray[s] == Centered(draws[s], Coord(spread, s % 3))
  {
    var particlesGeometry := ledger.Allocate(Geometry);
    posArray := new real[|draws|](_ => 0.0);
    ghost var writes := FillParticles(posArray, draws, spread);
    var particlesMaterial := ledger.Allocate(Material);
    var node := graph.Create(PointsNode);
    graph.Add(scene, node);
    particles := Drawable(node, particlesGeometry, particlesMaterial);
  }

  /** One iteration of a construction loop: build a drawable, add it to the
      scene and push it onto ds; stated against the state before the loop
      (parent map p0, created resources c0). */
  method BuildInto(ledger: Ledger, graph: SceneGraph, kind: NodeKind, scene: Node, ghost ds: seq<Drawable>,
                   ghost p0: map<Node, Node>, ghost c0: seq<Resource>)
    returns (d: Drawable)
    requires ledger.Valid() && graph.Valid() && scene.id < graph.next
    requires graph.parent == p0 + Attach(Nodes(ds), scene)
    requires ledger.created == c0 + Resources(ds)
    modifies ledger, graph
    ensures ledger.Valid() && graph.Valid()
    ensures d.node == Node(kind, old(graph.next)) && graph.next == old(graph.next) + 1
    ensures graph.parent == p0 + Attach(Nodes(ds + [d]), scene)
    ensures ledger.created == c0 + Resources(ds + [d])
    ensures ledger.disposed == old(ledger.disposed)
  {
    d := BuildAndAdd(ledger, graph, kind, scene);
    AttachOneMore(p0, Nodes(ds), scene, d.node);
    NodesSnoc(ds, d);
    ResourcesSnoc(ds, d);
  }

  /** One step of the cleanup loop: `scene.remove(d); d.geometry.dispose();
      d.material.dispose()`. Materials are single objects here, so the
      `instanceof THREE.Material` branch is always the one taken. */
  method DisposeOne(ledger: Ledger, graph: SceneGraph, scene: Node, d: Drawable)
    requires graph.Valid()
    modifies ledger, graph
    ensures graph.Valid() && graph.next == old(graph.next)
    ensures graph.parent == if d.node in old(graph.parent) && old(graph.parent)[d.node] == scene
                            then old(graph.parent) - {d.node} else old(graph.parent)
    ensures ledger.created == old(ledger.created)
    ensures ledger.disposed == old(ledger.disposed) + multiset{d.geometry, d.material}
  {
    graph.Remove(scene, d.node);
    ledger.Dispose(d.geometry);
    ledger.Dispose(d.material);
  }

  /** `scene.remove(x); scene.remove(y)`. */
  method RemovePair(graph: SceneGraph, scene: Node, x: Node, y: Node)
    requires graph.Valid()
    modifies graph
    ensures graph.Valid() && graph.next == old(graph.next)
    ensures graph.parent == Detach(old(graph.parent), scene, {x, y})
  {
    DetachNone(graph.parent, scene);
    DetachOneMore(graph.parent, scene, {}, x);
    DetachOneMore(graph.parent, scene, {x}, y);
    graph.Remove(scene, x);
    graph.Remove(scene, y);
  }

  /** `scene.remove(x); scene.remove(y); scene.remove(z)`. */
  method RemoveTriple(graph: SceneGraph, scene: Node, x: Node, y: Node, z: Node)
    requires graph.Valid()
    modifies graph
    ensures graph.Valid() && graph.next == old(graph.next)
    ensures graph.parent == Detach(old(graph.parent), scene, {x, y, z})
  {
    RemovePair(graph, scene, x, y);
    DetachOneMore(old(graph.parent), scene, {x, y}, z);
    graph.Remove(scene, z);
  }

  /** `d.geometry.dispose(); d.material.dispose()`. */
  method DisposeDrawable(ledger: Ledger, d: Drawable)
    modifies ledger
    ensures ledger.created == old(ledger.created)
    ensures ledger.disposed == old(ledger.disposed) + multiset{d.geometry, d.material}
  {
    ledger.Dispose(d.geometry);
    ledger.Dispose(d.material);
  }

  /** Iteration i of the cleanup loop, stated against the state before the
      loop (parent map p0, disposals d0). */
  method DisposeNext(ledger: Ledger, graph: SceneGraph, scene: Node, ds: seq<Drawable>, i: nat,
                     ghost p0: map<Node, Node>, ghost d0: multiset<Resource>)
    requires i < |ds| && graph.Valid()
    requires graph.parent == Detach(p0, scene, Nodes(ds[..i]))
    requires ledger.disposed == d0 + ResourceBag(ds[..i])
    modifies ledger, graph
    ensures graph.Valid() && graph.next == old(graph.next)
    ensures graph.parent == Detach(p0, scene, Nodes(ds[..i + 1]))
    ensures ledger.created == old(ledger.created)
    ensures ledger.disposed == d0 + ResourceBag(ds[..i + 1])
  {
    DetachOneMore(p0, scene, Nodes(ds[..i]), ds[i].node);
    ResourceBagPrefixStep(ds, i);
    NodesPrefixStep(ds, i);
    DisposeOne(ledger, graph, scene, ds[i]);
  }

  /** The cleanup loop `ds.forEach(d => ...)` of DisposeOne steps. */
  method DisposeAll(ledger: Ledger, graph: SceneGraph, scene: Node, ds: seq<Drawable>)
    requires graph.Valid()
    modifies ledger, graph
    ensures graph.Valid() && graph.next == old(graph.next)
    ensures graph.parent == Detach(old(graph.parent), scene, Nodes(ds))
    ensures ledger.created == old(ledger.created)
    ensures ledger.disposed == old(ledger.disposed) + multiset(Resources(ds))
  {
    var i := 0;
    while i < |ds|
      invariant 0 <= i <= |ds|
      invariant graph.Valid() && graph.next == old(graph.next)
      invariant graph.parent == Detach(old(graph.parent), scene, Nodes(ds[..i]))
      invariant ledger.created == old(ledger.created)
      invariant ledger.disposed == old(ledger.disposed) + ResourceBag(ds[..i])
    {
      DisposeNext(ledger, graph, scene, ds, i, old(graph.parent), old(ledger.disposed));
      i := i + 1;
    }
    assert ds[..i] == ds;
    ResourceBagIsResources(ds);
  }

  /** Iteration i of DisposeEach, stated against the disposals d0 from
      before the loop. */
  method DisposeNextResources(ledger: Ledger, ds: seq<Drawable>, i: nat, ghost d0: multiset<Resource>)
    requires i < |ds| && ledger.disposed == d0 + ResourceBag(ds[..i])
    modifies ledger
    ensures ledger.created == old(ledger.created)
    ensures ledger.disposed == d0 + ResourceBag(ds[..i + 1])
  {
    ResourceBagPrefixStep(ds, i);
    DisposeDrawable(ledger, ds[i]);
  }

  /** `ds.forEach(d => { d.geometry.dispose(); d.material.dispose() })`
      without touching the scene graph. */
  method DisposeEach(ledger: Ledger, ds: seq<Drawable>)
    modifies ledger
    ensures ledger.created == old(ledger.created)
    ensures ledger.disposed == old(ledger.disposed) + multiset(Resources(ds))
  {
    var i := 0;
    while i < |ds|
      invariant 0 <= i <= |ds|
      invariant ledger.created == old(ledger.created)
      invariant ledger.disposed == old(ledger.disposed) + ResourceBag(ds[..i])
    {
      DisposeNextResources(ledger, ds, i, old(ledger.disposed));
      i := i + 1;
    }
    assert ds[..i] == ds;
    ResourceBagIsResources(ds);
  }
}
