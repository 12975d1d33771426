/** components/three-scene-experience.tsx: a timeline of five spheres on the
    x axis, joined by four connection lines, and a cloud of a hundred
    particles. The cleanup closure removes and disposes the spheres and the
    particles; the connections and the timeline's own geometry are never
    disposed. */
module ExperienceScene {
  import opened Three
  import opened Dom
  import opened SceneSetup
  import opened Buffers

  const TimelineCount := 5
  const ParticlesCount := 100
  /** The particle cloud fills [-4, 4) x [-2, 2) x [-2, 2). */
  const Spread := Vec3(8.0, 4.0, 4.0)

  /** The x coordinate of timeline point i: `(i / (timelineCount - 1)) * 6 - 3`. */
  function TimelineX(i: int): real
  {
    (i as real / (TimelineCount - 1) as real) * 6.0 - 3.0
  }

  /** The timeline runs from -3 to 3, its points a step of 1.5 apart from
      left to right. */
  lemma TimelineLayout(i: int, j: int)
    requires 0 <= i < j < TimelineCount
    ensures TimelineX(0) == -3.0 && TimelineX(TimelineCount - 1) == 3.0
    ensures TimelineX(j) - TimelineX(i) == (j - i) as real * 1.5
    ensures -3.0 <= TimelineX(i) < TimelineX(j) <= 3.0
  {
    assert TimelineX(i) == i as real * 1.5 - 3.0;
    assert TimelineX(j) == j as real * 1.5 - 3.0;
  }

  /** Slot s of the timeline buffer once point s / 3 has been written: its x
      coordinate, then y = 0 and z = 0. */
  function LineCoord(s: int): real
  {
    if s % 3 == 0 then TimelineX(s / 3) else 0.0
  }

  /** The six coordinates of connection i: point i, then point i - 1. */
  function Segment(i: int): seq<real>
  {
    [TimelineX(i), 0.0, 0.0, TimelineX(i - 1), 0.0, 0.0]
  }

  /** Each connection runs 1.5 along the x axis from its point back to the
      previous one, and starts where the next connection ends: together the
      four connections join the five points into one chain. */
  lemma SegmentsChain(i: int)
    requires 1 <= i < TimelineCount - 1
    ensures Segment(i)[0] - Segment(i)[3] == 1.5 && Segment(i)[1..3] == Segment(i)[4..6] == [0.0, 0.0]
    ensures Segment(i + 1)[3..6] == Segment(i)[0..3]
  {
  }

  /** All drawables of ds have nodes of one kind. */
  predicate OfKind(ds: seq<Drawable>, kind: NodeKind)
  {
    forall k :: 0 <= k < |ds| ==> ds[k].node.kind == kind
  }

  lemma KindsOfNodes(ds: seq<Drawable>, kind: NodeKind)
    requires OfKind(ds, kind)
    ensures forall n :: n in Nodes(ds) ==> n.kind == kind
  {
    forall n | n in Nodes(ds)
      ensures n.kind == kind
    {
      InNodes(ds, n);
    }
  }

  /** Every sphere after the first comes with a connection. */
  predicate Joined(spheres: seq<Drawable>, connections: seq<Drawable>)
  {
    |connections| == if |spheres| == 0 then 0 else |spheres| - 1
  }

  /** The drawables in the order the loop constructs them: sphere 0, then
      sphere 1 and its connection, sphere 2 and its connection, ... */
  function BuildOrder(spheres: seq<Drawable>, connections: seq<Drawable>): (order: seq<Drawable>)
    requires Joined(spheres, connections)
    ensures |order| == |spheres| + |connections|
    decreases |spheres|
  {
    if |spheres| <= 1 then spheres
    else BuildOrder(spheres[..|spheres| - 1], connections[..|connections| - 1])
         + [spheres[|spheres| - 1], connections[|connections| - 1]]
  }

  lemma BuildOrderSnoc(spheres: seq<Drawable>, connections: seq<Drawable>, s: Drawable, c: Drawable)
    requires |spheres| >= 1 && Joined(spheres, connections)
    ensures BuildOrder(spheres + [s], connections + [c]) == BuildOrder(spheres, connections) + [s, c]
  {
    assert (spheres + [s])[..|spheres|] == spheres;
    assert (connections + [c])[..|connections|] == connections;
  }

  /** Interleaving changes no resource count: the resources of the timeline
      are those of the spheres together with those of the connections. */
  lemma {:induction false} BuildOrderBag(spheres: seq<Drawable>, connections: seq<Drawable>)
    requires Joined(spheres, connections)
    ensures ResourceBag(BuildOrder(spheres, connections)) == ResourceBag(spheres) + ResourceBag(connections)
    decreases |spheres|
  {
    if |spheres| == 1 {
      assert connections == [];
    } else if |spheres| > 1 {
      var si, ci := spheres[..|spheres| - 1], connections[..|connections| - 1];
      var s, c := spheres[|spheres| - 1], connections[|connections| - 1];
      BuildOrderBag(si, ci);
      var oi := BuildOrder(si, ci);
      assert BuildOrder(spheres, connections) == (oi + [s]) + [c];
      ResourceBagSnoc(oi + [s], c);
      ResourceBagSnoc(oi, s);
      Shuffle(ResourceBag(oi), ResourceBag(si), ResourceBag(ci),
              multiset{s.geometry, s.material}, multiset{c.geometry, c.material});
    }
  }

  /** Likewise the nodes of the timeline are the spheres' and the
      connections'. */
  lemma {:induction false} BuildOrderNodes(spheres: seq<Drawable>, connections: seq<Drawable>)
    requires Joined(spheres, connections)
    ensures Nodes(BuildOrder(spheres, connections)) == Nodes(spheres) + Nodes(connections)
    decreases |spheres|
  {
    if |spheres| == 1 {
      assert connections == [];
    } else if |spheres| > 1 {
      var si, ci := spheres[..|spheres| - 1], connections[..|connections| - 1];
      var s, c := spheres[|spheres| - 1], connections[|connections| - 1];
      BuildOrderNodes(si, ci);
      var oi := BuildOrder(si, ci);
      assert BuildOrder(spheres, connections) == (oi + [s]) + [c];
      NodesSnoc(oi + [s], c);
      NodesSnoc(oi, s);
    }
  }

  /** Lines 34-37: point i's x coordinate into slot 3i of the timeline
      buffer, 0 into the two slots after it. */
  method WriteTimelinePoint(linePositions: array<real>, i: nat) returns (x: real)
    requires 3 * i + 3 <= linePositions.Length
    modifies linePositions
    ensures x == TimelineX(i)
    ensures forall s :: 0 <= s < linePositions.Length ==>
      linePositions[s] == if 3 * i <= s < 3 * i + 3 then LineCoord(s) else old(linePositions[s])
  {
    x := (i as real / (TimelineCount - 1) as real) * 6.0 - 3.0;
    linePositions[3 * i] := x;
    linePositions[3 * i + 1] := 0.0;
    linePositions[3 * i + 2] := 0.0;
    SlotOfPoint(i, 0);
    SlotOfPoint(i, 1);
    SlotOfPoint(i, 2);
  }

  /** Lines 55-62: the connection's buffer holds point i, then the previous
      point read back from the timeline buffer once points 0 to i - 1 are in
      it: the two ends of segment i. */
  method ConnectionPositions(linePositions: array<real>, i: nat, x: real) returns (cp: array<real>)
    requires 1 <= i && 3 * i <= linePositions.Length
    requires x == TimelineX(i) && forall s :: 0 <= s < 3 * i ==> linePositions[s] == LineCoord(s)
    ensures fresh(cp)
    ensures cp[..] == Segment(i)
  {
    cp := new real[] [x, 0.0, 0.0, linePositions[(i - 1) * 3], linePositions[(i - 1) * 3 + 1],
                      linePositions[(i - 1) * 3 + 2]];
    SlotOfPoint(i - 1, 0);
    SlotOfPoint(i - 1, 1);
    SlotOfPoint(i - 1, 2);
  }

  /** The state after the first i iterations of the timeline loop, against
      the parent map p0 and the created resources c0 from before it: i
      spheres, a connection for each of them but the first with the
      coordinates of its two points, all of them children of the scene and
      their resources created in loop order. */
  ghost predicate Stations(i: nat, spheres: seq<Drawable>, connections: seq<Drawable>, segments: seq<seq<real>>,
                           parent: map<Node, Node>, created: seq<Resource>,
                           scene: Node, p0: map<Node, Node>, c0: seq<Resource>)
  {
    && |spheres| == i && Joined(spheres, connections) && |segments| == |connections|
    && (forall k :: 0 <= k < |segments| ==> segments[k] == Segment(k + 1))
    && OfKind(spheres, MeshNode) && OfKind(connections, LineNode)
    && parent == p0 + Attach(Nodes(BuildOrder(spheres, connections)), scene)
    && created == c0 + Resources(BuildOrder(spheres, connections))
  }

  /** The first iteration adds a sphere and no connection. */
  lemma FirstStation(sphere: Drawable, parent: map<Node, Node>, created: seq<Resource>,
                     scene: Node, p0: map<Node, Node>, c0: seq<Resource>)
    requires sphere.node.kind == MeshNode
    requires parent == p0 + Attach(Nodes(BuildOrder([], []) + [sphere]), scene)
    requires created == c0 + Resources(BuildOrder([], []) + [sphere])
    ensures Stations(1, [sphere], [], [], parent, created, scene, p0, c0)
  {
    assert BuildOrder([], []) + [sphere] == BuildOrder([sphere], []);
  }

  /** A later iteration adds a sphere and the connection back to the
      previous point. */
  lemma NextStation(i: nat, spheres: seq<Drawable>, connections: seq<Drawable>, segments: seq<seq<real>>,
                    sphere: Drawable, connection: Drawable, parent: map<Node, Node>, created: seq<Resource>,
                    scene: Node, p0: map<Node, Node>, c0: seq<Resource>)
    requires i > 0 && Joined(spheres, connections)
    requires Stations(i, spheres, connections, segments, p0 + Attach(Nodes(BuildOrder(spheres, connections)), scene),
                               c0 + Resources(BuildOrder(spheres, connections)), scene, p0, c0)
    requires sphere.node.kind == MeshNode && connection.node.kind == LineNode
    requires parent == p0 + Attach(Nodes(BuildOrder(spheres, connections) + [sphere] + [connection]), scene)
    requires created == c0 + Resources(BuildOrder(spheres, connections) + [sphere] + [connection])
    ensures Stations(i + 1, spheres + [sphere], connections + [connection], segments + [Segment(i)],
                     parent, created, scene, p0, c0)
  {
    BuildOrderSnoc(spheres, connections, sphere, connection);
    assert BuildOrder(spheres, connections) + [sphere] + [connection]
        == BuildOrder(spheres + [sphere], connections + [connection]);
  }

  /** Lines 39-73: one iteration of the loop after point i's coordinates
      are in the timeline buffer. */
  method AddStation(ledger: Ledger, graph: SceneGraph, scene: Node, linePositions: array<real>, i: nat, x: real,
                    spheres: seq<Drawable>, connections: seq<Drawable>, ghost segments: seq<seq<real>>,
                    ghost p0: map<Node, Node>, ghost c0: seq<Resource>)
    returns (spheres': seq<Drawable>, connections': seq<Drawable>, ghost segments': seq<seq<real>>)
    requires ledger.Valid() && graph.Valid() && scene.id < graph.next
    requires i < TimelineCount && linePositions.Length == 3 * TimelineCount
    requires x == TimelineX(i) && forall s :: 0 <= s < 3 * i ==> linePositions[s] == LineCoord(s)
    requires Stations(i, spheres, connections, segments, graph.parent, ledger.created, scene, p0, c0)
    modifies ledger, graph
    ensures ledger.Valid() && graph.Valid() && scene.id < graph.next
    ensures Stations(i + 1, spheres', connections', segments', graph.parent, ledger.created, scene, p0, c0)
    ensures ledger.disposed == old(ledger.disposed)
  {
    ghost var built := BuildOrder(spheres, connections);
    var sphere := BuildInto(ledger, graph, MeshNode, scene, built, p0, c0);
    if i == 0 {
      FirstStation(sphere, graph.parent, ledger.created, scene, p0, c0);
      spheres', connections', segments' := [sphere], [], [];
    } else {
      var positions := ConnectionPositions(linePositions, i, x);
      var connection := BuildInto(ledger, graph, LineNode, scene, built + [sphere], p0, c0);
      NextStation(i, spheres, connections, segments, sphere, connection, graph.parent, ledger.created, scene, p0, c0);
      spheres', connections', segments' := spheres + [sphere], connections + [connection], segments + [positions[..]];
    }
  }

  /** Lines 30-74: for each of the five points its coordinates in the
      timeline buffer, a sphere added to the scene and, from the second point
      on, a connection line back to the previous point, also added to the
      scene. */
  method BuildTimeline(ledger: Ledger, graph: SceneGraph, scene: Node, linePositions: array<real>)
    returns (spheres: seq<Drawable>, connections: seq<Drawable>, ghost segments: seq<seq<real>>)
    requires ledger.Valid() && graph.Valid() && scene.id < graph.next
    requires linePositions.Length == 3 * TimelineCount
    modifies ledger, graph, linePositions
    ensures ledger.Valid() && graph.Valid()
    ensures forall s :: 0 <= s < linePositions.Length ==> linePositions[s] == LineCoord(s)
    ensures Stations(TimelineCount, spheres, connections, segments, graph.parent, ledger.created,
                     scene, old(graph.parent), old(ledger.created))
    ensures ledger.disposed == old(ledger.disposed)
  {
    ghost var p0, c0 := graph.parent, ledger.created;
    spheres, connections, segments := [], [], [];
    AttachNone(p0, scene);
    var i := 0;
    while i < TimelineCount
      invariant 0 <= i <= TimelineCount
      invariant ledger.Valid() && graph.Valid() && scene.id < graph.next
      invariant forall s :: 0 <= s < 3 * i ==> linePositions[s] == LineCoord(s)
      invariant Stations(i, spheres, connections, segments, graph.parent, ledger.created, scene, p0, c0)
      invariant ledger.disposed == old(ledger.disposed)
    {
      var x := WriteTimelinePoint(linePositions, i);
      spheres, connections, segments :=
        AddStation(ledger, graph, scene, linePositions, i, x, spheres, connections, segments, p0, c0);
      i := i + 1;
    }
  }

  /** What the effect keeps for its cleanup closure. The connections and the
      timeline geometry are local to the construction and are not among
      them. */
  datatype Mounted = Mounted(scene: Node, canvas: nat, handler: nat, spheres: seq<Drawable>,
                             particles: Drawable, posArray: array<real>, lights: Lights)

  /** Lines 30-108: the timeline geometry (allocated first and given a
      position attribute at line 76, but never attached to any object and
      never disposed), the timeline with its buffer, the particles and the
      two lights. */
  method BuildContents(ledger: Ledger, graph: SceneGraph, scene: Node, draws: seq<real>)
    returns (lineGeometry: Resource, spheres: seq<Drawable>, connections: seq<Drawable>,
             ghost segments: seq<seq<real>>, linePositions: array<real>, particles: Drawable, posArray: array<real>,
             lights: Lights)
    requires ledger.Valid() && graph.Valid() && scene.id < graph.next
    requires |draws| == 3 * ParticlesCount && Draws(draws)
    modifies ledger, graph
    ensures ledger.Valid() && graph.Valid()
    ensures |spheres| == TimelineCount && Joined(spheres, connections) && |segments| == |connections|
    ensures forall k :: 0 <= k < |segments| ==> segments[k] == Segment(k + 1)
    ensures OfKind(spheres, MeshNode) && OfKind(connections, LineNode)
    ensures particles.node.kind == PointsNode
    ensures lights.ambient.kind == LightNode && lights.point.kind == LightNode
    ensures graph.parent == old(graph.parent) +
      Attach(Nodes(BuildOrder(spheres, connections)) + {particles.node} + {lights.ambient, lights.point}, scene)
    ensures fresh(linePositions) && linePositions.Length == 3 * TimelineCount
    ensures forall s :: 0 <= s < 3 * TimelineCount ==> linePositions[s] == LineCoord(s)
    ensures fresh(posArray) && posArray.Length == 3 * ParticlesCount
    ensures forall s :: 0 <= s < 3 * ParticlesCount ==> posArray[s] == Centered(draws[s], Coord(Spread, s % 3))
    ensures lineGeometry == Resource(Geometry, |old(ledger.created)|)
    ensures ledger.created == old(ledger.created) + [lineGeometry] +
      Resources(BuildOrder(spheres, connections) + [particles])
    ensures ledger.disposed == old(ledger.disposed)
  {
    lineGeometry := ledger.Allocate(Geometry);
    linePositions := new real[3 * TimelineCount](_ => 0.0);
    spheres, connections, segments := BuildTimeline(ledger, graph, scene, linePositions);
    particles, posArray := BuildParticles(ledger, graph, scene, draws, Spread);
    lights := AddLights(graph, scene);
    AttachThreeMore(old(graph.parent), Nodes(BuildOrder(spheres, connections)), scene,
                    particles.node, lights.ambient, lights.point);
    CreatedSnoc(old(ledger.created) + [lineGeometry], BuildOrder(spheres, connections), particles);
  }

  /** The scene graph and ledger right after a mount of `a` on top of the
      parent map p0 with next id n0 and created resources c0: the scene takes
      id n0; the spheres, the connections, the particles and the lights are
      its children; the timeline geometry comes first among the new
      resources, then those of the timeline in loop order, then the
      particles'. */
  ghost predicate Placed(a: Mounted, connections: seq<Drawable>, parent: map<Node, Node>, created: seq<Resource>,
                         p0: map<Node, Node>, n0: nat, c0: seq<Resource>)
  {
    && a.scene.id == n0
    && |a.spheres| == TimelineCount && Joined(a.spheres, connections)
    && OfKind(a.spheres, MeshNode) && OfKind(connections, LineNode)
    && a.particles.node.kind == PointsNode
    && a.lights.ambient.kind == LightNode && a.lights.point.kind == LightNode
    && parent == p0 + Attach(Nodes(BuildOrder(a.spheres, connections)) + {a.particles.node} +
                             {a.lights.ambient, a.lights.point}, a.scene)
    && created == c0 + [Resource(Geometry, |c0|)] + Resources(BuildOrder(a.spheres, connections) + [a.particles])
  }

  /** The effect body: return at once without a container; otherwise the
      scene and renderer, the timeline, the particles, the two lights and the
      resize handler. The connections and the timeline geometry are handed
      back beside what the cleanup closure keeps, for the corrected cleanup
      to use. */
  method Mount(ledger: Ledger, graph: SceneGraph, page: Page, draws: seq<real>)
    returns (m: Option<Mounted>, connections: seq<Drawable>, lineGeometry: Resource,
             ghost segments: seq<seq<real>>, timeline: seq<real>)
    requires ledger.Valid() && graph.Valid() && page.Valid()
    requires |draws| == 3 * ParticlesCount && Draws(draws)
    modifies ledger, graph, page
    ensures ledger.Valid() && graph.Valid() && page.Valid()
    ensures m.Some? <==> old(page.container)
    ensures m.None? ==> ledger.created == old(ledger.created) && ledger.disposed == old(ledger.disposed)
    ensures m.None? ==> graph.parent == old(graph.parent) && page.canvases == old(page.canvases)
    ensures m.None? ==> page.listeners == old(page.listeners)
    ensures m.Some? ==>
      var a := m.value;
      && Placed(a, connections, graph.parent, ledger.created, old(graph.parent), old(graph.next), old(ledger.created))
      && lineGeometry == Resource(Geometry, |old(ledger.created)|)
      && |segments| == TimelineCount - 1 && (forall k :: 0 <= k < |segments| ==> segments[k] == Segment(k + 1))
      && |timeline| == 3 * TimelineCount && (forall s :: 0 <= s < 3 * TimelineCount ==> timeline[s] == LineCoord(s))
      && fresh(a.posArray) && a.posArray.Length == 3 * ParticlesCount
      && (forall s :: 0 <= s < 3 * ParticlesCount ==> a.posArray[s] == Centered(draws[s], Coord(Spread, s % 3)))
      && ledger.disposed == old(ledger.disposed)
      && a.canvas !in old(page.canvases) && page.canvases == old(page.canvases) + {a.canvas}
      && a.handler !in old(page.listeners) && page.listeners == old(page.listeners) + {a.handler}
      && page.container
  {
    if !page.container {
      return None, [], Resource(Geometry, 0), [], [];
    }
    var scene, canvas := Begin(graph, page);
    var spheres, linePositions, particles, posArray, lights;
    lineGeometry, spheres, connections, segments, linePositions, particles, posArray, lights :=
      BuildContents(ledger, graph, scene, draws);
    timeline := linePositions[..];
    var handler := ListenResize(page);
    m := Some(Mounted(scene, canvas, handler, spheres, particles, posArray, lights));
  }

  /** The cleanup closure of lines 138-155: each sphere is removed from the
      scene and its geometry and material disposed, then the particles; the
      connections and the timeline geometry are not reachable from it. */
  method Cleanup(ledger: Ledger, graph: SceneGraph, page: Page, a: Mounted)
    requires graph.Valid() && page.Valid()
    requires page.container ==> a.canvas in page.canvases
    modifies ledger, graph, page
    ensures graph.Valid() && page.Valid()
    ensures page.listeners == old(page.listeners) - {a.handler}
    ensures page.canvases == if old(page.container) then old(page.canvases) - {a.canvas} else old(page.canvases)
    ensures page.container == old(page.container)
    ensures graph.parent == Detach(old(graph.parent), a.scene, Nodes(a.spheres) + {a.particles.node})
    ensures ledger.created == old(ledger.created)
    ensures ledger.disposed == old(ledger.disposed) + multiset(Resources(a.spheres + [a.particles]))
  {
    End(page, a.canvas, a.handler);
    DisposeAll(ledger, graph, a.scene, a.spheres);
    DetachOneMore(old(graph.parent), a.scene, Nodes(a.spheres), a.particles.node);
    DisposeOne(ledger, graph, a.scene, a.particles);
    ResourcesSnoc(a.spheres, a.particles);
  }

  /** After the cleanup detaches the spheres and the particles from a scene
      created after every node of p0, the scene's children are the four
      connections and the two lights. */
  lemma AfterCleanup(p0: map<Node, Node>, n0: nat, scene: Node, spheres: seq<Drawable>, connections: seq<Drawable>,
                     particles: Node, lights: Lights, attached: map<Node, Node>, after: map<Node, Node>)
    requires forall n :: n in p0 ==> p0[n].id < n0
    requires scene.id == n0 && Joined(spheres, connections)
    requires OfKind(spheres, MeshNode) && OfKind(connections, LineNode) && particles.kind == PointsNode
    requires lights.ambient.kind == LightNode && lights.point.kind == LightNode
    requires attached == p0 + Attach(Nodes(BuildOrder(spheres, connections)) + {particles} +
                                     {lights.ambient, lights.point}, scene)
    requires after == Detach(attached, scene, Nodes(spheres) + {particles})
    ensures ChildrenOf(after, scene) == Nodes(connections) + {lights.ambient, lights.point}
  {
    BuildOrderNodes(spheres, connections);
    KindsOfNodes(spheres, MeshNode);
    KindsOfNodes(connections, LineNode);
    var gone, rest := Nodes(spheres) + {particles}, Nodes(connections) + {lights.ambient, lights.point};
    assert Nodes(BuildOrder(spheres, connections)) + {particles} + {lights.ambient, lights.point} == gone + rest;
    DetachAfterAttach(p0, scene, gone, rest);
  }

  /** The resources of the timeline and the particles are those of the
      spheres and the particles together with those of the connections. */
  lemma TimelineLeftOver(spheres: seq<Drawable>, connections: seq<Drawable>, particles: Drawable)
    requires Joined(spheres, connections)
    ensures multiset(Resources(BuildOrder(spheres, connections) + [particles]))
         == multiset(Resources(spheres + [particles])) + multiset(Resources(connections))
  {
    ResourcesSnoc(BuildOrder(spheres, connections), particles);
    ResourcesSnoc(spheres, particles);
    ResourceBagIsResources(BuildOrder(spheres, connections));
    ResourceBagIsResources(spheres);
    ResourceBagIsResources(connections);
    BuildOrderBag(spheres, connections);
  }

  /** One mount followed by its cleanup leaves exactly the timeline geometry
      and the connections' resources undisposed, so the ledger leaks. */
  lemma TimelineLeaks(created: seq<Resource>, disposed: multiset<Resource>,
                      spheres: seq<Drawable>, connections: seq<Drawable>, particles: Drawable)
    requires Joined(spheres, connections)
    requires Numbered(created)
    requires created == [Resource(Geometry, 0)] + Resources(BuildOrder(spheres, connections) + [particles])
    requires disposed == multiset(Resources(spheres + [particles]))
    ensures multiset(created) == disposed + multiset(Resources(connections)) + multiset{created[0]}
    ensures Leaking(created, disposed)
    ensures disposed[created[0]] == 0
    ensures forall r :: r in Resources(connections) ==> r in created && disposed[r] == 0
  {
    TimelineLeftOver(spheres, connections, particles);
    LeakWithFirst(created, disposed, Resources(BuildOrder(spheres, connections) + [particles]),
                  multiset(Resources(connections)));
  }

  /** A ledger whose first resource and a further bag of resources stay
      undisposed leaks them all. */
  lemma LeakWithFirst(created: seq<Resource>, disposed: multiset<Resource>, rest: seq<Resource>,
                      left: multiset<Resource>)
    requires Numbered(created) && |created| > 0 && created == [created[0]] + rest
    requires multiset(rest) == disposed + left
    ensures multiset(created) == disposed + left + multiset{created[0]}
    ensures Leaking(created, disposed)
    ensures disposed[created[0]] == 0
    ensures forall r :: r in left ==> r in created && disposed[r] == 0
  {
    assert multiset(created) == multiset{created[0]} + multiset(rest);
    LeftOverLeaks(created, disposed, left + multiset{created[0]});
  }

  /** The cleanup of a mounted scene, with the container present or gone:
      stated against the state before the mount (parent map p0 whose ids are
      all below n0, canvases c0, listeners l0). */
  method Unmount(ledger: Ledger, graph: SceneGraph, page: Page, a: Mounted, ghost connections: seq<Drawable>,
                 presentAtCleanup: bool,
                 ghost p0: map<Node, Node>, ghost n0: nat, ghost c0: set<nat>, ghost l0: set<nat>)
    requires graph.Valid() && page.Valid() && page.container
    requires forall n :: n in p0 ==> p0[n].id < n0
    requires ledger.Valid() && Placed(a, connections, graph.parent, ledger.created, p0, n0, [])
    requires ledger.disposed == multiset{}
    requires a.canvas !in c0 && page.canvases == c0 + {a.canvas}
    requires a.handler !in l0 && page.listeners == l0 + {a.handler}
    modifies ledger, graph, page
    ensures graph.Valid()
    ensures ledger.created == old(ledger.created)
    ensures ledger.disposed == multiset(Resources(a.spheres + [a.particles]))
    ensures Leaking(ledger.created, ledger.disposed)
    ensures multiset(ledger.created) ==
      ledger.disposed + multiset(Resources(connections)) + multiset{Resource(Geometry, 0)}
    ensures Resource(Geometry, 0) in ledger.created && ledger.disposed[Resource(Geometry, 0)] == 0
    ensures forall r :: r in Resources(connections) ==> r in ledger.created && ledger.disposed[r] == 0
    ensures page.listeners == l0
    ensures graph.Children(a.scene) == Nodes(connections) + {a.lights.ambient, a.lights.point}
    ensures page.canvases == if presentAtCleanup then c0 else c0 + {a.canvas}
  {
    ghost var attached := graph.parent;
    assert ledger.created == [Resource(Geometry, 0)] + Resources(BuildOrder(a.spheres, connections) + [a.particles]);
    page.SetContainer(presentAtCleanup);
    Cleanup(ledger, graph, page, a);
    AddThenRemove(l0, a.handler);
    AddThenRemove(c0, a.canvas);
    AfterCleanup(p0, n0, a.scene, a.spheres, connections, a.particles.node, a.lights, attached, graph.parent);
    TimelineLeaks(ledger.created, ledger.disposed, a.spheres, connections, a.particles);
  }

  /** One mount followed by its cleanup, with the container present or gone at
      cleanup time. Nothing is disposed twice or without having been created,
      but the timeline geometry and the eight resources of the four
      connections are never disposed, and the connections stay in the
      scene. */
  method Lifecycle(ledger: Ledger, graph: SceneGraph, page: Page, draws: seq<real>, presentAtCleanup: bool)
    returns (m: Option<Mounted>, connections: seq<Drawable>, lineGeometry: Resource)
    requires ledger.Valid() && graph.Valid() && page.Valid()
    requires ledger.created == [] && ledger.disposed == multiset{}
    requires |draws| == 3 * ParticlesCount && Draws(draws)
    modifies ledger, graph, page
    ensures ledger.Valid() && graph.Valid()
    ensures m.None? <==> !old(page.container)
    ensures m.None? ==> ledger.created == [] && ledger.disposed == multiset{}
    ensures m.Some? ==> |connections| == TimelineCount - 1
    ensures m.Some? ==> lineGeometry == Resource(Geometry, 0)
    ensures m.Some? ==> OfKind(connections, LineNode)
    ensures m.Some? ==> m.value.lights.ambient.kind == LightNode && m.value.lights.point.kind == LightNode
    ensures m.Some? ==> Leaking(ledger.created, ledger.disposed)
    ensures m.Some? ==>
      multiset(ledger.created) == ledger.disposed + multiset(Resources(connections)) + multiset{Resource(Geometry, 0)}
    ensures m.Some? ==> Resource(Geometry, 0) in ledger.created && ledger.disposed[Resource(Geometry, 0)] == 0
    ensures m.Some? ==> forall r :: r in Resources(connections) ==> r in ledger.created && ledger.disposed[r] == 0
    ensures page.listeners == old(page.listeners)
    ensures m.Some? ==> graph.Children(m.value.scene) == Nodes(connections) + {m.value.lights.ambient, m.value.lights.point}
    ensures m.Some? ==>
      page.canvases == if presentAtCleanup then old(page.canvases) else old(page.canvases) + {m.value.canvas}
  {
    ghost var p0, n0, c0, l0 := graph.parent, graph.next, page.canvases, page.listeners;
    ghost var segments: seq<seq<real>>;
    var timeline;
    m, connections, lineGeometry, segments, timeline := Mount(ledger, graph, page, draws);
    if m.None? {
      return;
    }
    var a := m.value;
    assert |connections| == TimelineCount - 1;
    Unmount(ledger, graph, page, a, connections, presentAtCleanup, p0, n0, c0, l0);
  }

  /** The connections are lines and the lights are lights, so none is the
      other. */
  lemma LightsApart(connections: seq<Drawable>, lights: Lights)
    requires OfKind(connections, LineNode)
    requires lights.ambient.kind == LightNode && lights.point.kind == LightNode
    ensures {lights.ambient, lights.point} !! Nodes(connections)
  {
    KindsOfNodes(connections, LineNode);
  }

  /** The disposals the cleanup closure misses: each connection removed
      from the scene with its geometry and material disposed, then the
      timeline geometry. When exactly these were left over, nothing is. */
  method DisposeTimeline(ledger: Ledger, graph: SceneGraph, scene: Node, connections: seq<Drawable>,
                         lineGeometry: Resource, ghost rest: set<Node>)
    requires graph.Valid() && rest !! Nodes(connections)
    requires graph.Children(scene) == Nodes(connections) + rest
    requires multiset(ledger.created) == ledger.disposed + multiset(Resources(connections)) + multiset{lineGeometry}
    modifies ledger, graph
    ensures ledger.created == old(ledger.created)
    ensures Balanced(ledger.created, ledger.disposed)
    ensures graph.Children(scene) == rest
  {
    ghost var before := graph.parent;
    DisposeAll(ledger, graph, scene, connections);
    ledger.Dispose(lineGeometry);
    ChildrenAfterDetach(before, scene, Nodes(connections));
  }

  /** One mount followed by the cleanup as evidently intended: the closure
      as written, then DisposeTimeline. Every resource created, the timeline
      geometry and the connections' included, is disposed exactly once, and
      the scene keeps only its lights. */
  method CorrectedLifecycle(ledger: Ledger, graph: SceneGraph, page: Page, draws: seq<real>, presentAtCleanup: bool)
    returns (m: Option<Mounted>)
    requires ledger.Valid() && graph.Valid() && page.Valid()
    requires ledger.created == [] && ledger.disposed == multiset{}
    requires |draws| == 3 * ParticlesCount && Draws(draws)
    modifies ledger, graph, page
    ensures m.None? <==> !old(page.container)
    ensures m.None? ==> ledger.created == []
    ensures Balanced(ledger.created, ledger.disposed)
    ensures forall r :: r in ledger.created ==> ledger.disposed[r] == 1
    ensures page.listeners == old(page.listeners)
    ensures m.Some? ==> graph.Children(m.value.scene) == {m.value.lights.ambient, m.value.lights.point}
    ensures m.Some? ==>
      page.canvases == if presentAtCleanup then old(page.canvases) else old(page.canvases) + {m.value.canvas}
  {
    var connections, lineGeometry;
    m, connections, lineGeometry := Lifecycle(ledger, graph, page, draws, presentAtCleanup);
    if m.Some? {
      var a := m.value;
      LightsApart(connections, a.lights);
      DisposeTimeline(ledger, graph, a.scene, connections, lineGeometry, {a.lights.ambient, a.lights.point});
    }
    BalancedIsExactlyOnce(ledger.created, ledger.disposed);
  }
}
