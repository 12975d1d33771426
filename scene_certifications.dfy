/** components/three-scene-certifications.tsx: five certificate planes on a
    circle, each carrying a white border as its child, and a cloud of a hundred
    particles. The cleanup closure removes and disposes the certificates and the
    particles; the borders' geometries and materials are never disposed. */
module CertificationsScene {
  import opened Three
  import opened Dom
  import opened SceneSetup
  import opened Buffers

  const CertCount := 5
  const ParticlesCount := 100
  /** The particle cloud fills the cube [-4, 4) on every axis. */
  const Spread := Vec3(8.0, 8.0, 8.0)

  /** The angle of certificate i: `(i / certCount) * Math.PI * 2` at creation
      (elapsed = 0), plus `Date.now() * 0.0003` in every frame; tau stands for
      `Math.PI * 2`. */
  function Angle(i: int, elapsed: real, tau: real): real
  {
    (i as real / CertCount as real) * tau + elapsed * 0.0003
  }

  /** Whatever the time, the certificates keep a fifth of a turn between
      neighbours, and all five lie within one turn of the first: the shared
      term rotates the ring without changing its shape. */
  lemma EvenlySpaced(i: int, j: int, elapsed: real, tau: real)
    requires 0 <= i < j < CertCount && tau > 0.0
    ensures Angle(j, elapsed, tau) - Angle(i, elapsed, tau) == (j - i) as real * (tau / CertCount as real)
    ensures Angle(0, elapsed, tau) <= Angle(i, elapsed, tau) < Angle(j, elapsed, tau) < Angle(0, elapsed, tau) + tau
  {
    var step := tau / CertCount as real;
    assert Angle(i, elapsed, tau) == i as real * step + elapsed * 0.0003;
    assert Angle(j, elapsed, tau) == j as real * step + elapsed * 0.0003;
    assert Angle(0, elapsed, tau) == elapsed * 0.0003;
    assert (j - i) as real * step > 0.0;
    assert i as real * step >= 0.0;
    assert j as real * step <= 4.0 * step < tau;
  }

  /** The drawables in the order the loop constructs them: certificate 0, its
      border, certificate 1, its border, ... */
  function Pairs(cs: seq<Drawable>, bs: seq<Drawable>): (ps: seq<Drawable>)
    requires |cs| == |bs|
    ensures |ps| == 2 * |cs|
  {
    if cs == [] then [] else Pairs(cs[..|cs| - 1], bs[..|bs| - 1]) + [cs[|cs| - 1], bs[|bs| - 1]]
  }

  /** Certificate k is built at position 2k, its border right after it. */
  lemma {:induction false} PairsAt(cs: seq<Drawable>, bs: seq<Drawable>, k: int)
    requires |cs| == |bs| && 0 <= k < |cs|
    ensures Pairs(cs, bs)[2 * k] == cs[k] && Pairs(cs, bs)[2 * k + 1] == bs[k]
  {
    var n := |cs| - 1;
    if k < n {
      PairsAt(cs[..n], bs[..n], k);
    }
  }

  lemma PairsSnoc(cs: seq<Drawable>, bs: seq<Drawable>, c: Drawable, b: Drawable)
    requires |cs| == |bs|
    ensures Pairs(cs + [c], bs + [b]) == Pairs(cs, bs) + [c, b]
  {
    assert (cs + [c])[..|cs|] == cs;
    assert (bs + [b])[..|bs|] == bs;
  }

  /** Interleaving changes no resource count: the resources of the pairs are
      those of the certificates together with those of the borders. */
  lemma {:induction false} PairsBag(cs: seq<Drawable>, bs: seq<Drawable>)
    requires |cs| == |bs|
    ensures ResourceBag(Pairs(cs, bs)) == ResourceBag(cs) + ResourceBag(bs)
  {
    if cs != [] {
      var ci, bi, c, b := cs[..|cs| - 1], bs[..|bs| - 1], cs[|cs| - 1], bs[|bs| - 1];
      PairsBag(ci, bi);
      var pi := Pairs(ci, bi);
      assert Pairs(cs, bs) == (pi + [c]) + [b];
      ResourceBagSnoc(pi + [c], b);
      ResourceBagSnoc(pi, c);
      Shuffle(ResourceBag(pi), ResourceBag(ci), ResourceBag(bi),
              multiset{c.geometry, c.material}, multiset{b.geometry, b.material});
    }
  }

  /** The parent entries of the borders: border k hangs from certificate k. */
  function Links(cs: seq<Drawable>, bs: seq<Drawable>): map<Node, Node>
    requires |cs| == |bs|
  {
    if bs == [] then map[]
    else Links(cs[..|cs| - 1], bs[..|bs| - 1])[bs[|bs| - 1].node := cs[|cs| - 1].node]
  }

  /** Every border hangs from one of the certificates. */
  lemma {:induction false} LinksIntoCertificates(cs: seq<Drawable>, bs: seq<Drawable>)
    requires |cs| == |bs|
    ensures forall n :: n in Links(cs, bs) ==> Links(cs, bs)[n] in Nodes(cs)
  {
    if bs != [] {
      var ci, bi := cs[..|cs| - 1], bs[..|bs| - 1];
      LinksIntoCertificates(ci, bi);
      NodesSnoc(ci, cs[|cs| - 1]);
      assert ci + [cs[|cs| - 1]] == cs;
    }
  }

  /** `scene.add(cert)` then `cert.add(border)` for a new pair: the certificate
      joins the scene's children and the border joins the links. */
  lemma LinkStep(p0: map<Node, Node>, s: Node, cs: seq<Drawable>, bs: seq<Drawable>, c: Drawable, b: Drawable)
    requires |cs| == |bs| && b.node != c.node && b.node !in Nodes(cs)
    ensures (p0 + Links(cs, bs) + Attach(Nodes(cs), s))[c.node := s][b.node := c.node]
         == p0 + Links(cs + [c], bs + [b]) + Attach(Nodes(cs + [c]), s)
  {
    NodesSnoc(cs, c);
    assert (cs + [c])[..|cs|] == cs && (bs + [b])[..|bs|] == bs;
    assert Links(cs + [c], bs + [b]) == Links(cs, bs)[b.node := c.node];
    var l := (p0 + Links(cs, bs) + Attach(Nodes(cs), s))[c.node := s][b.node := c.node];
    var r := p0 + Links(cs + [c], bs + [b]) + Attach(Nodes(cs + [c]), s);
    assert l.Keys == r.Keys;
    assert forall n :: n in l ==> l[n] == r[n];
  }

  lemma NoLinks(p0: map<Node, Node>, s: Node)
    ensures p0 + Links([], []) + Attach(Nodes([]), s) == p0
  {
    assert p0 + Links([], []) == p0;
    AttachNone(p0, s);
  }

  /** The nodes of the pairs were created in turn from lo: certificate k is
      node lo + 2k and its border node lo + 2k + 1. */
  predicate NumberedFrom(cs: seq<Drawable>, bs: seq<Drawable>, lo: nat)
    requires |cs| == |bs|
  {
    if cs == [] then true
    else
      var n := |cs| - 1;
      && NumberedFrom(cs[..n], bs[..n], lo)
      && cs[n].node == Node(MeshNode, lo + 2 * n)
      && bs[n].node == Node(LineSegmentsNode, lo + 2 * n + 1)
  }

  lemma NumberedFromSnoc(cs: seq<Drawable>, bs: seq<Drawable>, lo: nat, c: Drawable, b: Drawable)
    requires |cs| == |bs| && NumberedFrom(cs, bs, lo)
    requires c.node == Node(MeshNode, lo + 2 * |cs|) && b.node == Node(LineSegmentsNode, lo + 2 * |cs| + 1)
    ensures NumberedFrom(cs + [c], bs + [b], lo)
  {
    assert (cs + [c])[..|cs|] == cs && (bs + [b])[..|bs|] == bs;
  }

  lemma {:induction false} NumberedFromAt(cs: seq<Drawable>, bs: seq<Drawable>, lo: nat, k: int)
    requires |cs| == |bs| && NumberedFrom(cs, bs, lo) && 0 <= k < |cs|
    ensures cs[k].node == Node(MeshNode, lo + 2 * k)
    ensures bs[k].node == Node(LineSegmentsNode, lo + 2 * k + 1)
  {
    var n := |cs| - 1;
    if k < n {
      NumberedFromAt(cs[..n], bs[..n], lo, k);
    }
  }

  /** The certificates' nodes lie in [lo, lo + 2n) and no border is one of
      them. */
  lemma CertificateNodes(cs: seq<Drawable>, bs: seq<Drawable>, lo: nat)
    requires |cs| == |bs| && NumberedFrom(cs, bs, lo)
    ensures forall n :: n in Nodes(cs) ==> lo <= n.id < lo + 2 * |cs|
    ensures forall k :: 0 <= k < |bs| ==> bs[k].node !in Nodes(cs)
  {
    forall j | 0 <= j < |cs|
      ensures cs[j].node == Node(MeshNode, lo + 2 * j) && bs[j].node.kind == LineSegmentsNode
    {
      NumberedFromAt(cs, bs, lo, j);
    }
    forall n | n in Nodes(cs)
      ensures lo <= n.id < lo + 2 * |cs| && n.kind == MeshNode
    {
      InNodes(cs, n);
    }
  }

  /** With the pairs numbered in turn, border k's entry in the links is
      certificate k. */
  lemma {:induction false} LinksAt(cs: seq<Drawable>, bs: seq<Drawable>, lo: nat, k: int)
    requires |cs| == |bs| && NumberedFrom(cs, bs, lo) && 0 <= k < |bs|
    ensures bs[k].node in Links(cs, bs) && Links(cs, bs)[bs[k].node] == cs[k].node
  {
    var n := |bs| - 1;
    if k < n {
      LinksAt(cs[..n], bs[..n], lo, k);
      NumberedFromAt(cs, bs, lo, k);
    }
  }

  /** The freshly created certificate and border extend the parent map by one
      certificate and one link. */
  lemma CertificateStep(parent: map<Node, Node>, next: nat, p0: map<Node, Node>, s: Node,
                        cs: seq<Drawable>, bs: seq<Drawable>, c: Drawable, b: Drawable)
    requires |cs| == |bs| && parent == p0 + Links(cs, bs) + Attach(Nodes(cs), s)
    requires forall n :: n in parent ==> n.id < next
    requires c.node.id == next && b.node.id == next + 1
    ensures parent[c.node := s][b.node := c.node] == p0 + Links(cs + [c], bs + [b]) + Attach(Nodes(cs + [c]), s)
  {
    assert forall n :: n in Nodes(cs) ==> n in parent;
    LinkStep(p0, s, cs, bs, c, b);
  }

  /** A new pair contributes the certificate's two resources, then the
      border's. */
  lemma PairsResources(cs: seq<Drawable>, bs: seq<Drawable>, c: Drawable, b: Drawable)
    requires |cs| == |bs|
    ensures Resources(Pairs(cs + [c], bs + [b]))
         == Resources(Pairs(cs, bs)) + [c.geometry, c.material, b.geometry, b.material]
  {
    PairsSnoc(cs, bs, c, b);
    assert Pairs(cs, bs) + [c, b] == (Pairs(cs, bs) + [c]) + [b];
    ResourcesSnoc(Pairs(cs, bs), c);
    ResourcesSnoc(Pairs(cs, bs) + [c], b);
  }

  /** One iteration of the loop of lines 29-59: a plane `cert` added to the
      scene, then its `EdgesGeometry` border with its own material added to
      the certificate. */
  method AddCertificate(ledger: Ledger, graph: SceneGraph, scene: Node) returns (cert: Drawable, border: Drawable)
    requires ledger.Valid() && graph.Valid() && scene.id < graph.next
    modifies ledger, graph
    ensures ledger.Valid() && graph.Valid()
    ensures cert.node == Node(MeshNode, old(graph.next))
    ensures border.node == Node(LineSegmentsNode, old(graph.next) + 1)
    ensures graph.next == old(graph.next) + 2
    ensures graph.parent == old(graph.parent)[cert.node := scene][border.node := cert.node]
    ensures ledger.created
         == old(ledger.created) + [cert.geometry, cert.material, border.geometry, border.material]
    ensures ledger.disposed == old(ledger.disposed)
  {
    cert := BuildAndAdd(ledger, graph, MeshNode, scene);
    var borderGeometry := ledger.Allocate(Geometry);
    var borderMaterial := ledger.Allocate(Material);
    var node := graph.Create(LineSegmentsNode);
    graph.Add(cert.node, node);
    border := Drawable(node, borderGeometry, borderMaterial);
  }

  /** AddCertificate stated against the state before the loop (parent map p0,
      created resources c0). */
  method AddCertificateInto(ledger: Ledger, graph: SceneGraph, scene: Node, certs: seq<Drawable>,
                            borders: seq<Drawable>, ghost p0: map<Node, Node>, ghost c0: seq<Resource>)
    returns (cert: Drawable, border: Drawable)
    requires ledger.Valid() && graph.Valid() && scene.id < graph.next && |certs| == |borders|
    requires graph.parent == p0 + Links(certs, borders) + Attach(Nodes(certs), scene)
    requires ledger.created == c0 + Resources(Pairs(certs, borders))
    modifies ledger, graph
    ensures ledger.Valid() && graph.Valid()
    ensures cert.node == Node(MeshNode, old(graph.next))
    ensures border.node == Node(LineSegmentsNode, old(graph.next) + 1)
    ensures graph.next == old(graph.next) + 2
    ensures graph.parent == old(graph.parent)[cert.node := scene][border.node := cert.node]
    ensures graph.parent == p0 + Links(certs + [cert], borders + [border]) + Attach(Nodes(certs + [cert]), scene)
    ensures ledger.created == c0 + Resources(Pairs(certs + [cert], borders + [border]))
    ensures ledger.disposed == old(ledger.disposed)
  {
    cert, border := AddCertificate(ledger, graph, scene);
    CertificateStep(old(graph.parent), old(graph.next), p0, scene, certs, borders, cert, border);
    PairsResources(certs, borders, cert, border);
  }

  /** The loop of lines 29-59. */
  method BuildCertificates(ledger: Ledger, graph: SceneGraph, scene: Node)
    returns (certs: seq<Drawable>, borders: seq<Drawable>)
    requires ledger.Valid() && graph.Valid() && scene.id < graph.next
    modifies ledger, graph
    ensures ledger.Valid() && graph.Valid()
    ensures |certs| == CertCount && |borders| == CertCount
    ensures NumberedFrom(certs, borders, old(graph.next))
    ensures graph.next == old(graph.next) + 2 * CertCount
    ensures graph.parent == old(graph.parent) + Links(certs, borders) + Attach(Nodes(certs), scene)
    ensures ledger.created == old(ledger.created) + Resources(Pairs(certs, borders))
    ensures ledger.disposed == old(ledger.disposed)
  {
    certs, borders := [], [];
    NoLinks(graph.parent, scene);
    var i := 0;
    while i < CertCount
      modifies ledger, graph
      invariant 0 <= i <= CertCount && |certs| == i && |borders| == i
      invariant ledger.Valid() && graph.Valid()
      invariant NumberedFrom(certs, borders, old(graph.next))
      invariant graph.next == old(graph.next) + 2 * i
      invariant graph.parent == old(graph.parent) + Links(certs, borders) + Attach(Nodes(certs), scene)
      invariant ledger.created == old(ledger.created) + Resources(Pairs(certs, borders))
      invariant ledger.disposed == old(ledger.disposed)
    {
      var cert, border := AddCertificateInto(ledger, graph, scene, certs, borders, old(graph.parent), old(ledger.created));
      NumberedFromSnoc(certs, borders, old(graph.next), cert, border);
      certs, borders := certs + [cert], borders + [border];
      i := i + 1;
    }
  }

  /** What the effect keeps for its cleanup closure. */
  datatype Mounted = Mounted(scene: Node, canvas: nat, handler: nat, certs: seq<Drawable>, borders: seq<Drawable>,
                             particles: Drawable, posArray: array<real>, lights: Lights)

  /** Lines 25-91: the certificates with their borders, the particles and the
      two lights. */
  method BuildContents(ledger: Ledger, graph: SceneGraph, scene: Node, draws: seq<real>)
    returns (certs: seq<Drawable>, borders: seq<Drawable>, particles: Drawable, posArray: array<real>,
             lights: Lights)
    requires ledger.Valid() && graph.Valid() && scene.id < graph.next
    requires |draws| == 3 * ParticlesCount && Draws(draws)
    modifies ledger, graph
    ensures ledger.Valid() && graph.Valid()
    ensures |certs| == CertCount && |borders| == CertCount
    ensures NumberedFrom(certs, borders, old(graph.next))
    ensures particles.node == Node(PointsNode, old(graph.next) + 10)
    ensures lights == Lights(Node(LightNode, old(graph.next) + 11), Node(LightNode, old(graph.next) + 12))
    ensures graph.parent == old(graph.parent) + Links(certs, borders) +
      Attach(Nodes(certs) + {particles.node} + {lights.ambient, lights.point}, scene)
    ensures fresh(posArray) && posArray.Length == 3 * ParticlesCount
    ensures forall s :: 0 <= s < 3 * ParticlesCount ==> posArray[s] == Centered(draws[s], Coord(Spread, s % 3))
    ensures ledger.created == old(ledger.created) + Resources(Pairs(certs, borders) + [particles])
    ensures ledger.disposed == old(ledger.disposed)
  {
    certs, borders := BuildCertificates(ledger, graph, scene);
    particles, posArray := BuildParticles(ledger, graph, scene, draws, Spread);
    lights := AddLights(graph, scene);
    AttachThreeMore(old(graph.parent) + Links(certs, borders), Nodes(certs), scene,
                    particles.node, lights.ambient, lights.point);
    CreatedSnoc(old(ledger.created), Pairs(certs, borders), particles);
  }

  /** The scene graph and ledger right after a mount of `a` on top of the
      parent map `p0` with next id `n0` and created resources `c0`: the scene
      takes id n0, the certificate/border pairs n0+1..n0+10, the particles
      n0+11 and the lights n0+12 and n0+13. */
  ghost predicate Placed(a: Mounted, parent: map<Node, Node>, created: seq<Resource>,
                         p0: map<Node, Node>, n0: nat, c0: seq<Resource>)
  {
    && a.scene.id == n0
    && |a.certs| == CertCount && |a.borders| == CertCount
    && NumberedFrom(a.certs, a.borders, n0 + 1)
    && a.particles.node == Node(PointsNode, n0 + 11)
    && a.lights == Lights(Node(LightNode, n0 + 12), Node(LightNode, n0 + 13))
    && parent == p0 + Links(a.certs, a.borders) +
         Attach(Nodes(a.certs) + {a.particles.node} + {a.lights.ambient, a.lights.point}, a.scene)
    && created == c0 + Resources(Pairs(a.certs, a.borders) + [a.particles])
  }

  /** The effect body: return at once without a container; otherwise the scene
      and renderer, the certificates with their borders, the particles, the two
      lights and the resize handler. */
  method Mount(ledger: Ledger, graph: SceneGraph, page: Page, draws: seq<real>) returns (m: Option<Mounted>)
    requires ledger.Valid() && graph.Valid() && page.Valid()
    requires |draws| == 3 * ParticlesCount && Draws(draws)
    modifies ledger, graph, page
    ensures ledger.Valid() && graph.Valid() && page.Valid()
    ensures m.Some? <==> old(page.container)
    ensures m.None? ==> ledger.created == old(ledger.created) && ledger.disposed == old(ledger.disposed)
    ensures m.None? ==> graph.parent == old(graph.parent) && page.canvases == old(page.canvases)
    ensures m.None? ==> page.listeners == old(page.listeners)
    ensures m.Some? ==>
      var a := m.value;
      && Placed(a, graph.parent, ledger.created, old(graph.parent), old(graph.next), old(ledger.created))
      && fresh(a.posArray) && a.posArray.Length == 3 * ParticlesCount
      && (forall s :: 0 <= s < 3 * ParticlesCount ==> a.posArray[s] == Centered(draws[s], Coord(Spread, s % 3)))
      && ledger.disposed == old(ledger.disposed)
      && a.canvas !in old(page.canvases) && page.canvases == old(page.canvases) + {a.canvas}
      && a.handler !in old(page.listeners) && page.listeners == old(page.listeners) + {a.handler}
      && page.container
  {
    if !page.container {
      return None;
    }
    var scene, canvas := Begin(graph, page);
    var certs, borders, particles, posArray, lights := BuildContents(ledger, graph, scene, draws);
    var handler := ListenResize(page);
    m := Some(Mounted(scene, canvas, handler, certs, borders, particles, posArray, lights));
  }

  /** The cleanup closure of lines 127-144: each certificate is removed from the
      scene and its geometry and material disposed, then the particles; the
      borders are neither removed from their certificates nor disposed. */
  method Cleanup(ledger: Ledger, graph: SceneGraph, page: Page, a: Mounted)
    requires graph.Valid() && page.Valid()
    requires page.container ==> a.canvas in page.canvases
    modifies ledger, graph, page
    ensures graph.Valid() && page.Valid()
    ensures page.listeners == old(page.listeners) - {a.handler}
    ensures page.canvases == if old(page.container) then old(page.canvases) - {a.canvas} else old(page.canvases)
    ensures page.container == old(page.container)
    ensures graph.parent == Detach(old(graph.parent), a.scene, Nodes(a.certs) + {a.particles.node})
    ensures ledger.created == old(ledger.created)
    ensures ledger.disposed == old(ledger.disposed) + multiset(Resources(a.certs + [a.particles]))
  {
    End(page, a.canvas, a.handler);
    DisposeAll(ledger, graph, a.scene, a.certs);
    DetachOneMore(old(graph.parent), a.scene, Nodes(a.certs), a.particles.node);
    DisposeOne(ledger, graph, a.scene, a.particles);
    ResourcesSnoc(a.certs, a.particles);
  }

  /** After the cleanup detaches the certificates and the particles from a
      scene created after every node of p0, only the two lights are left as
      the scene's children, while every border still hangs from its removed
      certificate. */
  lemma AfterCleanup(p0: map<Node, Node>, n0: nat, scene: Node, certs: seq<Drawable>, borders: seq<Drawable>,
                     particles: Node, lights: Lights, attached: map<Node, Node>, after: map<Node, Node>)
    requires forall n :: n in p0 ==> p0[n].id < n0
    requires |certs| == |borders| && scene.id == n0 && NumberedFrom(certs, borders, n0 + 1)
    requires particles.id == n0 + 1 + 2 * |certs|
    requires lights.ambient.id == particles.id + 1 && lights.point.id == particles.id + 2
    requires attached == p0 + Links(certs, borders) +
      Attach(Nodes(certs) + {particles} + {lights.ambient, lights.point}, scene)
    requires after == Detach(attached, scene, Nodes(certs) + {particles})
    ensures ChildrenOf(after, scene) == {lights.ambient, lights.point}
    ensures forall k :: 0 <= k < |borders| ==> borders[k].node in after && after[borders[k].node] == certs[k].node
  {
    CertificateNodes(certs, borders, n0 + 1);
    OnlyLightsRemain(p0, n0, scene, certs, borders, particles, lights, attached, after);
    forall k | 0 <= k < |borders|
      ensures borders[k].node in after && after[borders[k].node] == certs[k].node
    {
      LinksAt(certs, borders, n0 + 1, k);
      NumberedFromAt(certs, borders, n0 + 1, k);
    }
  }

  lemma OnlyLightsRemain(p0: map<Node, Node>, n0: nat, scene: Node, certs: seq<Drawable>, borders: seq<Drawable>,
                         particles: Node, lights: Lights, attached: map<Node, Node>, after: map<Node, Node>)
    requires forall n :: n in p0 ==> p0[n].id < n0
    requires |certs| == |borders| && scene.id == n0
    requires forall n :: n in Nodes(certs) ==> n0 + 1 <= n.id < n0 + 1 + 2 * |certs|
    requires particles.id == n0 + 1 + 2 * |certs|
    requires lights.ambient.id == particles.id + 1 && lights.point.id == particles.id + 2
    requires attached == p0 + Links(certs, borders) +
      Attach(Nodes(certs) + {particles} + {lights.ambient, lights.point}, scene)
    requires after == Detach(attached, scene, Nodes(certs) + {particles})
    ensures ChildrenOf(after, scene) == {lights.ambient, lights.point}
  {
    LinksIntoCertificates(certs, borders);
    var linked := p0 + Links(certs, borders);
    assert forall n :: n in linked ==> linked[n] != scene;
    DetachAfterAttach(linked, scene, Nodes(certs) + {particles}, {lights.ambient, lights.point});
  }

  /** The cleanup of a mounted scene, with the container present or gone:
      stated against the state before the mount (parent map p0 whose ids are
      all below n0, canvases c0, listeners l0). */
  method Unmount(ledger: Ledger, graph: SceneGraph, page: Page, a: Mounted, presentAtCleanup: bool,
                 ghost p0: map<Node, Node>, ghost n0: nat, ghost c0: set<nat>, ghost l0: set<nat>)
    requires graph.Valid() && page.Valid() && page.container
    requires forall n :: n in p0 ==> p0[n].id < n0
    requires ledger.Valid() && Placed(a, graph.parent, ledger.created, p0, n0, [])
    requires ledger.disposed == multiset{}
    requires a.canvas !in c0 && page.canvases == c0 + {a.canvas}
    requires a.handler !in l0 && page.listeners == l0 + {a.handler}
    modifies ledger, graph, page
    ensures ledger.created == old(ledger.created)
    ensures ledger.disposed == multiset(Resources(a.certs + [a.particles]))
    ensures Leaking(ledger.created, ledger.disposed)
    ensures multiset(ledger.created) == ledger.disposed + multiset(Resources(a.borders))
    ensures forall r :: r in Resources(a.borders) ==> r in ledger.created && ledger.disposed[r] == 0
    ensures page.listeners == l0
    ensures graph.Children(a.scene) == {a.lights.ambient, a.lights.point}
    ensures forall k :: 0 <= k < CertCount ==>
      a.borders[k].node in graph.parent && graph.parent[a.borders[k].node] == a.certs[k].node
    ensures page.canvases == if presentAtCleanup then c0 else c0 + {a.canvas}
  {
    ghost var attached := graph.parent;
    page.SetContainer(presentAtCleanup);
    Cleanup(ledger, graph, page, a);
    AddThenRemove(l0, a.handler);
    AddThenRemove(c0, a.canvas);
    AfterCleanup(p0, n0, a.scene, a.certs, a.borders, a.particles.node, a.lights, attached, graph.parent);
    BordersLeak(ledger.created, ledger.disposed, a.certs, a.borders, a.particles);
  }

  /** The resources the cleanup leaves undisposed are exactly the borders':
      all the pairs and the particles were created, and the certificates and
      the particles were disposed. */
  lemma BordersLeftOver(certs: seq<Drawable>, borders: seq<Drawable>, particles: Drawable)
    requires |certs| == |borders|
    ensures multiset(Resources(Pairs(certs, borders) + [particles]))
         == multiset(Resources(certs + [particles])) + multiset(Resources(borders))
  {
    ResourcesSnoc(Pairs(certs, borders), particles);
    ResourcesSnoc(certs, particles);
    ResourceBagIsResources(Pairs(certs, borders));
    ResourceBagIsResources(certs);
    ResourceBagIsResources(borders);
    PairsBag(certs, borders);
  }

  /** The teardown of one mount leaves exactly the borders' ten resources
      undisposed, so the ledger leaks. */
  lemma BordersLeak(created: seq<Resource>, disposed: multiset<Resource>,
                    certs: seq<Drawable>, borders: seq<Drawable>, particles: Drawable)
    requires |certs| == |borders| == CertCount
    requires Numbered(created) && created == Resources(Pairs(certs, borders) + [particles])
    requires disposed == multiset(Resources(certs + [particles]))
    ensures multiset(created) == disposed + multiset(Resources(borders))
    ensures Leaking(created, disposed)
    ensures forall r :: r in Resources(borders) ==> r in created && disposed[r] == 0
  {
    BordersLeftOver(certs, borders, particles);
    assert |multiset(Resources(borders))| == 2 * CertCount;
    LeftOverLeaks(created, disposed, multiset(Resources(borders)));
  }

  /** One mount followed by its cleanup, with the container present or gone at
      cleanup time. Nothing is disposed twice or without having been created,
      but the ten resources of the five borders are never disposed, and the
      borders stay attached to the removed certificates. */
  method Lifecycle(ledger: Ledger, graph: SceneGraph, page: Page, draws: seq<real>, presentAtCleanup: bool)
    returns (m: Option<Mounted>)
    requires ledger.Valid() && graph.Valid() && page.Valid()
    requires ledger.created == [] && ledger.disposed == multiset{}
    requires |draws| == 3 * ParticlesCount && Draws(draws)
    modifies ledger, graph, page
    ensures ledger.Valid()
    ensures m.None? <==> !old(page.container)
    ensures m.None? ==> ledger.created == [] && ledger.disposed == multiset{}
    ensures m.Some? ==> |m.value.certs| == CertCount && |m.value.borders| == CertCount
    ensures m.Some? ==> Leaking(ledger.created, ledger.disposed)
    ensures m.Some? ==> multiset(ledger.created) == ledger.disposed + multiset(Resources(m.value.borders))
    ensures m.Some? ==> forall r :: r in Resources(m.value.borders) ==> r in ledger.created && ledger.disposed[r] == 0
    ensures m.Some? ==> forall k :: 0 <= k < CertCount ==>
      m.value.borders[k].node in graph.parent && graph.parent[m.value.borders[k].node] == m.value.certs[k].node
    ensures page.listeners == old(page.listeners)
    ensures m.Some? ==> graph.Children(m.value.scene) == {m.value.lights.ambient, m.value.lights.point}
    ensures m.Some? ==>
      page.canvases == if presentAtCleanup then old(page.canvases) else old(page.canvases) + {m.value.canvas}
  {
    ghost var p0, n0, c0, l0 := graph.parent, graph.next, page.canvases, page.listeners;
    m := Mount(ledger, graph, page, draws);
    if m.None? {
      return;
    }
    var a := m.value;
    Unmount(ledger, graph, page, a, presentAtCleanup, p0, n0, c0, l0);
  }

  /** One mount followed by the cleanup as evidently intended: the closure
      as written, then `b.geometry.dispose(); b.material.dispose()` for the
      border of every certificate. Every geometry and material created, the
      borders' included, is disposed exactly once, and the scene keeps only
      its lights. */
  method CorrectedLifecycle(ledger: Ledger, graph: SceneGraph, page: Page, draws: seq<real>, presentAtCleanup: bool)
    returns (m: Option<Mounted>)
    requires ledger.Valid() && graph.Valid() && page.Valid()
    requires ledger.created == [] && ledger.disposed == multiset{}
    requires |draws| == 3 * ParticlesCount && Draws(draws)
    modifies ledger, graph, page
    ensures m.None? <==> !old(page.container)
    ensures m.None? ==> ledger.created == []
    ensures Balanced(ledger.created, ledger.disposed)
    ensures forall r :: r in ledger.created ==> ledger.disposed[r] == 1
    ensures page.listeners == old(page.listeners)
    ensures m.Some? ==> graph.Children(m.value.scene) == {m.value.lights.ambient, m.value.lights.point}
    ensures m.Some? ==>
      page.canvases == if presentAtCleanup then old(page.canvases) else old(page.canvases) + {m.value.canvas}
  {
    m := Lifecycle(ledger, graph, page, draws, presentAtCleanup);
    if m.Some? {
      DisposeEach(ledger, m.value.borders);
    }
    BalancedIsExactlyOnce(ledger.created, ledger.disposed);
  }
}
