/** The slice of the three.js object model that the scene components rely on:
    geometries and materials as opaque resources with allocate/dispose, and
    scene-graph objects with a single parent each. */
module Three {

  datatype Kind = Geometry | Material

  /** A geometry or material, identified by its position in the allocation order. */
  datatype Resource = Resource(kind: Kind, id: nat)

  datatype NodeKind = SceneRoot | MeshNode | PointsNode | LineSegmentsNode | LineNode | LightNode

  /** A scene-graph object (a Scene, Mesh, Points, Line, LineSegments or light). */
  datatype Node = Node(kind: NodeKind, id: nat)

  /** A drawable object together with the geometry and material it was built from. */
  datatype Drawable = Drawable(node: Node, geometry: Resource, material: Resource)

  /** The resources of a sequence of drawables in the order they were built:
      geometry, then material, drawable by drawable. */
  function Resources(ds: seq<Drawable>): (rs: seq<Resource>)
    ensures |rs| == 2 * |ds|
  {
    if ds == [] then []
    else Resources(ds[..|ds| - 1]) + [ds[|ds| - 1].geometry, ds[|ds| - 1].material]
  }

  lemma ResourcesSnoc(ds: seq<Drawable>, d: Drawable)
    ensures Resources(ds + [d]) == Resources(ds) + [d.geometry, d.material]
  {
    assert (ds + [d])[..|ds|] == ds;
  }

  /** A ledger that has recorded ds records ds + [d] once d's geometry and
      material follow. */
  lemma CreatedSnoc(c0: seq<Resource>, ds: seq<Drawable>, d: Drawable)
    ensures c0 + Resources(ds) + [d.geometry, d.material] == c0 + Resources(ds + [d])
  {
    ResourcesSnoc(ds, d);
  }

  /** The resources of ds as a multiset, drawable by drawable. */
  function ResourceBag(ds: seq<Drawable>): multiset<Resource>
  {
    if ds == [] then multiset{}
    else ResourceBag(ds[..|ds| - 1]) + multiset{ds[|ds| - 1].geometry, ds[|ds| - 1].material}
  }

  lemma ResourceBagPrefixStep(ds: seq<Drawable>, i: nat)
    requires i < |ds|
    ensures ResourceBag(ds[..i + 1]) == ResourceBag(ds[..i]) + multiset{ds[i].geometry, ds[i].material}
  {
    assert ds[..i + 1][..i] == ds[..i];
  }

  lemma ResourceBagSnoc(ds: seq<Drawable>, d: Drawable)
    ensures ResourceBag(ds + [d]) == ResourceBag(ds) + multiset{d.geometry, d.material}
  {
    assert (ds + [d])[..|ds|] == ds;
  }

  lemma {:induction false} ResourceBagIsResources(ds: seq<Drawable>)
    ensures ResourceBag(ds) == multiset(Resources(ds))
  {
    if ds != [] {
      ResourceBagIsResources(ds[..|ds| - 1]);
    }
  }

  /** Every resource of the drawables, counted once per drawable that uses it. */
  lemma {:induction false} ResourcesAppend(xs: seq<Drawable>, ys: seq<Drawable>)
    ensures Resources(xs + ys) == Resources(xs) + Resources(ys)
    decreases |ys|
  {
    if ys == [] {
      assert xs + ys == xs;
    } else {
      var init, last := ys[..|ys| - 1], ys[|ys| - 1];
      assert ys == init + [last];
      assert xs + ys == (xs + init) + [last];
      ResourcesAppend(xs, init);
      ResourcesSnoc(xs + init, last);
      ResourcesSnoc(init, last);
    }
  }

  /** Regrouping two bags that grew in step. */
  lemma Shuffle<T>(a: multiset<T>, c: multiset<T>, b: multiset<T>, x: multiset<T>, y: multiset<T>)
    requires a == c + b
    ensures a + x + y == (c + x) + (b + y)
  {
  }

  /** The objects of a sequence of drawables. */
  function Nodes(ds: seq<Drawable>): set<Node>
  {
    if ds == [] then {} else Nodes(ds[..|ds| - 1]) + {ds[|ds| - 1].node}
  }

  lemma NodesSnoc(ds: seq<Drawable>, d: Drawable)
    ensures Nodes(ds + [d]) == Nodes(ds) + {d.node}
  {
    assert (ds + [d])[..|ds|] == ds;
  }

  lemma {:induction false} InNodes(ds: seq<Drawable>, n: Node)
    ensures n in Nodes(ds) <==> exists k :: 0 <= k < |ds| && ds[k].node == n
  {
    if ds != [] {
      var init := ds[..|ds| - 1];
      InNodes(init, n);
      if n in Nodes(init) {
        var k :| 0 <= k < |init| && init[k].node == n;
        assert ds[k].node == n;
      }
      if exists k :: 0 <= k < |ds| && ds[k].node == n {
        var k :| 0 <= k < |ds| && ds[k].node == n;
        if k < |init| {
          assert init[k].node == n;
        }
      }
    }
  }

  predicate Distinct<T(==)>(s: seq<T>)
  {
    forall i, j :: 0 <= i < j < |s| ==> s[i] != s[j]
  }

  /** Each resource's id is its position in the sequence (the ledger's numbering). */
  predicate Numbered(s: seq<Resource>)
  {
    forall k :: 0 <= k < |s| ==> s[k].id == k
  }

  /** Disposals match allocations one for one. */
  predicate Balanced(created: seq<Resource>, disposed: multiset<Resource>)
  {
    disposed == multiset(created)
  }

  /** Nothing is disposed that was not created (nor more often), and some
      allocation is never disposed. */
  predicate Leaking(created: seq<Resource>, disposed: multiset<Resource>)
  {
    disposed < multiset(created)
  }

  lemma NumberedDistinct(s: seq<Resource>)
    requires Numbered(s)
    ensures Distinct(s)
  {
  }

  /** In a sequence without repetitions every element occurs exactly once. */
  lemma {:induction false} DistinctOccursOnce<T>(s: seq<T>, x: T)
    requires Distinct(s)
    ensures multiset(s)[x] == if x in s then 1 else 0
  {
    if s != [] {
      var init, last := s[..|s| - 1], s[|s| - 1];
      assert s == init + [last];
      assert Distinct(init);
      DistinctOccursOnce(init, x);
      assert x in s <==> x in init || x == last;
    }
  }

  /** With a numbered ledger, a balanced teardown disposes every created
      resource exactly once and disposes nothing else. */
  lemma BalancedIsExactlyOnce(created: seq<Resource>, disposed: multiset<Resource>)
    requires Numbered(created) && Balanced(created, disposed)
    ensures forall r :: r in created ==> disposed[r] == 1
    ensures forall r :: r in disposed ==> r in created
  {
    NumberedDistinct(created);
    forall r | r in created
      ensures disposed[r] == 1
    {
      DistinctOccursOnce(created, r);
    }
  }

  /** With a numbered ledger, a teardown that leaves exactly `left` undisposed
      leaks: each resource of `left` was created once and never disposed. */
  lemma LeftOverLeaks(created: seq<Resource>, disposed: multiset<Resource>, left: multiset<Resource>)
    requires Numbered(created) && multiset(created) == disposed + left && left != multiset{}
    ensures Leaking(created, disposed)
    ensures forall r :: r in left ==> r in created && disposed[r] == 0
  {
    NumberedDistinct(created);
    forall r | r in left
      ensures r in created && disposed[r] == 0
    {
      assert r in multiset(created);
      DistinctOccursOnce(created, r);
    }
  }

  /** The GPU-side resources of one mounted scene: every geometry and material
      constructed, in order, and every dispose() call made on one. */
  class Ledger {
    var created: seq<Resource>
    var disposed: multiset<Resource>

    ghost predicate Valid()
      reads this
    {
      Numbered(created)
    }

    constructor ()
      ensures Valid() && created == [] && disposed == multiset{}
    {
      created := [];
      disposed := multiset{};
    }

    /** `new THREE.XxxGeometry(...)` or `new THREE.XxxMaterial(...)`. */
    method Allocate(kind: Kind) returns (r: Resource)
      requires Valid()
      modifies this
      ensures Valid()
      ensures r == Resource(kind, |old(created)|) && r !in old(created)
      ensures created == old(created) + [r] && disposed == old(disposed)
    {
      r := Resource(kind, |created|);
      created := created + [r];
    }

    /** `resource.dispose()`; disposing twice is recorded twice. */
    method Dispose(r: Resource)
      modifies this
      ensures created == old(created) && disposed == old(disposed) + multiset{r}
    {
      disposed := disposed + multiset{r};
    }
  }

  /** `map n | n in ns :: p`: every node of ns attached to p. */
  function Attach(ns: set<Node>, p: Node): (m: map<Node, Node>)
    ensures m.Keys == ns
    ensures forall n :: n in ns ==> m[n] == p
  {
    map n | n in ns :: p
  }

  /** The parent map after removing from p every node of ns that is p's child;
      the others stay where they are. */
  function Detach(parent: map<Node, Node>, p: Node, ns: set<Node>): map<Node, Node>
  {
    map n | n in parent && !(n in ns && parent[n] == p) :: parent[n]
  }

  /** Removing one more node from p is detaching it along with the others. */
  lemma DetachOneMore(parent: map<Node, Node>, p: Node, ns: set<Node>, x: Node)
    ensures var cur := Detach(parent, p, ns);
      (if x in cur && cur[x] == p then cur - {x} else cur) == Detach(parent, p, ns + {x})
  {
    var cur := Detach(parent, p, ns);
    var after := if x in cur && cur[x] == p then cur - {x} else cur;
    var want := Detach(parent, p, ns + {x});
    assert after.Keys == want.Keys;
    assert forall n :: n in after ==> after[n] == want[n];
  }

  lemma NodesPrefixStep(ds: seq<Drawable>, i: nat)
    requires i < |ds|
    ensures Nodes(ds[..i + 1]) == Nodes(ds[..i]) + {ds[i].node}
  {
    assert ds[..i + 1] == ds[..i] + [ds[i]];
  }

  lemma AttachNone(p0: map<Node, Node>, s: Node)
    ensures p0 + Attach({}, s) == p0
  {
    assert (p0 + Attach({}, s)).Keys == p0.Keys;
  }

  lemma DetachNone(parent: map<Node, Node>, p: Node)
    ensures Detach(parent, p, {}) == parent
  {
    assert Detach(parent, p, {}).Keys == parent.Keys;
  }

  lemma AttachOneMore(p0: map<Node, Node>, ns: set<Node>, s: Node, x: Node)
    ensures (p0 + Attach(ns, s))[x := s] == p0 + Attach(ns + {x}, s)
  {
    var l, r := (p0 + Attach(ns, s))[x := s], p0 + Attach(ns + {x}, s);
    assert l.Keys == r.Keys;
    assert forall n :: n in l ==> l[n] == r[n];
  }

  lemma AttachTwoMore(p0: map<Node, Node>, ns: set<Node>, s: Node, a: Node, b: Node)
    ensures (p0 + Attach(ns, s))[a := s][b := s] == p0 + Attach(ns + {a, b}, s)
  {
    AttachOneMore(p0, ns, s, a);
    AttachOneMore(p0, ns + {a}, s, b);
    assert ns + {a} + {b} == ns + {a, b};
  }

  lemma AttachThreeMore(p0: map<Node, Node>, ns: set<Node>, s: Node, x: Node, a: Node, b: Node)
    ensures (p0 + Attach(ns, s))[x := s][a := s][b := s] == p0 + Attach(ns + {x} + {a, b}, s)
  {
    AttachOneMore(p0, ns, s, x);
    AttachTwoMore(p0, ns + {x}, s, a, b);
  }

  lemma AttachFour(p0: map<Node, Node>, s: Node, w: Node, x: Node, y: Node, z: Node)
    ensures p0[w := s][x := s][y := s][z := s] == p0 + Attach({w, x, y, z}, s)
  {
    var l, r := p0[w := s][x := s][y := s][z := s], p0 + Attach({w, x, y, z}, s);
    assert l.Keys == r.Keys;
    assert forall n :: n in l ==> l[n] == r[n];
  }

  lemma AttachFive(p0: map<Node, Node>, s: Node, v: Node, w: Node, x: Node, y: Node, z: Node)
    ensures p0[v := s][w := s][x := s][y := s][z := s] == p0 + Attach({v, w, x, y, z}, s)
  {
    var l, r := p0[v := s][w := s][x := s][y := s][z := s], p0 + Attach({v, w, x, y, z}, s);
    assert l.Keys == r.Keys;
    assert forall n :: n in l ==> l[n] == r[n];
  }

  /** The children of p under the parent map. */
  function ChildrenOf(parent: map<Node, Node>, p: Node): (cs: set<Node>)
    ensures forall n :: n in cs <==> n in parent && parent[n] == p
  {
    set n | n in parent && parent[n] == p
  }

  /** Detaching ns from p takes exactly ns out of p's children. */
  lemma ChildrenAfterDetach(parent: map<Node, Node>, p: Node, ns: set<Node>)
    ensures ChildrenOf(Detach(parent, p, ns), p) == ChildrenOf(parent, p) - ns
  {
  }

  /** Detaching from a fresh parent s the nodes ns that were attached to it
      together with rest leaves exactly rest as its children. */
  lemma DetachAfterAttach(p0: map<Node, Node>, s: Node, ns: set<Node>, rest: set<Node>)
    requires forall n :: n in p0 ==> p0[n] != s
    requires ns !! rest
    ensures ChildrenOf(Detach(p0 + Attach(ns + rest, s), s, ns), s) == rest
  {
    var m := Detach(p0 + Attach(ns + rest, s), s, ns);
    assert forall n :: (n in m && m[n] == s) <==> n in rest;
  }

  /** The scene graph shared by the objects of one scene: who is whose child.
      Every object has at most one parent, as in three.js. */
  class SceneGraph {
    var next: nat
    var parent: map<Node, Node>

    ghost predicate Valid()
      reads this
    {
      forall n :: n in parent ==> n.id < next && parent[n].id < next
    }

    constructor ()
      ensures Valid() && next == 0 && parent == map[]
    {
      next := 0;
      parent := map[];
    }

    /** `p.children`. */
    function Children(p: Node): (cs: set<Node>)
      reads this
      ensures forall n :: n in cs <==> n in parent && parent[n] == p
    {
      ChildrenOf(parent, p)
    }

    /** `new THREE.Scene()`, `new THREE.Mesh(...)`, `new THREE.PointLight(...)`, ...:
        a fresh object with no parent. */
    method Create(kind: NodeKind) returns (n: Node)
      requires Valid()
      modifies this
      ensures Valid()
      ensures n == Node(kind, old(next)) && n !in parent
      ensures next == old(next) + 1 && parent == old(parent)
    {
      n := Node(kind, next);
      next := next + 1;
    }

    /** `p.add(c)`: c leaves its former parent, if any, and becomes a child of p. */
    method Add(p: Node, c: Node)
      requires Valid() && p.id < next && c.id < next
      modifies this
      ensures Valid()
      ensures next == old(next) && parent == old(parent)[c := p]
    {
      parent := parent[c := p];
    }

    /** `p.remove(c)`: detaches c if it is a child of p; otherwise nothing happens. */
    method Remove(p: Node, c: Node)
      requires Valid()
      modifies this
      ensures Valid()
      ensures next == old(next)
      ensures parent == if c in old(parent) && old(parent)[c] == p then old(parent) - {c} else old(parent)
    {
      if c in parent && parent[c] == p {
        parent := parent - {c};
      }
    }
  }
}
