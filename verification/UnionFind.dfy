/** Undirected graphs given by their links, and the disjoint-set forest that
    tracks their connected components. */
module UnionFind {

  type Id = int
  type Links = set<(Id, Id)>

  // ------------------------------------------------------------------
  // Connectivity
  // ------------------------------------------------------------------

  predicate Linked(links: Links, a: Id, b: Id) {
    (a, b) in links || (b, a) in links
  }

  predicate Path(links: Links, p: seq<Id>) {
    |p| > 0 && forall k :: 0 <= k < |p| - 1 ==> Linked(links, p[k], p[k + 1])
  }

  ghost predicate Joins(links: Links, p: seq<Id>, a: Id, b: Id) {
    Path(links, p) && p[0] == a && p[|p| - 1] == b
  }

  ghost predicate Connected(links: Links, a: Id, b: Id) {
    exists p :: Joins(links, p, a, b)
  }

  lemma ConnectedToItself(links: Links, a: Id)
    ensures Connected(links, a, a)
  {
    assert Joins(links, [a], a, a);
  }

  lemma LinkConnects(links: Links, a: Id, b: Id)
    requires Linked(links, a, b)
    ensures Connected(links, a, b)
  {
    assert Joins(links, [a, b], a, b);
  }

  lemma ConnectedBothWays(links: Links, a: Id, b: Id)
    requires Connected(links, a, b)
    ensures Connected(links, b, a)
  {
    var p :| Joins(links, p, a, b);
    var q := seq(|p|, k requires 0 <= k < |p| => p[|p| - 1 - k]);
    assert Joins(links, q, b, a) by {
      forall k | 0 <= k < |q| - 1
        ensures Linked(links, q[k], q[k + 1])
      {
        assert Linked(links, p[|p| - 2 - k], p[|p| - 2 - k + 1]);
      }
    }
  }

  lemma ConnectedThrough(links: Links, a: Id, b: Id, c: Id)
    requires Connected(links, a, b) && Connected(links, b, c)
    ensures Connected(links, a, c)
  {
    var p :| Joins(links, p, a, b);
    var q :| Joins(links, q, b, c);
    var r := p + q[1..];
    assert Joins(links, r, a, c) by {
      forall k | 0 <= k < |r| - 1
        ensures Linked(links, r[k], r[k + 1])
      {
        if k >= |p| - 1 {
          assert Linked(links, q[k - (|p| - 1)], q[k - (|p| - 1) + 1]);
        }
      }
    }
  }

  lemma ConnectedInMore(links: Links, more: Links, a: Id, b: Id)
    requires links <= more && Connected(links, a, b)
    ensures Connected(more, a, b)
  {
    var p :| Joins(links, p, a, b);
    assert Joins(more, p, a, b);
  }

  /** What a new link between u and v connects. */
  ghost predicate Bridged(links: Links, u: Id, v: Id, a: Id, b: Id) {
    || Connected(links, a, b)
    || (Connected(links, a, u) && Connected(links, v, b))
    || (Connected(links, a, v) && Connected(links, u, b))
  }

  lemma OneMoreLink(links: Links, u: Id, v: Id, a: Id, b: Id)
    ensures Connected(links + {(u, v)}, a, b) <==> Bridged(links, u, v, a, b)
  {
    var more := links + {(u, v)};
    if Connected(more, a, b) {
      var p :| Joins(more, p, a, b);
      PathIsBridged(links, u, v, p);
    }
    if Bridged(links, u, v, a, b) {
      LinkConnects(more, u, v);
      LinkConnects(more, v, u);
      if Connected(links, a, b) {
        ConnectedInMore(links, more, a, b);
      } else if Connected(links, a, u) && Connected(links, v, b) {
        Across(links, more, a, u, v, b);
      } else {
        Across(links, more, a, v, u, b);
      }
    }
  }

  lemma Across(links: Links, more: Links, a: Id, x: Id, y: Id, b: Id)
    requires links <= more && Connected(links, a, x) && Connected(more, x, y) && Connected(links, y, b)
    ensures Connected(more, a, b)
  {
    ConnectedInMore(links, more, a, x);
    ConnectedInMore(links, more, y, b);
    ConnectedThrough(more, a, x, y);
    ConnectedThrough(more, a, y, b);
  }

  lemma {:induction false} PathIsBridged(links: Links, u: Id, v: Id, p: seq<Id>)
    requires Path(links + {(u, v)}, p)
    ensures Bridged(links, u, v, p[0], p[|p| - 1])
    decreases |p|
  {
    if |p| == 1 {
      ConnectedToItself(links, p[0]);
    } else {
      var b := p[|p| - 1];
      var rest := p[1..];
      assert Path(links + {(u, v)}, rest) by {
        forall k | 0 <= k < |rest| - 1
          ensures Linked(links + {(u, v)}, rest[k], rest[k + 1])
        {
          assert Linked(links + {(u, v)}, p[k + 1], p[k + 1 + 1]);
        }
      }
      PathIsBridged(links, u, v, rest);
      assert Linked(links + {(u, v)}, p[0], p[0 + 1]);
      FirstStep(links, u, v, p[0], p[1], b);
    }
  }

  lemma FirstStep(links: Links, u: Id, v: Id, a: Id, x: Id, b: Id)
    requires Linked(links + {(u, v)}, a, x) && Bridged(links, u, v, x, b)
    ensures Bridged(links, u, v, a, b)
  {
    ConnectedToItself(links, u);
    ConnectedToItself(links, v);
    if Linked(links, a, x) {
      LinkConnects(links, a, x);
      forall y | Connected(links, x, y)
        ensures Connected(links, a, y)
      {
        ConnectedThrough(links, a, x, y);
      }
    }
  }

  lemma {:induction false} NoLinks(p: seq<Id>)
    requires Path({}, p)
    ensures p[0] == p[|p| - 1]
  {
    assert |p| > 1 ==> Linked({}, p[0], p[0 + 1]);
  }

  lemma ConnectedByNothing(a: Id, b: Id)
    ensures Connected({}, a, b) <==> a == b
  {
    ConnectedToItself({}, a);
    if Connected({}, a, b) {
      var p :| Joins({}, p, a, b);
      NoLinks(p);
    }
  }

  // ------------------------------------------------------------------
  // The forest
  // ------------------------------------------------------------------

  /** Element x hangs somewhere below its root, and strictly closer with every step. */
  ghost predicate Hangs(parent: map<Id, Id>, rep: map<Id, Id>, depth: map<Id, nat>, x: Id)
    requires x in parent && parent.Keys == rep.Keys == depth.Keys
  {
    && parent[x] in parent && rep[x] in parent
    && parent[rep[x]] == rep[x] && rep[parent[x]] == rep[x]
    && (parent[x] == x <==> depth[x] == 0)
    && (parent[x] == x ==> rep[x] == x)
    && (parent[x] != x ==> depth[parent[x]] < depth[x])
  }

  ghost predicate IsForest(parent: map<Id, Id>, rep: map<Id, Id>, depth: map<Id, nat>) {
    && parent.Keys == rep.Keys == depth.Keys
    && forall x {:trigger Hangs(parent, rep, depth, x)} :: x in parent ==> Hangs(parent, rep, depth, x)
  }

  lemma CompressionKeepsForest(parent: map<Id, Id>, rep: map<Id, Id>, depth: map<Id, nat>, x: Id)
    requires IsForest(parent, rep, depth) && x in parent && parent[x] != rep[x]
    ensures IsForest(parent[x := rep[x]], rep, depth)
  {
    assert Hangs(parent, rep, depth, x) && Hangs(parent, rep, depth, rep[x]);
    forall y | y in parent
      ensures Hangs(parent[x := rep[x]], rep, depth, y)
    {
      assert Hangs(parent, rep, depth, y) && Hangs(parent, rep, depth, rep[y]);
    }
  }

  /** Every element of root a's tree, moved below root b. */
  ghost function Rehung(rep: map<Id, Id>, a: Id, b: Id): map<Id, Id> {
    map x | x in rep :: if rep[x] == a then b else rep[x]
  }

  ghost function Deepened(rep: map<Id, Id>, depth: map<Id, nat>, a: Id): map<Id, nat>
    requires rep.Keys == depth.Keys
  {
    map x | x in depth :: if rep[x] == a then depth[x] + 1 else depth[x]
  }

  lemma HangingKeepsForest(parent: map<Id, Id>, rep: map<Id, Id>, depth: map<Id, nat>, a: Id, b: Id)
    requires IsForest(parent, rep, depth) && a in parent && b in parent
    requires parent[a] == a && parent[b] == b && a != b
    ensures IsForest(parent[a := b], Rehung(rep, a, b), Deepened(rep, depth, a))
  {
    assert Hangs(parent, rep, depth, a) && Hangs(parent, rep, depth, b);
    forall y | y in parent
      ensures Hangs(parent[a := b], Rehung(rep, a, b), Deepened(rep, depth, a), y)
    {
      assert Hangs(parent, rep, depth, y) && Hangs(parent, rep, depth, rep[y]) && Hangs(parent, rep, depth, parent[y]);
    }
  }

  /** Two elements share a root exactly when the links connect them. */
  ghost predicate Tracks(rep: map<Id, Id>, links: Links) {
    forall x, y {:trigger Connected(links, x, y)} :: x in rep && y in rep ==> (rep[x] == rep[y] <==> Connected(links, x, y))
  }

  lemma HangingTracks(rep: map<Id, Id>, links: Links, a: Id, b: Id)
    requires Tracks(rep, links) && a in rep && b in rep
    ensures Tracks(Rehung(rep, rep[a], rep[b]), links + {(a, b)})
  {
    forall x, y | x in rep && y in rep
      ensures Rehung(rep, rep[a], rep[b])[x] == Rehung(rep, rep[a], rep[b])[y] <==> Connected(links + {(a, b)}, x, y)
    {
      OneMoreLink(links, a, b, x, y);
    }
  }

  class Forest {
    var parent: map<Id, Id>
    /** The root of every element's tree, and a bound on the steps to it. */
    ghost var rep: map<Id, Id>
    ghost var depth: map<Id, nat>

    ghost predicate Valid()
      reads this
    {
      IsForest(parent, rep, depth)
    }

    constructor (ids: seq<Id>)
      ensures Valid() && Tracks(rep, {})
      ensures forall k :: 0 <= k < |ids| ==> ids[k] in rep
    {
      parent := map x | x in ids :: x;
      rep := map x | x in ids :: x;
      depth := map x | x in ids :: 0;
      new;
      forall x, y | x in rep && y in rep
        ensures rep[x] == rep[y] <==> Connected({}, x, y)
      {
        ConnectedByNothing(x, y);
      }
    }

    /** Path compression re-hangs every element on the way; no root moves. */
    method Find(start: Id) returns (root: Id)
      requires Valid() && start in parent
      modifies this`parent
      ensures Valid() && root == rep[start] && root in parent
    {
      root := start;
      while parent[root] != root
        invariant root in parent && rep[root] == rep[start]
        decreases depth[root]
      {
        assert Hangs(parent, rep, depth, root);
        root := parent[root];
      }
      assert Hangs(parent, rep, depth, root);
      var x := start;
      while parent[x] != root
        invariant Valid() && x in parent && root in parent && parent[root] == root
        invariant rep[x] == root == rep[start]
        decreases depth[x]
      {
        assert Hangs(parent, rep, depth, x);
        CompressionKeepsForest(parent, rep, depth, x);
        var next := parent[x];
        parent := parent[x := root];
        x := next;
      }
    }

    /** Hangs the first root below the second. */
    method Union(a: Id, b: Id, ghost links: Links)
      requires Valid() && a in parent && b in parent && Tracks(rep, links)
      modifies this
      ensures Valid() && rep.Keys == old(rep).Keys
      ensures rep == Rehung(old(rep), old(rep)[a], old(rep)[b])
      ensures Tracks(rep, links + {(a, b)})
    {
      HangingTracks(rep, links, a, b);
      var ra := Find(a);
      var rb := Find(b);
      assert Hangs(parent, rep, depth, a) && Hangs(parent, rep, depth, b);
      if ra != rb {
        HangingKeepsForest(parent, rep, depth, ra, rb);
        parent := parent[ra := rb];
        depth := Deepened(rep, depth, ra);
        rep := Rehung(rep, ra, rb);
      } else {
        assert rep == Rehung(rep, ra, rb);
      }
    }
  }
}
