/** Vocabulary shared by the models: optional values, outcomes, digests and
    sums over finite maps. */
module Common {

  datatype Option<+T> = None | Some(value: T)

  datatype Result<+T, +E> = Ok(value: T) | Err(error: E)

  /** A SHA-256 digest, named by the text it digests: hashing is taken to be injective. */
  datatype Digest<+T> = Digest(of: T)

  predicate IsLeast(s: set<nat>, m: nat) {
    m in s && forall k :: k in s ==> m <= k
  }

  lemma {:induction false} LeastExists(s: set<nat>)
    requires s != {}
    ensures exists m :: IsLeast(s, m)
  {
    var x :| x in s;
    if s == {x} {
      assert IsLeast(s, x);
    } else {
      LeastExists(s - {x});
      var m :| IsLeast(s - {x}, m);
      var least := if x <= m then x else m;
      forall k | k in s
        ensures least <= k
      {
        assert k == x || k in s - {x};
      }
      assert IsLeast(s, least);
    }
  }

  /** The least of a non-empty set of row ids (`ORDER BY id LIMIT 1`). */
  ghost function Least(s: set<nat>): (m: nat)
    requires s != {}
    ensures m in s && forall k :: k in s ==> m <= k
  {
    LeastExists(s);
    var m :| IsLeast(s, m);
    m
  }

  predicate Distinct<T(==)>(xs: seq<T>) {
    forall i, j :: 0 <= i < j < |xs| ==> xs[i] != xs[j]
  }

  lemma SubsetSize<T>(a: set<T>, b: set<T>)
    requires a <= b
    ensures |a| <= |b|
  {
    assert b == a + (b - a);
  }

  /** The total of a map's values. */
  ghost function Total<K>(m: map<K, nat>): nat
  {
    if m == map[] then 0
    else
      var k :| k in m;
      m[k] + Total(m - {k})
  }

  /** The total does not depend on which key is split off first. */
  lemma {:induction false} TotalSplit<K>(m: map<K, nat>, k: K)
    requires k in m
    ensures Total(m) == m[k] + Total(m - {k})
    decreases |m|
  {
    var j :| j in m && Total(m) == m[j] + Total(m - {j});
    if j != k {
      TotalSplit(m - {j}, k);
      TotalSplit(m - {k}, j);
      assert (m - {j}) - {k} == (m - {k}) - {j};
    }
  }

  lemma TotalUpdate<K>(m: map<K, nat>, k: K, v: nat)
    ensures Total(m[k := v]) == Total(m) - (if k in m then m[k] else 0) + v
  {
    TotalSplit(m[k := v], k);
    if k in m {
      TotalSplit(m, k);
      assert m[k := v] - {k} == m - {k};
    } else {
      assert m[k := v] - {k} == m;
    }
  }

  /** Pointwise smaller maps have smaller totals; strictly so if one entry shrinks. */
  lemma {:induction false} TotalMonotone<K>(small: map<K, nat>, big: map<K, nat>)
    requires small.Keys == big.Keys
    requires forall k :: k in small ==> small[k] <= big[k]
    ensures Total(small) <= Total(big)
    decreases |small|
  {
    if small != map[] {
      var k :| k in small;
      TotalSplit(small, k);
      TotalSplit(big, k);
      TotalMonotone(small - {k}, big - {k});
    } else {
      assert big == map[];
    }
  }

  ghost function Measured<R>(rows: map<nat, R>, f: R -> nat): map<nat, nat> {
    map id | id in rows :: f(rows[id])
  }

  /** What a measure adds up to over the rows of a table. */
  ghost function TotalBy<R>(rows: map<nat, R>, f: R -> nat): nat {
    Total(Measured(rows, f))
  }

  lemma TotalByUpdate<R>(rows: map<nat, R>, f: R -> nat, id: nat, r: R)
    ensures TotalBy(rows[id := r], f) == TotalBy(rows, f) - (if id in rows then f(rows[id]) else 0) + f(r)
  {
    assert Measured(rows[id := r], f) == Measured(rows, f)[id := f(r)];
    TotalUpdate(Measured(rows, f), id, f(r));
  }

  lemma TotalByRemove<R>(rows: map<nat, R>, f: R -> nat, id: nat)
    requires id in rows
    ensures TotalBy(rows - {id}, f) == TotalBy(rows, f) - f(rows[id])
  {
    assert Measured(rows - {id}, f) == Measured(rows, f) - {id};
    TotalSplit(Measured(rows, f), id);
  }

  lemma TotalByMonotone<R>(small: map<nat, R>, big: map<nat, R>, f: R -> nat)
    requires small.Keys == big.Keys && forall k :: k in small ==> f(small[k]) <= f(big[k])
    ensures TotalBy(small, f) <= TotalBy(big, f)
  {
    TotalMonotone(Measured(small, f), Measured(big, f));
  }

  lemma Distribute(m: nat, a: nat, b: nat)
    ensures m * (a + b) == m * a + m * b
  {
  }
}
