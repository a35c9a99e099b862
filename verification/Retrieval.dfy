/** Dense scores: from the vec0 index, all candidates or none, and from the
    canonical vectors. */
module Retrieval {
  import opened Common
  import opened Vectors
  import opened VectorIndex
  import ES = EmbedStore

  type Scores = map<FactId, real>

  const BATCH := 500

  // ------------------------------------------------------------------
  // The vec0 backend
  // ------------------------------------------------------------------

  /** vec0's cosine distance; undefined for a zero vector. */
  function Distance(query: Vec, v: Vec): Option<real>
    requires |query.values| == |v.values|
  {
    if query.norm == 0.0 || v.norm == 0.0 then None else Some(1.0 - Cosine(query, v))
  }

  predicate Scorable(table: IndexTable, query: Vec, id: FactId) {
    id in table && |table[id].values| == |query.values| && Distance(query, table[id]).Some?
  }

  /** The index scores every authorized candidate or none. */
  ghost predicate IndexCanScore(table: IndexTable, dims: nat, query: Vec, ids: seq<FactId>) {
    |query.values| == dims && Distinct(ids) && forall k :: 0 <= k < |ids| ==> Scorable(table, query, ids[k])
  }

  function IndexScore(table: IndexTable, query: Vec, id: FactId): real
    requires id in table && |table[id].values| == |query.values|
  {
    AtLeastZero(Cosine(query, table[id]))
  }

  ghost predicate HasWidth(table: IndexTable, dims: nat) {
    forall id :: id in table ==> |table[id].values| == dims
  }

  lemma WidthAt(table: IndexTable, dims: nat, id: FactId)
    requires HasWidth(table, dims) && id in table
    ensures |table[id].values| == dims
  {
  }

  /** One batch: the rows of the table among the wanted ids; None if a distance is null. */
  method ScoreBatch(table: IndexTable, dims: nat, query: Vec, batch: seq<FactId>) returns (found: Option<Scores>)
    requires HasWidth(table, dims) && |query.values| == dims
    ensures found.Some? <==> AllScorable(table, query, batch)
    ensures found.Some? ==> ScoresFor(table, dims, query, batch, found.value)
  {
    var scores: Scores := map[];
    for i := 0 to |batch|
      invariant forall k :: 0 <= k < i && batch[k] in table ==> Scorable(table, query, batch[k])
      invariant scores.Keys == set k | 0 <= k < i && batch[k] in table :: batch[k]
      invariant forall id :: id in scores ==> id in table && scores[id] == IndexScore(table, query, id)
    {
      var id := batch[i];
      if id in table {
        WidthAt(table, dims, id);
        var distance := Distance(query, table[id]);
        if distance.None? {
          assert !Scorable(table, query, batch[i]);
          return None;
        }
        scores := scores[id := AtLeastZero(1.0 - distance.value)];
      }
    }
    found := Some(scores);
  }

  /** The wanted ids that the table holds. */
  ghost function Indexed(table: IndexTable, ids: seq<FactId>): set<FactId> {
    set k | 0 <= k < |ids| && ids[k] in table :: ids[k]
  }

  ghost predicate AllScorable(table: IndexTable, query: Vec, ids: seq<FactId>) {
    forall k :: 0 <= k < |ids| && ids[k] in table ==> Scorable(table, query, ids[k])
  }

  ghost predicate ScoresFor(table: IndexTable, dims: nat, query: Vec, ids: seq<FactId>, scores: Scores)
    requires HasWidth(table, dims) && |query.values| == dims
  {
    scores.Keys == Indexed(table, ids) && forall id :: id in scores ==> id in table && scores[id] == IndexScore(table, query, id)
  }

  lemma JoinBatches(table: IndexTable, dims: nat, query: Vec, a: seq<FactId>, b: seq<FactId>, x: Scores, y: Scores)
    requires HasWidth(table, dims) && |query.values| == dims
    requires ScoresFor(table, dims, query, a, x) && ScoresFor(table, dims, query, b, y)
    ensures ScoresFor(table, dims, query, a + b, x + y)
  {
    var ids := a + b;
    assert Indexed(table, ids) == Indexed(table, a) + Indexed(table, b) by {
      assert forall k :: 0 <= k < |a| ==> ids[k] == a[k];
      assert forall k :: 0 <= k < |b| ==> ids[|a| + k] == b[k];
      forall id | id in Indexed(table, ids)
        ensures id in Indexed(table, a) + Indexed(table, b)
      {
        var k :| 0 <= k < |ids| && ids[k] in table && ids[k] == id;
        assert k < |a| ==> a[k] == id;
        assert k >= |a| ==> b[k - |a|] == id;
      }
    }
  }

  lemma JoinScorable(table: IndexTable, query: Vec, a: seq<FactId>, b: seq<FactId>)
    ensures AllScorable(table, query, a + b) <==> AllScorable(table, query, a) && AllScorable(table, query, b)
  {
    var ids := a + b;
    assert forall k :: 0 <= k < |a| ==> ids[k] == a[k];
    assert forall k :: 0 <= k < |b| ==> ids[|a| + k] == b[k];
  }

  /** Scores all candidates batch by batch; a candidate that is not indexed, a
      repeated one, a null distance or a query of the wrong width is a failure. */
  method ScoresOf(table: IndexTable, dims: nat, query: Vec, ids: seq<FactId>) returns (scores: Option<Scores>)
    requires HasWidth(table, dims)
    ensures scores.Some? <==> IndexCanScore(table, dims, query, ids)
    ensures scores.Some? ==> scores.value.Keys == (set id | id in ids)
    ensures scores.Some? ==> forall id :: id in ids ==> id in table && scores.value[id] == IndexScore(table, query, id)
  {
    if |query.values| != dims || !Distinct(ids) {
      return None;
    }
    hide Scorable, IndexScore, HasWidth;
    var collected: Scores := map[];
    var offset := 0;
    while offset < |ids|
      invariant 0 <= offset <= |ids|
      invariant AllScorable(table, query, ids[..offset])
      invariant ScoresFor(table, dims, query, ids[..offset], collected)
    {
      var end := if offset + BATCH < |ids| then offset + BATCH else |ids|;
      var batch := ids[offset..end];
      assert ids[..end] == ids[..offset] + batch;
      assert ids == ids[..end] + ids[end..];
      JoinScorable(table, query, ids[..offset], batch);
      JoinScorable(table, query, ids[..end], ids[end..]);
      var found := ScoreBatch(table, dims, query, batch);
      if found.None? {
        return None;
      }
      JoinBatches(table, dims, query, ids[..offset], batch, collected, found.value);
      collected := collected + found.value;
      offset := end;
    }
    assert ids[..offset] == ids;
    CollectedSize(table, ids, collected.Keys);
    AllIndexed(table, dims, query, ids);
    if |collected| != |ids| {
      return None;
    }
    scores := Some(collected);
  }

  lemma AllIndexed(table: IndexTable, dims: nat, query: Vec, ids: seq<FactId>)
    requires Distinct(ids) && |query.values| == dims
    ensures IndexCanScore(table, dims, query, ids) <==> AllScorable(table, query, ids) && forall k :: 0 <= k < |ids| ==> ids[k] in table
    ensures (forall k :: 0 <= k < |ids| ==> ids[k] in table) ==> Indexed(table, ids) == set id | id in ids
  {
  }

  /** As many ids collected as asked for means that all were indexed. */
  lemma {:induction false} CollectedSize(table: IndexTable, ids: seq<FactId>, collected: set<FactId>)
    requires Distinct(ids) && collected == Indexed(table, ids)
    ensures |collected| <= |ids|
    ensures |collected| == |ids| <==> forall k :: 0 <= k < |ids| ==> ids[k] in table
  {
    if ids == [] {
      assert collected == {};
    } else {
      var n := |ids| - 1;
      var rest := Indexed(table, ids[..n]);
      CollectedSize(table, ids[..n], rest);
      assert forall k :: 0 <= k < n ==> ids[..n][k] == ids[k];
      if ids[n] in table {
        assert collected == rest + {ids[n]};
        assert ids[n] !in rest;
      } else {
        assert collected == rest;
      }
    }
  }

  // ------------------------------------------------------------------
  // The canonical backend
  // ------------------------------------------------------------------

  function ZeroVec(dims: nat): Vec {
    Vec(seq(dims, _ => 0.0), 0.0)
  }

  /** The stored vector of a candidate, a zero vector while its job is queued,
      or a failure: no job, or a vector of another dimension. */
  function Document(db: Db, identity: Identity, dims: nat, queued: set<FactId>, id: FactId): Option<Vec> {
    if id in Expected(db.rows, identity, dims) then Some(Expected(db.rows, identity, dims)[id])
    else if id in queued && !Stored(db.rows, id, identity) then Some(ZeroVec(dims))
    else None
  }

  ghost predicate CanLoad(db: Db, identity: Identity, dims: nat, queued: set<FactId>, ids: seq<FactId>) {
    forall k :: 0 <= k < |ids| ==> Document(db, identity, dims, queued, ids[k]).Some?
  }

  function BruteScore(db: Db, identity: Identity, dims: nat, queued: set<FactId>, query: Vec, id: FactId): real {
    var document := Document(db, identity, dims, queued, id);
    if document.Some? && |document.value.values| == |query.values| then AtLeastZero(Cosine(query, document.value)) else 0.0
  }

  lemma {:induction false} ExpectedWidth(rows: seq<Row>, identity: Identity, dims: nat)
    ensures HasWidth(Expected(rows, identity, dims), dims)
  {
    if rows != [] {
      ExpectedWidth(rows[..|rows| - 1], identity, dims);
    }
  }

  /** When the index is in step, whatever it scores, the canonical vectors score
      the same, and they can be loaded. */
  lemma IndexScoresAreBrute(db: Db, h: Handle, queued: set<FactId>, query: Vec, ids: seq<FactId>)
    requires Sync(db) && Current(db, h) && IndexCanScore(db.tables[h.table], h.dims, query, ids)
    ensures CanLoad(db, h.identity, h.dims, queued, ids)
    ensures forall k :: 0 <= k < |ids| ==>
              ids[k] in db.tables[h.table] && |db.tables[h.table][ids[k]].values| == |query.values|
              && IndexScore(db.tables[h.table], query, ids[k]) == BruteScore(db, h.identity, h.dims, queued, query, ids[k])
  {
    forall k | 0 <= k < |ids|
      ensures Document(db, h.identity, h.dims, queued, ids[k]) == Some(db.tables[h.table][ids[k]])
    {
      assert Scorable(db.tables[h.table], query, ids[k]);
    }
  }
}
