/** Canonical fact vectors and the derived vec0 index that mirrors one embedding
    identity. */
module VectorIndex {
  import opened Common
  import opened Vectors

  type FactId = int
  type Identity = string

  /** A stored vector; legacy rows have no identity. */
  datatype Row = Row(factId: FactId, identity: Option<Identity>, vec: Vec)

  datatype TableName = TableA | TableB

  type IndexTable = map<FactId, Vec>

  /** The index metadata: which table is active, and what it mirrors. */
  datatype Meta = Meta(active: TableName, identity: Identity, dims: nat)

  /** Canonical rows in row order, the two vec0 tables and the metadata. */
  datatype Db = Db(rows: seq<Row>, tables: map<TableName, IndexTable>, meta: Option<Meta>)

  /** An index opened on a connection keeps the table it was opened with. */
  datatype Handle = Handle(identity: Identity, dims: nat, table: TableName)

  function Dim(r: Row): nat {
    |r.vec.values|
  }

  /** One row for each fact and identity. */
  ghost predicate OneVectorPerIdentity(rows: seq<Row>) {
    forall i, j :: 0 <= i < j < |rows| && rows[i].factId == rows[j].factId && rows[i].identity == rows[j].identity ==> rows[i].identity.None?
  }

  predicate Mirrored(r: Row, identity: Identity, dims: nat) {
    r.identity == Some(identity) && Dim(r) == dims
  }

  /** What the index ought to hold. */
  function Expected(rows: seq<Row>, identity: Identity, dims: nat): IndexTable {
    if rows == [] then map[]
    else
      var rest := Expected(rows[..|rows| - 1], identity, dims);
      var last := rows[|rows| - 1];
      if Mirrored(last, identity, dims) then rest[last.factId := last.vec] else rest
  }

  predicate HasTable(db: Db, h: Handle) {
    h.table in db.tables
  }

  /** The handle is bound to the active table and its metadata. */
  predicate Current(db: Db, h: Handle) {
    HasTable(db, h) && db.meta == Some(Meta(h.table, h.identity, h.dims))
  }

  /** The active index holds exactly the canonical vectors it mirrors. */
  predicate Sync(db: Db) {
    db.meta.Some? ==>
      && db.meta.value.active in db.tables
      && db.tables[db.meta.value.active] == Expected(db.rows, db.meta.value.identity, db.meta.value.dims)
  }

  // ------------------------------------------------------------------
  // Rows
  // ------------------------------------------------------------------

  predicate IsRowOf(r: Row, fact: FactId, identity: Identity) {
    r.factId == fact && r.identity == Some(identity)
  }

  predicate Stored(rows: seq<Row>, fact: FactId, identity: Identity) {
    exists i :: 0 <= i < |rows| && IsRowOf(rows[i], fact, identity)
  }

  /** Insert, or overwrite in place on conflict. */
  function Upserted(rows: seq<Row>, fact: FactId, identity: Identity, vec: Vec): seq<Row> {
    if Stored(rows, fact, identity) then Overwritten(rows, fact, identity, vec)
    else rows + [Row(fact, Some(identity), vec)]
  }

  function Overwritten(rows: seq<Row>, fact: FactId, identity: Identity, vec: Vec): (r: seq<Row>)
    ensures |r| == |rows|
    ensures forall i :: 0 <= i < |r| ==> r[i] == if IsRowOf(rows[i], fact, identity) then rows[i].(vec := vec) else rows[i]
  {
    if rows == [] then []
    else
      var last := rows[|rows| - 1];
      Overwritten(rows[..|rows| - 1], fact, identity, vec) + [if IsRowOf(last, fact, identity) then last.(vec := vec) else last]
  }

  function WithoutFact(rows: seq<Row>, fact: FactId): seq<Row> {
    if rows == [] then []
    else
      var rest := WithoutFact(rows[..|rows| - 1], fact);
      if rows[|rows| - 1].factId == fact then rest else rest + [rows[|rows| - 1]]
  }

  /** `NOT IN` is never true of a null identity, so legacy rows stay. */
  predicate Pruned(r: Row, keep: set<Identity>) {
    r.identity.Some? && r.identity.value !in keep
  }

  function AfterPrune(rows: seq<Row>, keep: set<Identity>): seq<Row> {
    if rows == [] then []
    else
      var rest := AfterPrune(rows[..|rows| - 1], keep);
      if Pruned(rows[|rows| - 1], keep) then rest else rest + [rows[|rows| - 1]]
  }

  /** The entry a fact ought to have. */
  lemma {:induction false} ExpectedAt(rows: seq<Row>, identity: Identity, dims: nat, fact: FactId)
    ensures fact in Expected(rows, identity, dims) <==> exists i :: 0 <= i < |rows| && rows[i].factId == fact && Mirrored(rows[i], identity, dims)
  {
    if rows != [] {
      var n := |rows| - 1;
      ExpectedAt(rows[..n], identity, dims, fact);
      if exists i :: 0 <= i < |rows| && rows[i].factId == fact && Mirrored(rows[i], identity, dims) {
        var i :| 0 <= i < |rows| && rows[i].factId == fact && Mirrored(rows[i], identity, dims);
        assert i < n ==> rows[..n][i] == rows[i];
      }
    }
  }

  lemma {:induction false} ExpectedValue(rows: seq<Row>, identity: Identity, dims: nat, i: nat)
    requires OneVectorPerIdentity(rows) && i < |rows| && Mirrored(rows[i], identity, dims)
    ensures rows[i].factId in Expected(rows, identity, dims) && Expected(rows, identity, dims)[rows[i].factId] == rows[i].vec
  {
    var n := |rows| - 1;
    if i < n {
      assert OneVectorPerIdentity(rows[..n]);
      ExpectedValue(rows[..n], identity, dims, i);
      assert rows[..n][i] == rows[i];
      assert Mirrored(rows[n], identity, dims) ==> rows[n].factId != rows[i].factId;
    }
  }

  lemma {:induction false} ExpectedAppend(rows: seq<Row>, r: Row, identity: Identity, dims: nat)
    ensures Expected(rows + [r], identity, dims) ==
            if Mirrored(r, identity, dims) then Expected(rows, identity, dims)[r.factId := r.vec] else Expected(rows, identity, dims)
  {
    assert (rows + [r])[..|rows|] == rows;
  }

  /** Overwriting one vector changes the expected index only at that fact. */
  lemma {:induction false} ExpectedOverwritten(rows: seq<Row>, fact: FactId, identity: Identity, vec: Vec, id: Identity, dims: nat)
    ensures var before, after := Expected(rows, id, dims), Expected(Overwritten(rows, fact, identity, vec), id, dims);
            && (identity != id ==> after == before)
            && (identity == id ==> after - {fact} == before - {fact})
            && (identity == id ==> (fact in after <==> Stored(rows, fact, identity) && |vec.values| == dims))
            && (identity == id && fact in after ==> after[fact] == vec)
  {
    if rows != [] {
      var n := |rows| - 1;
      var rest := rows[..n];
      ExpectedOverwritten(rest, fact, identity, vec, id, dims);
      var out := Overwritten(rows, fact, identity, vec);
      assert out[..n] == Overwritten(rest, fact, identity, vec);
      StoredInMore(rows, fact, identity);
      var last := rows[n];
      var a, b := Expected(rest, id, dims), Expected(out[..n], id, dims);
      if IsRowOf(last, fact, identity) {
        assert a[fact := last.vec] - {fact} == a - {fact} && b[fact := vec] - {fact} == b - {fact};
      } else if identity == id && Mirrored(last, id, dims) {
        assert a[last.factId := last.vec] - {fact} == (a - {fact})[last.factId := last.vec];
        assert b[last.factId := last.vec] - {fact} == (b - {fact})[last.factId := last.vec];
      }
    }
  }

  lemma StoredInMore(rows: seq<Row>, fact: FactId, identity: Identity)
    requires rows != []
    ensures Stored(rows, fact, identity) <==> Stored(rows[..|rows| - 1], fact, identity) || IsRowOf(rows[|rows| - 1], fact, identity)
  {
    var n := |rows| - 1;
    if Stored(rows, fact, identity) {
      var i :| 0 <= i < |rows| && IsRowOf(rows[i], fact, identity);
      assert i < n ==> rows[..n][i] == rows[i];
    }
    if Stored(rows[..n], fact, identity) {
      var i :| 0 <= i < n && IsRowOf(rows[..n][i], fact, identity);
      assert rows[i] == rows[..n][i];
    }
  }

  /** The index entry of a fact whose canonical row does not exist. */
  lemma NotStoredNotExpected(rows: seq<Row>, fact: FactId, identity: Identity, dims: nat)
    requires !Stored(rows, fact, identity)
    ensures fact !in Expected(rows, identity, dims)
  {
    ExpectedAt(rows, identity, dims, fact);
    assert forall i :: 0 <= i < |rows| && rows[i].factId == fact && Mirrored(rows[i], identity, dims) ==> IsRowOf(rows[i], fact, identity);
  }

  /** What an upsert does to the expected index. */
  lemma ExpectedUpserted(rows: seq<Row>, fact: FactId, identity: Identity, vec: Vec, id: Identity, dims: nat)
    ensures var before, after := Expected(rows, id, dims), Expected(Upserted(rows, fact, identity, vec), id, dims);
            after == if identity != id then before
                     else if |vec.values| == dims then before[fact := vec]
                     else before - {fact}
  {
    var before, after := Expected(rows, id, dims), Expected(Upserted(rows, fact, identity, vec), id, dims);
    if Stored(rows, fact, identity) {
      ExpectedOverwritten(rows, fact, identity, vec, id, dims);
      if identity == id {
        assert forall k :: k in after && k != fact ==> k in after - {fact};
        assert forall k :: k in before && k != fact ==> k in before - {fact};
      }
    } else {
      ExpectedAppend(rows, Row(fact, Some(identity), vec), id, dims);
      if identity == id {
        NotStoredNotExpected(rows, fact, identity, dims);
        assert before - {fact} == before;
      }
    }
  }

  lemma {:induction false} ExpectedWithoutFact(rows: seq<Row>, fact: FactId, identity: Identity, dims: nat)
    ensures Expected(WithoutFact(rows, fact), identity, dims) == Expected(rows, identity, dims) - {fact}
  {
    if rows != [] {
      var n := |rows| - 1;
      var last, rest := rows[n], Expected(rows[..n], identity, dims);
      ExpectedWithoutFact(rows[..n], fact, identity, dims);
      ExpectedAppend(WithoutFact(rows[..n], fact), last, identity, dims);
      assert rest[fact := last.vec] - {fact} == rest - {fact};
      if last.factId != fact {
        assert rest[last.factId := last.vec] - {fact} == (rest - {fact})[last.factId := last.vec];
      }
    }
  }

  lemma {:induction false} ExpectedAfterPrune(rows: seq<Row>, keep: set<Identity>, identity: Identity, dims: nat)
    ensures Expected(AfterPrune(rows, keep), identity, dims) == if identity in keep then Expected(rows, identity, dims) else map[]
  {
    if rows != [] {
      var n := |rows| - 1;
      ExpectedAfterPrune(rows[..n], keep, identity, dims);
      if !Pruned(rows[n], keep) {
        ExpectedAppend(AfterPrune(rows[..n], keep), rows[n], identity, dims);
      }
    }
  }

  // ------------------------------------------------------------------
  // Transactions
  // ------------------------------------------------------------------

  function SetEntry(db: Db, h: Handle, fact: FactId, vec: Vec): Db
    requires HasTable(db, h)
  {
    db.(tables := db.tables[h.table := db.tables[h.table][fact := vec]])
  }

  /** The store's upsert: the index is written only for its own identity and dimension. */
  function UpsertTxn(db: Db, h: Option<Handle>, fact: FactId, identity: Identity, vec: Vec): Db
    requires h.Some? ==> HasTable(db, h.value)
  {
    var stored := db.(rows := Upserted(db.rows, fact, identity, vec));
    if h.Some? && identity == h.value.identity && |vec.values| == h.value.dims then SetEntry(stored, h.value, fact, vec) else stored
  }

  function DeleteTxn(db: Db, h: Option<Handle>, fact: FactId): Db
    requires h.Some? ==> HasTable(db, h.value)
  {
    var deleted := db.(rows := WithoutFact(db.rows, fact));
    if h.Some? then deleted.(tables := db.tables[h.value.table := db.tables[h.value.table] - {fact}]) else deleted
  }

  function PruneTxn(db: Db, h: Option<Handle>, keep: set<Identity>): Db
    requires h.Some? ==> HasTable(db, h.value)
  {
    var pruned := db.(rows := AfterPrune(db.rows, keep));
    if h.Some? && h.value.identity !in keep then pruned.(tables := db.tables[h.value.table := map[]]) else pruned
  }

  /** The backend's own upsert: its identity, and its dimension or a refusal. */
  function PreparedUpsertTxn(db: Db, h: Option<Handle>, fact: FactId, identity: Identity, dims: nat, vec: Vec): Option<Db>
    requires h.Some? ==> HasTable(db, h.value) && h.value.identity == identity && h.value.dims == dims
  {
    if |vec.values| != dims then None else Some(UpsertTxn(db, h, fact, identity, vec))
  }

  predicate WrongDimension(rows: seq<Row>, identity: Identity, dims: nat) {
    exists i :: 0 <= i < |rows| && rows[i].identity == Some(identity) && Dim(rows[i]) != dims
  }

  /** Fills the table that is not active and switches to it; nothing changes on an error. */
  function RebuildTxn(db: Db, identity: Identity, dims: nat): Option<Db> {
    if WrongDimension(db.rows, identity, dims) then None
    else
      var target := if db.meta.Some? && db.meta.value.active.TableA? then TableB else TableA;
      Some(db.(tables := db.tables[target := Expected(db.rows, identity, dims)], meta := Some(Meta(target, identity, dims))))
  }

  // ------------------------------------------------------------------
  // The index stays a mirror
  // ------------------------------------------------------------------

  /** With the current handle an upsert keeps the index in step, except exactly
      when it gives an indexed fact a vector of another dimension. */
  lemma UpsertKeepsSyncIff(db: Db, h: Handle, fact: FactId, identity: Identity, vec: Vec)
    requires Sync(db) && Current(db, h)
    ensures Sync(UpsertTxn(db, Some(h), fact, identity, vec)) <==>
              !(identity == h.identity && |vec.values| != h.dims && fact in db.tables[h.table])
    ensures Current(UpsertTxn(db, Some(h), fact, identity, vec), h)
  {
    ExpectedUpserted(db.rows, fact, identity, vec, h.identity, h.dims);
    var before := Expected(db.rows, h.identity, h.dims);
    assert fact in before ==> fact !in before - {fact};
    assert fact !in before ==> before - {fact} == before;
  }

  lemma DeleteKeepsSync(db: Db, h: Handle, fact: FactId)
    requires Sync(db) && Current(db, h)
    ensures Sync(DeleteTxn(db, Some(h), fact)) && Current(DeleteTxn(db, Some(h), fact), h)
  {
    ExpectedWithoutFact(db.rows, fact, h.identity, h.dims);
  }

  lemma PruneKeepsSync(db: Db, h: Handle, keep: set<Identity>)
    requires Sync(db) && Current(db, h)
    ensures Sync(PruneTxn(db, Some(h), keep)) && Current(PruneTxn(db, Some(h), keep), h)
  {
    ExpectedAfterPrune(db.rows, keep, h.identity, h.dims);
  }

  lemma PreparedUpsertKeepsSync(db: Db, h: Handle, fact: FactId, vec: Vec)
    requires Sync(db) && Current(db, h)
    ensures var t := PreparedUpsertTxn(db, Some(h), fact, h.identity, h.dims, vec);
            t.Some? ==> Sync(t.value) && Current(t.value, h)
  {
    if |vec.values| == h.dims {
      UpsertKeepsSyncIff(db, h, fact, h.identity, vec);
    }
  }

  /** A rebuild succeeds exactly when every vector of the identity has the
      dimension, whatever state the index was in, and leaves a mirror. */
  lemma RebuildMakesSync(db: Db, identity: Identity, dims: nat)
    ensures RebuildTxn(db, identity, dims).Some? <==> forall i :: 0 <= i < |db.rows| && db.rows[i].identity == Some(identity) ==> Dim(db.rows[i]) == dims
    ensures var t := RebuildTxn(db, identity, dims);
            t.Some? ==>
              && Sync(t.value) && t.value.rows == db.rows
              && t.value.meta.Some? && Current(t.value, Handle(identity, dims, t.value.meta.value.active))
  {
  }

  /** Without a handle a delete leaves the index in step exactly when the fact
      was not indexed. */
  lemma DeleteWithoutHandleIff(db: Db, fact: FactId)
    requires Sync(db) && db.meta.Some?
    ensures Sync(DeleteTxn(db, None, fact)) <==> fact !in db.tables[db.meta.value.active]
  {
    var m := db.meta.value;
    ExpectedWithoutFact(db.rows, fact, m.identity, m.dims);
    var before := Expected(db.rows, m.identity, m.dims);
    assert fact in before ==> fact !in before - {fact};
    assert fact !in before ==> before - {fact} == before;
  }

  datatype Op =
    | Upsert(fact: FactId, identity: Identity, vec: Vec)
    | Delete(fact: FactId)
    | Prune(keep: set<Identity>)
    | Prepared(fact: FactId, vec: Vec)
    | Rebuild(identity: Identity, dims: nat)

  /** One operation through the handle; a rebuild is followed by reopening. */
  function Apply(db: Db, h: Handle, op: Op): (r: (Db, Handle))
    requires HasTable(db, h)
    ensures HasTable(r.0, r.1)
  {
    match op
    case Upsert(f, id, v) => (UpsertTxn(db, Some(h), f, id, v), h)
    case Delete(f) => (DeleteTxn(db, Some(h), f), h)
    case Prune(keep) => (PruneTxn(db, Some(h), keep), h)
    case Prepared(f, v) =>
      var t := PreparedUpsertTxn(db, Some(h), f, h.identity, h.dims, v);
      (if t.Some? then t.value else db, h)
    case Rebuild(id, d) =>
      match RebuildTxn(db, id, d)
      case None => (db, h)
      case Some(t) => (t, Handle(id, d, t.meta.value.active))
  }

  function Run(db: Db, h: Handle, ops: seq<Op>): (r: (Db, Handle))
    requires HasTable(db, h)
    ensures HasTable(r.0, r.1)
    decreases |ops|
  {
    if ops == [] then (db, h)
    else
      var (d, k) := Apply(db, h, ops[0]);
      Run(d, k, ops[1..])
  }

  /** Every write to the mirrored identity has the mirrored dimension. */
  ghost predicate RightDimensions(db: Db, h: Handle, ops: seq<Op>)
    requires HasTable(db, h)
    decreases |ops|
  {
    ops == [] ||
    (&& (ops[0].Upsert? && ops[0].identity == h.identity ==> |ops[0].vec.values| == h.dims)
     && RightDimensions(Apply(db, h, ops[0]).0, Apply(db, h, ops[0]).1, ops[1..]))
  }

  lemma OpKeepsSync(db: Db, h: Handle, op: Op)
    requires Sync(db) && Current(db, h)
    requires op.Upsert? && op.identity == h.identity ==> |op.vec.values| == h.dims
    ensures Sync(Apply(db, h, op).0) && Current(Apply(db, h, op).0, Apply(db, h, op).1)
  {
    hide Sync, UpsertTxn, DeleteTxn, PruneTxn, RebuildTxn, PreparedUpsertTxn;
    match op {
      case Upsert(f, id, v) => UpsertKeepsSyncIff(db, h, f, id, v);
      case Delete(f) => DeleteKeepsSync(db, h, f);
      case Prune(keep) => PruneKeepsSync(db, h, keep);
      case Prepared(f, v) => PreparedUpsertKeepsSync(db, h, f, v);
      case Rebuild(id, d) => RebuildMakesSync(db, id, d);
    }
  }

  /** No sequence of writes through the handle, rebuilds included, takes the
      index out of step. */
  lemma {:induction false} RunKeepsSync(db: Db, h: Handle, ops: seq<Op>)
    requires Sync(db) && Current(db, h) && RightDimensions(db, h, ops)
    ensures Sync(Run(db, h, ops).0) && Current(Run(db, h, ops).0, Run(db, h, ops).1)
    decreases |ops|
  {
    if ops != [] {
      OpKeepsSync(db, h, ops[0]);
      var (d, k) := Apply(db, h, ops[0]);
      RunKeepsSync(d, k, ops[1..]);
    }
  }
}
