/** The embedding store: writes through its index handle, and a matrix cache
    that always equals the table. */
module EmbedStore {
  import opened Common
  import opened Vectors
  import opened VectorIndex
  import Text

  const LEGACY_UNKNOWN: Identity := "legacy:unknown:document:none:v1"
  const LEGACY_DEFAULT: Identity := "ollama:qwen3-embedding:8b:document:none:v1"

  // ------------------------------------------------------------------
  // One vector for each fact and identity
  // ------------------------------------------------------------------

  lemma {:induction false} WithoutFactKeepsOne(rows: seq<Row>, fact: FactId)
    requires OneVectorPerIdentity(rows)
    ensures OneVectorPerIdentity(WithoutFact(rows, fact)) && forall r :: r in WithoutFact(rows, fact) ==> r in rows
  {
    if rows != [] {
      var n := |rows| - 1;
      assert OneVectorPerIdentity(rows[..n]);
      WithoutFactKeepsOne(rows[..n], fact);
      AppendKeepsOne(rows, WithoutFact(rows[..n], fact));
    }
  }

  lemma {:induction false} AfterPruneKeepsOne(rows: seq<Row>, keep: set<Identity>)
    requires OneVectorPerIdentity(rows)
    ensures OneVectorPerIdentity(AfterPrune(rows, keep)) && forall r :: r in AfterPrune(rows, keep) ==> r in rows
  {
    if rows != [] {
      var n := |rows| - 1;
      assert OneVectorPerIdentity(rows[..n]);
      AfterPruneKeepsOne(rows[..n], keep);
      AppendKeepsOne(rows, AfterPrune(rows[..n], keep));
    }
  }

  lemma AppendKeepsOne(rows: seq<Row>, kept: seq<Row>)
    requires rows != [] && OneVectorPerIdentity(rows) && OneVectorPerIdentity(kept)
    requires forall r :: r in kept ==> r in rows[..|rows| - 1]
    ensures OneVectorPerIdentity(kept + [rows[|rows| - 1]])
    ensures forall r :: r in kept + [rows[|rows| - 1]] ==> r in rows
  {
    var n := |rows| - 1;
    var out := kept + [rows[n]];
    forall i, j | 0 <= i < j < |out| && out[i].factId == out[j].factId && out[i].identity == out[j].identity
      ensures out[i].identity.None?
    {
      if j == |kept| {
        assert kept[i] in kept;
        assert kept[i] in rows[..n];
        var k :| 0 <= k < n && rows[..n][k] == kept[i];
        assert rows[k] == out[i];
      }
    }
    assert forall r :: r in rows[..n] ==> r in rows;
  }

  lemma UpsertKeepsOne(rows: seq<Row>, fact: FactId, identity: Identity, vec: Vec)
    requires OneVectorPerIdentity(rows)
    ensures OneVectorPerIdentity(Upserted(rows, fact, identity, vec))
  {
    if !Stored(rows, fact, identity) {
      assert forall i :: 0 <= i < |rows| ==> !IsRowOf(rows[i], fact, identity);
    }
  }

  /** No write through the handle gives a fact two vectors of one identity. */
  lemma OpKeepsOneVector(db: Db, h: Handle, op: Op)
    requires HasTable(db, h) && OneVectorPerIdentity(db.rows)
    ensures OneVectorPerIdentity(Apply(db, h, op).0.rows)
  {
    match op {
      case Upsert(f, id, v) => UpsertKeepsOne(db.rows, f, id, v);
      case Delete(f) => WithoutFactKeepsOne(db.rows, f);
      case Prune(keep) => AfterPruneKeepsOne(db.rows, keep);
      case Prepared(f, v) => UpsertKeepsOne(db.rows, f, h.identity, v);
      case Rebuild(_, _) =>
    }
  }

  // ------------------------------------------------------------------
  // Opening the index
  // ------------------------------------------------------------------

  function CountMirrored(rows: seq<Row>, identity: Identity, dims: nat): nat {
    if rows == [] then 0
    else CountMirrored(rows[..|rows| - 1], identity, dims) + (if Mirrored(rows[|rows| - 1], identity, dims) then 1 else 0)
  }

  /** Validates metadata and population; the stored vectors themselves are not compared. */
  function Open(db: Db, identity: Identity, dims: nat): Option<Handle> {
    if Text.Strip(identity) == "" || dims < 1 || db.meta.None? then None
    else
      var m := db.meta.value;
      if m.active !in db.tables || m.identity != identity || m.dims != dims then None
      else
        var index := db.tables[m.active];
        if CountMirrored(db.rows, identity, dims) == |index| && index.Keys == Expected(db.rows, identity, dims).Keys
        then Some(Handle(identity, dims, m.active)) else None
  }

  lemma {:induction false} CountIsSize(rows: seq<Row>, identity: Identity, dims: nat)
    requires OneVectorPerIdentity(rows)
    ensures CountMirrored(rows, identity, dims) == |Expected(rows, identity, dims)|
  {
    if rows != [] {
      var n := |rows| - 1;
      var rest, last := Expected(rows[..n], identity, dims), rows[n];
      assert OneVectorPerIdentity(rows[..n]);
      CountIsSize(rows[..n], identity, dims);
      if Mirrored(last, identity, dims) {
        ExpectedAt(rows[..n], identity, dims, last.factId);
        assert forall i :: 0 <= i < n ==> rows[..n][i] == rows[i];
        assert last.factId !in rest;
        assert (rest[last.factId := last.vec]).Keys == rest.Keys + {last.factId};
      }
    }
  }

  /** An index in step always opens, as the current handle. */
  lemma SyncedIndexOpens(db: Db, identity: Identity, dims: nat)
    requires Sync(db) && OneVectorPerIdentity(db.rows) && db.meta.Some?
    ensures Text.Strip(identity) != "" && dims >= 1 && db.meta.value.identity == identity && db.meta.value.dims == dims <==> Open(db, identity, dims).Some?
    ensures Open(db, identity, dims).Some? ==> Current(db, Open(db, identity, dims).value)
  {
    CountIsSize(db.rows, identity, dims);
  }

  // ------------------------------------------------------------------
  // The matrix of an identity
  // ------------------------------------------------------------------

  /** No identity selects every row; the historical default also takes legacy rows. */
  predicate Selects(identity: Option<Identity>, r: Row) {
    identity.None? || identity.value == "" || r.identity == identity || (identity.value == LEGACY_DEFAULT && r.identity.None?)
  }

  function SelectedRows(rows: seq<Row>, dim: nat, identity: Option<Identity>): seq<Row> {
    if rows == [] then []
    else
      var rest := SelectedRows(rows[..|rows| - 1], dim, identity);
      var last := rows[|rows| - 1];
      if Dim(last) == dim && Selects(identity, last) then rest + [last] else rest
  }

  function Ids(rows: seq<Row>): seq<FactId> {
    seq(|rows|, k requires 0 <= k < |rows| => rows[k].factId)
  }

  /** A row scaled to length 1; a vanishing one is left as it is. */
  function Normalised(v: Vec): (row: seq<real>)
    ensures |row| == |v.values|
  {
    var length := if v.norm < 0.000000001 then 1.0 else v.norm;
    seq(|v.values|, k requires 0 <= k < |v.values| => v.values[k] / length)
  }

  lemma {:induction false} DotScaled(a: seq<real>, b: seq<real>, length: real)
    requires length != 0.0 && |a| == |b| && forall k :: 0 <= k < |a| ==> b[k] == a[k] / length
    ensures Dot(b, b) * (length * length) == Dot(a, a)
  {
    if a != [] {
      var n := |a| - 1;
      DotScaled(a[..n], b[..n], length);
      SquareScaled(a[n], b[n], length);
      Distributes(Dot(b[..n], b[..n]), b[n] * b[n], length * length);
    }
  }

  lemma SquareScaled(x: real, y: real, length: real)
    requires length != 0.0 && y == x / length
    ensures (y * y) * (length * length) == x * x
  {
    assert y * length == x;
    assert (y * y) * (length * length) == (y * length) * (y * length);
  }

  lemma Distributes(p: real, q: real, m: real)
    ensures (p + q) * m == p * m + q * m
  {
  }

  /** Every row that does not vanish becomes a unit vector. */
  lemma NormalisedRowIsUnit(v: Vec)
    requires IsVec(v) && v.norm >= 0.000000001
    ensures Dot(Normalised(v), Normalised(v)) == 1.0
  {
    var unit := Normalised(v);
    assert forall k :: 0 <= k < |unit| ==> unit[k] == v.values[k] / v.norm;
    PositiveProduct(v.norm, v.norm);
    DotScaled(v.values, unit, v.norm);
    Cancel(Dot(unit, unit), v.norm * v.norm, Dot(v.values, v.values));
  }

  lemma Cancel(x: real, y: real, product: real)
    requires y > 0.0 && x * y == product && y == product
    ensures x == 1.0
  {
    assert x * y / y == x;
  }

  function Matrix(rows: seq<Row>): seq<seq<real>> {
    seq(|rows|, k requires 0 <= k < |rows| => Normalised(rows[k].vec))
  }

  lemma {:induction false} PruneNothing(rows: seq<Row>, keep: set<Identity>)
    ensures |AfterPrune(rows, keep)| <= |rows|
    ensures |AfterPrune(rows, keep)| == |rows| ==> AfterPrune(rows, keep) == rows
  {
    if rows != [] {
      PruneNothing(rows[..|rows| - 1], keep);
    }
  }

  class Store {
    var db: Db
    const handle: Option<Handle>
    const embeddingIdentity: Option<Identity>
    var cacheIds: Option<seq<FactId>>
    var cacheMatrix: Option<seq<seq<real>>>
    var cacheDim: Option<nat>
    var cacheIdentity: Option<Identity>

    /** A cached matrix is what the table would give now. */
    ghost predicate Valid()
      reads this
    {
      && (handle.Some? ==> HasTable(db, handle.value))
      && (cacheIds.Some? && cacheMatrix.Some? && cacheDim.Some? ==>
            var selected := SelectedRows(db.rows, cacheDim.value, cacheIdentity);
            cacheIds.value == Ids(selected) && cacheMatrix.value == Matrix(selected))
    }

    constructor (db: Db, handle: Option<Handle>, embeddingIdentity: Option<Identity>)
      requires handle.Some? ==> HasTable(db, handle.value)
      ensures Valid() && this.db == db && this.handle == handle && this.embeddingIdentity == embeddingIdentity
    {
      this.db, this.handle, this.embeddingIdentity := db, handle, embeddingIdentity;
      cacheIds, cacheMatrix, cacheDim, cacheIdentity := None, None, None, None;
    }

    method InvalidateCache()
      modifies `cacheIds, `cacheMatrix, `cacheDim, `cacheIdentity
      ensures cacheIds == None && cacheMatrix == None && cacheDim == None && cacheIdentity == None
    {
      cacheIds, cacheMatrix, cacheDim, cacheIdentity := None, None, None, None;
    }

    function StorageIdentity(identity: Option<Identity>): Identity
    {
      var chosen := if identity.Some? then identity else embeddingIdentity;
      if chosen.None? || chosen.value == "" then LEGACY_UNKNOWN else chosen.value
    }

    /** Queries read the vectors of the document identity. */
    function SearchIdentity(identity: Option<Identity>): Option<Identity>
    {
      var chosen := if identity.Some? then identity else embeddingIdentity;
      if chosen.None? || chosen.value == "" then chosen else Some(Text.Replaced(chosen.value, ":query:", ":document:"))
    }

    method Upsert(fact: FactId, vec: Vec, identity: Option<Identity>)
      requires Valid()
      modifies this
      ensures Valid() && db == UpsertTxn(old(db), handle, fact, StorageIdentity(identity), vec)
    {
      var id := StorageIdentity(identity);
      db := db.(rows := Upserted(db.rows, fact, id, vec));
      if handle.Some? && id == handle.value.identity && |vec.values| == handle.value.dims {
        db := SetEntry(db, handle.value, fact, vec);
      }
      InvalidateCache();
    }

    method Delete(fact: FactId)
      requires Valid()
      modifies this
      ensures Valid() && db == DeleteTxn(old(db), handle, fact)
    {
      db := db.(rows := WithoutFact(db.rows, fact));
      if handle.Some? {
        db := db.(tables := db.tables[handle.value.table := db.tables[handle.value.table] - {fact}]);
      }
      InvalidateCache();
    }

    /** Refuses an empty keep list; drops the cache only if a row went. */
    method PruneIdentities(keep: seq<Identity>) returns (deleted: Result<nat, string>)
      requires Valid()
      modifies this
      ensures Valid()
      ensures keep == [] ==> deleted.Err? && db == old(db)
      ensures keep != [] ==> deleted.Ok? && db == PruneTxn(old(db), handle, set k | k in keep) && deleted.value == |old(db).rows| - |db.rows|
    {
      if keep == [] {
        return Err("prune_identities requires a non-empty keep set");
      }
      var kept := set k | k in keep;
      var before := |db.rows|;
      PruneNothing(db.rows, kept);
      db := db.(rows := AfterPrune(db.rows, kept));
      if handle.Some? && handle.value.identity !in kept {
        db := db.(tables := db.tables[handle.value.table := map[]]);
      }
      if before - |db.rows| > 0 {
        InvalidateCache();
      }
      deleted := Ok(before - |db.rows|);
    }

    /** The cached matrix, or the table's. */
    method EmbeddingMatrix(dim: nat, requested: Option<Identity>) returns (ids: seq<FactId>, matrix: seq<seq<real>>)
      requires Valid()
      modifies `cacheIds, `cacheMatrix, `cacheDim, `cacheIdentity
      ensures Valid()
      ensures var selected := SelectedRows(db.rows, dim, SearchIdentity(requested));
              ids == Ids(selected) && matrix == Matrix(selected)
    {
      var identity := SearchIdentity(requested);
      if cacheIds.Some? && cacheMatrix.Some? && cacheDim == Some(dim) && cacheIdentity == identity {
        return cacheIds.value, cacheMatrix.value;
      }
      var selected := SelectedRows(db.rows, dim, identity);
      ids, matrix := Ids(selected), Matrix(selected);
      cacheIds, cacheMatrix, cacheDim, cacheIdentity := Some(ids), Some(matrix), Some(dim), identity;
    }
  }
}
