/** The legacy extract queue: retries, quota reschedules, dead letters, revival,
    and at most one active row per payload hash. */
module ExtractQueue {
  import opened Common

  type RowId = nat
  type Clock = int

  datatype Status = Pending | Processing | Dead

  datatype Row = Row(
    payload: string,
    payloadHash: Option<Digest<string>>,
    createdAt: Option<Clock>,
    status: Status,
    attempts: nat,
    lastError: Option<string>,
    notBefore: Option<Clock>,
    leaseOwner: Option<string>,
    leaseUntil: Option<Clock>)

  type Rows = map<RowId, Row>

  const MAX_PAYLOAD: nat := 12288
  const MAX_ROW_AGE: nat := 172800
  const AGE_CAP_NOTE := " (dead: 48h age cap)"

  predicate Active(r: Row) {
    !r.status.Dead?
  }

  predicate SameHash(a: Row, b: Row) {
    a.payloadHash.Some? && a.payloadHash == b.payloadHash
  }

  /** The partial unique index over pending and processing rows. */
  predicate Unique(rows: Rows) {
    forall i, j :: (i in rows && j in rows && Active(rows[i]) && Active(rows[j]) && SameHash(rows[i], rows[j])) ==> i == j
  }

  /** Stored hashes are the hashes of their payloads. */
  predicate Truthful(rows: Rows) {
    forall i :: i in rows && rows[i].payloadHash.Some? ==> rows[i].payloadHash.value == Digest(rows[i].payload)
  }

  predicate Numbered(rows: Rows, nextId: RowId) {
    forall i :: i in rows ==> i < nextId
  }

  function Unleased(r: Row): Row {
    r.(leaseOwner := None, leaseUntil := None)
  }

  // ------------------------------------------------------------------
  // The operations on table values
  // ------------------------------------------------------------------

  /** Oversized payloads keep their tail. */
  function Capped(payload: string): string {
    if |payload| > MAX_PAYLOAD then payload[|payload| - MAX_PAYLOAD..] else payload
  }

  function Copies(rows: Rows, payload: string): set<RowId> {
    set i | i in rows && Active(rows[i])
            && (rows[i].payloadHash == Some(Digest(payload)) || (rows[i].payloadHash.None? && rows[i].payload == payload))
  }

  function FreshRow(payload: string, now: Clock): Row {
    Row(payload, Some(Digest(payload)), Some(now), Pending, 0, None, None, None, None)
  }

  function Enqueued(rows: Rows, nextId: RowId, payload: string, now: Clock): Rows {
    if Copies(rows, Capped(payload)) == {} then rows[nextId := FreshRow(Capped(payload), now)] else rows
  }

  predicate HeldBy(rows: Rows, id: RowId, owner: Option<string>) {
    id in rows && rows[id].status.Processing? && rows[id].leaseOwner == owner
  }

  /** `lease_owner = NULL` matches nothing in SQL. */
  function Done(rows: Rows, id: RowId, owner: Option<string>): Rows {
    if owner.Some? && HeldBy(rows, id, owner) then rows - {id} else rows
  }

  predicate TooOld(r: Row, now: Clock) {
    r.createdAt.Some? && now - r.createdAt.value >= MAX_ROW_AGE
  }

  function Message(error: string, tooOld: bool): string {
    var short := if |error| > 500 then error[..500] else error;
    if tooOld then short + AGE_CAP_NOTE else short
  }

  function Failed(rows: Rows, id: RowId, error: string, maxAttempts: nat, owner: Option<string>, now: Clock): Rows {
    if !HeldBy(rows, id, owner) then rows
    else
      var r := rows[id];
      var dead := TooOld(r, now) || r.attempts + 1 >= maxAttempts;
      rows[id := Unleased(r.(attempts := r.attempts + 1, lastError := Some(Message(error, TooOld(r, now))),
                             status := if dead then Dead else Pending))]
  }

  function QuotaFailed(rows: Rows, id: RowId, error: string, notBefore: Clock, owner: Option<string>, now: Clock): Rows {
    if !HeldBy(rows, id, owner) then rows
    else
      var tooOld := TooOld(rows[id], now);
      rows[id := Unleased(rows[id].(lastError := Some(Message(error, tooOld)), status := if tooOld then Dead else Pending,
                                    notBefore := if tooOld then None else Some(notBefore)))]
  }

  function Released(rows: Rows, id: RowId, owner: string): Rows {
    if HeldBy(rows, id, Some(owner)) then rows[id := Unleased(rows[id].(status := Pending))] else rows
  }

  predicate Due(r: Row, maxAttempts: nat, now: Clock) {
    && r.attempts < maxAttempts
    && (r.notBefore.None? || r.notBefore.value <= now)
    && (r.status.Pending? || (r.status.Processing? && r.leaseUntil.Some? && r.leaseUntil.value <= now))
  }

  function DueIds(rows: Rows, maxAttempts: nat, exclude: set<RowId>, now: Clock): set<RowId> {
    set i | i in rows && i !in exclude && Due(rows[i], maxAttempts, now)
  }

  ghost function Claimed(rows: Rows, maxAttempts: nat, exclude: set<RowId>, owner: string, lease: nat, now: Clock): (Rows, Option<RowId>) {
    var due := DueIds(rows, maxAttempts, exclude, now);
    if due == {} then (rows, None)
    else
      var i := Least(due);
      (rows[i := rows[i].(status := Processing, leaseOwner := Some(owner), leaseUntil := Some(now + lease))], Some(i))
  }

  /** The WHERE clause of the revival, read against one table value. */
  ghost predicate Revivable(rows: Rows, ids: Option<set<RowId>>, i: RowId)
    requires i in rows
  {
    && rows[i].status.Dead?
    && (ids.None? || i in ids.value)
    && (rows[i].payloadHash.None? ||
        ((forall k :: k in rows && rows[k].status.Dead? && rows[k].payloadHash == rows[i].payloadHash ==> i <= k)
         && (forall k :: k in rows && Active(rows[k]) ==> rows[k].payloadHash != rows[i].payloadHash)))
  }

  function RevivedRow(r: Row): Row {
    Unleased(r.(status := Pending, attempts := 0, notBefore := None,
                lastError := Some((if r.lastError.Some? then r.lastError.value else "") + " (revived)")))
  }

  /** All conditions evaluated before any row changes. */
  ghost function Revived(rows: Rows, ids: Option<set<RowId>>): Rows {
    map i | i in rows :: if Revivable(rows, ids, i) then RevivedRow(rows[i]) else rows[i]
  }

  /** An active row that repeats the payload of an older active row. */
  predicate LaterCopy(rows: Rows, i: RowId)
    requires i in rows
  {
    Active(rows[i]) && exists k :: k in rows && k < i && Active(rows[k]) && rows[k].payload == rows[i].payload
  }

  /** The migration: every row gets its hash, except later active copies. */
  function Hashed(rows: Rows): Rows {
    map i | i in rows :: HashedRow(rows, i)
  }

  function HashedRow(rows: Rows, i: RowId): Row
    requires i in rows
  {
    if LaterCopy(rows, i) then rows[i] else rows[i].(payloadHash := Some(Digest(rows[i].payload)))
  }

  /** An active row below the id has this payload hash. */
  ghost predicate ActiveBelow(rows: Rows, id: RowId, d: Digest<string>) {
    exists k :: k in rows && k < id && Active(rows[k]) && rows[k].payload == d.of
  }

  lemma LaterCopyIff(rows: Rows, id: RowId)
    requires id in rows
    ensures LaterCopy(rows, id) <==> Active(rows[id]) && ActiveBelow(rows, id, Digest(rows[id].payload))
  {
  }

  lemma OneMoreRow(rows: Rows, id: RowId, d: Digest<string>)
    requires id in rows
    ensures ActiveBelow(rows, id + 1, d) <==> ActiveBelow(rows, id, d) || (Active(rows[id]) && d == Digest(rows[id].payload))
  {
    if ActiveBelow(rows, id + 1, d) {
      var k :| k in rows && k < id + 1 && Active(rows[k]) && rows[k].payload == d.of;
      assert k < id || k == id;
    }
  }

  // ------------------------------------------------------------------
  // Uniqueness
  // ------------------------------------------------------------------

  /** Where stored hashes are truthful, the backfill leaves a table the unique
      index accepts exactly when no later active copy already carried a hash. */
  lemma BackfillIsUniqueIff(rows: Rows)
    requires Truthful(rows)
    ensures Unique(Hashed(rows)) <==> forall i :: i in rows && LaterCopy(rows, i) ==> rows[i].payloadHash.None?
    ensures Truthful(Hashed(rows))
  {
    var t := Hashed(rows);
    if Unique(t) {
      forall i | i in rows && LaterCopy(rows, i)
        ensures rows[i].payloadHash.None?
      {
        FirstCopy(rows, i);
        var k :| k in rows && k < i && Active(rows[k]) && rows[k].payload == rows[i].payload && !LaterCopy(rows, k);
        assert Active(t[k]) && Active(t[i]);
        assert t[k].payloadHash == Some(Digest(t[i].payload)) && t[i] == rows[i];
      }
    }
  }

  /** Every later copy has an oldest active row before it. */
  lemma {:induction false} FirstCopy(rows: Rows, i: RowId)
    requires i in rows && LaterCopy(rows, i)
    ensures exists k :: k in rows && k < i && Active(rows[k]) && rows[k].payload == rows[i].payload && !LaterCopy(rows, k)
  {
    var k :| k in rows && k < i && Active(rows[k]) && rows[k].payload == rows[i].payload;
    if LaterCopy(rows, k) {
      FirstCopy(rows, k);
    }
  }

  datatype Op =
    | Enqueue(payload: string)
    | MarkDone(id: RowId, holder: Option<string>)
    | MarkFailed(id: RowId, error: string, maxAttempts: nat, holder: Option<string>)
    | MarkQuotaFailed(id: RowId, error: string, notBefore: Clock, holder: Option<string>)
    | Release(id: RowId, owner: string)
    | Claim(maxAttempts: nat, exclude: set<RowId>, owner: string, lease: nat)
    | Revive(ids: Option<set<RowId>>)

  ghost function Apply(rows: Rows, nextId: RowId, op: Op, now: Clock): (Rows, RowId) {
    match op
    case Enqueue(p) => (Enqueued(rows, nextId, p, now), if Copies(rows, Capped(p)) == {} then nextId + 1 else nextId)
    case MarkDone(id, owner) => (Done(rows, id, owner), nextId)
    case MarkFailed(id, e, m, owner) => (Failed(rows, id, e, m, owner, now), nextId)
    case MarkQuotaFailed(id, e, nb, owner) => (QuotaFailed(rows, id, e, nb, owner, now), nextId)
    case Release(id, owner) => (Released(rows, id, owner), nextId)
    case Claim(m, exclude, owner, lease) => (Claimed(rows, m, exclude, owner, lease, now).0, nextId)
    case Revive(ids) => (Revived(rows, ids), nextId)
  }

  lemma OpKeepsUnique(rows: Rows, nextId: RowId, op: Op, now: Clock)
    requires Unique(rows) && Truthful(rows) && Numbered(rows, nextId)
    ensures var (t, n) := Apply(rows, nextId, op, now); Unique(t) && Truthful(t) && Numbered(t, n)
  {
    if op.Enqueue? {
      EnqueueKeepsUnique(rows, nextId, Capped(op.payload), now);
    } else if op.Revive? {
      RevivalKeepsUnique(rows, op.ids);
    } else {
      forall i | i in Apply(rows, nextId, op, now).0
        ensures i in rows && Kept(rows[i], Apply(rows, nextId, op, now).0[i])
      {
      }
    }
  }

  /** Payload and hash stay, and no dead row comes back to life. */
  predicate Kept(before: Row, after: Row) {
    after.payload == before.payload && after.payloadHash == before.payloadHash && (Active(after) ==> Active(before))
  }

  lemma EnqueueKeepsUnique(rows: Rows, nextId: RowId, payload: string, now: Clock)
    requires Unique(rows) && Truthful(rows) && Numbered(rows, nextId)
    requires Capped(payload) == payload
    ensures var t := Enqueued(rows, nextId, payload, now); Unique(t) && Truthful(t)
    ensures Numbered(Enqueued(rows, nextId, payload, now), if Copies(rows, payload) == {} then nextId + 1 else nextId)
  {
    if Copies(rows, payload) == {} {
      assert forall i :: i in rows && Active(rows[i]) ==> i !in Copies(rows, payload);
    }
  }

  lemma RevivalKeepsUnique(rows: Rows, ids: Option<set<RowId>>)
    requires Unique(rows) && Truthful(rows)
    ensures Unique(Revived(rows, ids)) && Truthful(Revived(rows, ids))
  {
    var t := Revived(rows, ids);
    forall i, j | i in t && j in t && Active(t[i]) && Active(t[j]) && SameHash(t[i], t[j])
      ensures i == j
    {
      assert Active(rows[i]) || Revivable(rows, ids, i);
      assert Active(rows[j]) || Revivable(rows, ids, j);
      assert rows[i].payloadHash == t[i].payloadHash && rows[j].payloadHash == t[j].payloadHash;
      assert SameHash(rows[i], rows[j]);
    }
  }

  ghost function Run(rows: Rows, nextId: RowId, ops: seq<(Op, Clock)>): (Rows, RowId)
    decreases |ops|
  {
    if ops == [] then (rows, nextId)
    else
      var (t, n) := Apply(rows, nextId, ops[0].0, ops[0].1);
      Run(t, n, ops[1..])
  }

  /** From a migrated table on, no sequence of operations ever leaves two
      pending or processing rows with one payload hash. */
  lemma {:induction false} RunKeepsUnique(rows: Rows, nextId: RowId, ops: seq<(Op, Clock)>)
    requires Unique(rows) && Truthful(rows) && Numbered(rows, nextId)
    ensures var (t, n) := Run(rows, nextId, ops); Unique(t) && Truthful(t) && Numbered(t, n)
    decreases |ops|
  {
    if ops != [] {
      OpKeepsUnique(rows, nextId, ops[0].0, ops[0].1);
      var (t, n) := Apply(rows, nextId, ops[0].0, ops[0].1);
      RunKeepsUnique(t, n, ops[1..]);
    }
  }

  /** With no id filter a hash that has a dead row and no active one gets exactly
      its oldest dead row back; a hash with an active row gets none. */
  lemma RevivalPicksTheOldest(rows: Rows, hash: Digest<string>, i: RowId)
    requires i in rows && rows[i].payloadHash == Some(hash) && rows[i].status.Dead?
    ensures Revived(rows, None)[i].status.Pending? <==>
              && (forall k :: k in rows && rows[k].payloadHash == Some(hash) ==> rows[k].status.Dead?)
              && (forall k :: k in rows && rows[k].payloadHash == Some(hash) ==> i <= k)
  {
  }

  /** Enqueueing the same payload again changes nothing. */
  lemma EnqueueIsIdempotent(rows: Rows, nextId: RowId, payload: string, now: Clock, later: Clock)
    requires Numbered(rows, nextId)
    ensures var t := Enqueued(rows, nextId, payload, now);
            Enqueued(t, if t == rows then nextId else nextId + 1, payload, later) == t
  {
    var t := Enqueued(rows, nextId, payload, now);
    if Copies(rows, Capped(payload)) == {} {
      assert nextId in Copies(t, Capped(payload));
    }
  }

  // ------------------------------------------------------------------
  // The queue object
  // ------------------------------------------------------------------

  class Queue {
    var rows: Rows
    var nextId: RowId

    /** Opens a table as an older version left it. */
    constructor (rows: Rows, nextId: RowId)
      ensures this.rows == rows && this.nextId == nextId
    {
      this.rows, this.nextId := rows, nextId;
    }

    /** Walks the rows in id order; the index is created last and refuses duplicates. */
    method EnsureHashIndex() returns (ok: bool)
      requires Numbered(rows, nextId)
      modifies this`rows
      ensures rows == Hashed(old(rows)) && ok == Unique(rows)
    {
      var before := rows;
      var activeHashes: set<Digest<string>> := {};
      for id := 0 to nextId
        invariant rows.Keys == before.Keys
        invariant forall i :: i in rows ==> rows[i] == if i < id then HashedRow(before, i) else before[i]
        invariant forall d :: d in activeHashes <==> ActiveBelow(before, id, d)
      {
        if id in rows {
          var digest := Digest(rows[id].payload);
          LaterCopyIff(before, id);
          forall d
            ensures ActiveBelow(before, id + 1, d) <==> ActiveBelow(before, id, d) || (Active(before[id]) && d == digest)
          {
            OneMoreRow(before, id, d);
          }
          if !(Active(rows[id]) && digest in activeHashes) {
            if Active(rows[id]) {
              activeHashes := activeHashes + {digest};
            }
            rows := rows[id := rows[id].(payloadHash := Some(digest))];
          }
        }
      }
      assert rows == Hashed(before);
      ok := Unique(rows);
    }

    method Enqueue(payload: string, now: Clock) returns (id: RowId)
      requires Numbered(rows, nextId) && Truthful(rows)
      modifies this
      ensures (rows, nextId) == Apply(old(rows), old(nextId), Op.Enqueue(payload), now)
      ensures id in rows && Active(rows[id]) && rows[id].payload == Capped(payload)
      ensures Copies(old(rows), Capped(payload)) != {} ==> id == Least(Copies(old(rows), Capped(payload)))
    {
      var kept := if |payload| > MAX_PAYLOAD then payload[|payload| - MAX_PAYLOAD..] else payload;
      var existing := Copies(rows, kept);
      if existing != {} {
        LeastExists(existing);
        id :| IsLeast(existing, id);
        return;
      }
      id := nextId;
      rows := rows[id := Row(kept, Some(Digest(kept)), Some(now), Pending, 0, None, None, None, None)];
      nextId := nextId + 1;
    }

    method MarkDone(id: RowId, owner: Option<string>) returns (ok: bool)
      modifies this`rows
      ensures rows == Done(old(rows), id, owner)
      ensures ok == (owner.Some? && HeldBy(old(rows), id, owner))
    {
      ok := owner.Some? && id in rows && rows[id].status.Processing? && rows[id].leaseOwner == owner;
      if ok {
        rows := map i | i in rows && i != id :: rows[i];
      }
    }

    method MarkFailed(id: RowId, error: string, maxAttempts: nat, owner: Option<string>, now: Clock) returns (attempts: nat)
      modifies this`rows
      ensures rows == Failed(old(rows), id, error, maxAttempts, owner, now)
      ensures attempts == if HeldBy(old(rows), id, owner) then old(rows)[id].attempts + 1 else 0
    {
      if id !in rows || !rows[id].status.Processing? || rows[id].leaseOwner != owner {
        return 0;
      }
      attempts := rows[id].attempts + 1;
      var message := if |error| > 500 then error[..500] else error;
      var status;
      if TooOld(rows[id], now) {
        status := Dead;
        message := message + AGE_CAP_NOTE;
      } else {
        status := if attempts >= maxAttempts then Dead else Pending;
      }
      rows := rows[id := rows[id].(attempts := attempts, lastError := Some(message), status := status,
                                   leaseOwner := None, leaseUntil := None)];
    }

    method MarkQuotaFailed(id: RowId, error: string, notBefore: Clock, owner: Option<string>, now: Clock) returns (rescheduled: bool)
      modifies this`rows
      ensures rows == QuotaFailed(old(rows), id, error, notBefore, owner, now)
      ensures rescheduled == (HeldBy(old(rows), id, owner) && !TooOld(old(rows)[id], now))
    {
      if id !in rows || !rows[id].status.Processing? || rows[id].leaseOwner != owner {
        return false;
      }
      rescheduled := !TooOld(rows[id], now);
      var r := rows[id].(lastError := Some(Message(error, !rescheduled)), leaseOwner := None, leaseUntil := None);
      if rescheduled {
        r := r.(notBefore := Some(notBefore), status := Pending);
      } else {
        r := r.(notBefore := None, status := Dead);
      }
      rows := rows[id := r];
    }

    method ReleaseClaim(id: RowId, owner: string) returns (ok: bool)
      modifies this`rows
      ensures rows == Released(old(rows), id, owner)
      ensures ok == HeldBy(old(rows), id, Some(owner))
    {
      ok := id in rows && rows[id].status.Processing? && rows[id].leaseOwner == Some(owner);
      if ok {
        rows := rows[id := rows[id].(status := Pending, leaseOwner := None, leaseUntil := None)];
      }
    }

    method NextPending(maxAttempts: nat, exclude: set<RowId>, owner: string, lease: nat, now: Clock) returns (id: Option<RowId>)
      modifies this`rows
      ensures (rows, id) == Claimed(old(rows), maxAttempts, exclude, owner, lease, now)
    {
      var due := set i | i in rows && i !in exclude && Due(rows[i], maxAttempts, now);
      if due == {} {
        return None;
      }
      LeastExists(due);
      var i: nat :| IsLeast(due, i);
      rows := rows[i := rows[i].(status := Processing, leaseOwner := Some(owner), leaseUntil := Some(now + lease))];
      id := Some(i);
    }

    method SetRevived(id: RowId)
      requires id in rows
      modifies this`rows
      ensures rows == old(rows)[id := RevivedRow(old(rows)[id])]
    {
      var row := rows[id];
      var note := (if row.lastError.Some? then row.lastError.value else "") + " (revived)";
      rows := rows[id := row.(status := Pending, attempts := 0, notBefore := None, leaseOwner := None, leaseUntil := None,
                              lastError := Some(note))];
    }

    /** Visits the rows in any order, reading the conditions from the table as
        it stands at each row, and still revives what one snapshot would. */
    method ReviveDead(ids: Option<set<RowId>>) returns (revived: nat)
      modifies this`rows
      ensures rows == Revived(old(rows), ids)
      ensures revived == |RevivableIds(old(rows), ids, {})|
    {
      ghost var before := rows;
      hide Revivable, Partly, RevivableIds, OlderDead, ActiveTwins, RevivedRow, Revived;
      revived := 0;
      var todo := rows.Keys;
      RevivalEnds(before, ids);
      while todo != {}
        invariant todo <= before.Keys
        invariant rows == Partly(before, ids, todo)
        invariant revived == |RevivableIds(before, ids, todo)|
        decreases |todo|
      {
        var id :| id in todo;
        VisitOne(before, ids, todo, id);
        var hit := rows[id].status.Dead? && (ids.None? || id in ids.value)
                   && (rows[id].payloadHash.None? || (OlderDead(rows, id) == {} && ActiveTwins(rows, id) == {}));
        assert hit <==> Revivable(before, ids, id) by {
          RevivableBySets(rows, ids, id);
          SameConditionMidway(before, ids, todo, id);
        }
        if hit {
          SetRevived(id);
          revived := revived + 1;
        }
        todo := todo - {id};
      }
    }
  }

  /** The table halfway through a revival: the ids in todo are still untouched. */
  ghost function Partly(before: Rows, ids: Option<set<RowId>>, todo: set<RowId>): Rows {
    map i | i in before :: if i in todo || !Revivable(before, ids, i) then before[i] else RevivedRow(before[i])
  }

  lemma RevivalEnds(rows: Rows, ids: Option<set<RowId>>)
    ensures Partly(rows, ids, rows.Keys) == rows && Partly(rows, ids, {}) == Revived(rows, ids)
    ensures RevivableIds(rows, ids, rows.Keys) == {}
  {
  }

  ghost function RevivableIds(rows: Rows, ids: Option<set<RowId>>, todo: set<RowId>): set<RowId> {
    set i | i in rows && i !in todo && Revivable(rows, ids, i)
  }

  /** Halfway through a revival an unvisited row meets the conditions exactly
      when it met them at the start. */
  lemma SameConditionMidway(before: Rows, ids: Option<set<RowId>>, todo: set<RowId>, i: RowId)
    requires i in before && i in todo
    ensures Revivable(Partly(before, ids, todo), ids, i) <==> Revivable(before, ids, i)
  {
    var now := Partly(before, ids, todo);
    assert now[i] == before[i];
    if before[i].status.Dead? && before[i].payloadHash.Some? {
      if Revivable(before, ids, i) {
        forall k | k in now && Active(now[k])
          ensures now[k].payloadHash != now[i].payloadHash
        {
          assert Active(before[k]) || Revivable(before, ids, k);
        }
      }
      if Revivable(now, ids, i) {
        forall k | k in before && before[k].status.Dead? && before[k].payloadHash == before[i].payloadHash
          ensures i <= k
        {
          assert now[k].status.Dead? || Active(now[k]);
        }
        forall k | k in before && Active(before[k])
          ensures before[k].payloadHash != before[i].payloadHash
        {
          assert now[k] == before[k];
        }
      }
    }
  }

  function OlderDead(rows: Rows, i: RowId): set<RowId>
    requires i in rows
  {
    set k | k in rows && k < i && rows[k].status.Dead? && rows[k].payloadHash == rows[i].payloadHash
  }

  function ActiveTwins(rows: Rows, i: RowId): set<RowId>
    requires i in rows
  {
    set k | k in rows && Active(rows[k]) && rows[k].payloadHash == rows[i].payloadHash
  }

  lemma RevivableBySets(rows: Rows, ids: Option<set<RowId>>, i: RowId)
    requires i in rows
    ensures Revivable(rows, ids, i) <==>
              && rows[i].status.Dead? && (ids.None? || i in ids.value)
              && (rows[i].payloadHash.None? || (OlderDead(rows, i) == {} && ActiveTwins(rows, i) == {}))
  {
    var peers, active := OlderDead(rows, i), ActiveTwins(rows, i);
    if peers == {} {
      assert forall k :: k in rows && rows[k].status.Dead? && rows[k].payloadHash == rows[i].payloadHash ==> i <= k by {
        forall k | k in rows && rows[k].status.Dead? && rows[k].payloadHash == rows[i].payloadHash
          ensures i <= k
        {
          assert k !in peers;
        }
      }
    } else {
      var k :| k in peers;
    }
    if active == {} {
      forall k | k in rows && Active(rows[k])
        ensures rows[k].payloadHash != rows[i].payloadHash
      {
        assert k !in active;
      }
    } else {
      var k :| k in active;
    }
  }

  lemma VisitOne(before: Rows, ids: Option<set<RowId>>, todo: set<RowId>, id: RowId)
    requires id in before && id in todo
    ensures Partly(before, ids, todo - {id}) ==
            if Revivable(before, ids, id) then Partly(before, ids, todo)[id := RevivedRow(before[id])] else Partly(before, ids, todo)
    ensures RevivableIds(before, ids, todo - {id}) ==
            if Revivable(before, ids, id) then RevivableIds(before, ids, todo) + {id} else RevivableIds(before, ids, todo)
    ensures id !in RevivableIds(before, ids, todo)
    ensures id in Partly(before, ids, todo) && Partly(before, ids, todo)[id] == before[id]
  {
  }
}
