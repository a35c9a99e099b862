/** The extract_queue table as the leased extraction processor uses it, one
    function per transaction, and the class whose methods run those transactions. */
module ExtractionTable {
  import opened Common

  type RowId = nat
  type Token = nat
  type Clock = int

  /** A normalised proposal; its fields play no part in the protocol. */
  type Proposal = string

  /** The canonical proposal batch a worker persists before it writes anything. */
  datatype Snapshot = Snapshot(identity: string, proposals: seq<Proposal>)

  datatype Status = Pending | Processing | Dead

  /** One row. Every nullable column is optional on its own: that the lease
      columns travel together is proved, not built in. */
  datatype Row = Row(
    payload: string,
    payloadHash: Option<Digest<string>>,
    status: Status,
    attempts: nat,
    lastError: Option<string>,
    notBefore: Option<Clock>,
    leaseOwner: Option<string>,
    leaseUntil: Option<Clock>,
    leaseToken: Option<Token>,
    proposalJson: Option<Snapshot>,
    proposalHash: Option<Digest<Snapshot>>)

  type Rows = map<RowId, Row>

  datatype Claimed = Claimed(rowId: RowId, payload: string, digest: Digest<string>, attempts: nat, token: Token)

  /** Retry and lease configuration, shared by every worker on the table. */
  datatype Limits = Limits(maxAttempts: nat, leaseTicks: nat, retryTicks: nat)

  predicate Expired(r: Row, now: Clock)
  {
    r.status.Processing? && r.leaseUntil.Some? && r.leaseUntil.value <= now
  }

  /** The row's lease belongs to this worker and this claim. */
  predicate HeldBy(rows: Rows, id: RowId, owner: string, token: Token)
  {
    && id in rows
    && rows[id].status.Processing?
    && rows[id].leaseOwner == Some(owner)
    && rows[id].leaseToken == Some(token)
  }

  predicate Due(lim: Limits, r: Row, now: Clock)
  {
    && r.attempts < lim.maxAttempts
    && (r.notBefore.None? || r.notBefore.value <= now)
    && (r.status.Pending? || Expired(r, now))
  }

  function Unleased(r: Row): Row {
    r.(leaseOwner := None, leaseUntil := None, leaseToken := None)
  }

  function Swept(lim: Limits, r: Row, now: Clock): Row {
    if Expired(r, now) && r.attempts >= lim.maxAttempts
    then Unleased(r.(status := Dead, lastError := Some("attempts_exhausted")))
    else r
  }

  function SweptRows(lim: Limits, rows: Rows, now: Clock): Rows {
    map id | id in rows :: Swept(lim, rows[id], now)
  }

  function DueIds(lim: Limits, rows: Rows, now: Clock): set<RowId> {
    set id | id in rows && Due(lim, rows[id], now)
  }

  function DigestOf(r: Row): Digest<string> {
    if r.payloadHash.Some? then r.payloadHash.value else Digest(r.payload)
  }

  function ClaimOf(id: RowId, r: Row, token: Token): Claimed {
    Claimed(id, r.payload, DigestOf(r), r.attempts + 1, token)
  }

  function Leased(lim: Limits, r: Row, owner: string, now: Clock, token: Token): Row {
    r.(status := Processing, attempts := r.attempts + 1, leaseOwner := Some(owner),
       leaseUntil := Some(now + lim.leaseTicks), leaseToken := Some(token))
  }

  /** The claim transaction: dead-letter exhausted leases, then lease the oldest due row. */
  ghost function ClaimTxn(lim: Limits, rows: Rows, owner: string, now: Clock, token: Token): (Rows, Option<Claimed>)
  {
    var swept := SweptRows(lim, rows, now);
    var due := DueIds(lim, swept, now);
    if due == {} then (swept, None)
    else
      var id := Least(due);
      (swept[id := Leased(lim, swept[id], owner, now, token)], Some(ClaimOf(id, swept[id], token)))
  }

  function CompleteTxn(rows: Rows, owner: string, c: Claimed): Rows {
    if HeldBy(rows, c.rowId, owner, c.token) then rows - {c.rowId} else rows
  }

  predicate Renewable(rows: Rows, owner: string, c: Claimed, now: Clock)
  {
    && HeldBy(rows, c.rowId, owner, c.token)
    && rows[c.rowId].leaseUntil.Some?
    && rows[c.rowId].leaseUntil.value > now
  }

  function RenewTxn(lim: Limits, rows: Rows, owner: string, c: Claimed, now: Clock): Rows {
    if Renewable(rows, owner, c, now)
    then rows[c.rowId := rows[c.rowId].(leaseUntil := Some(now + lim.leaseTicks))]
    else rows
  }

  function FailTxn(lim: Limits, rows: Rows, owner: string, c: Claimed, error: string, permanent: bool, now: Clock): Rows {
    if !HeldBy(rows, c.rowId, owner, c.token) then rows
    else
      var r := rows[c.rowId];
      var dead := permanent || r.attempts >= lim.maxAttempts;
      rows[c.rowId := Unleased(r.(
        status := if dead then Dead else Pending,
        lastError := Some(error),
        notBefore := if dead then None else Some(now + lim.retryTicks)))]
  }

  predicate Persistable(rows: Rows, owner: string, c: Claimed)
  {
    && HeldBy(rows, c.rowId, owner, c.token)
    && rows[c.rowId].proposalJson.None?
    && rows[c.rowId].proposalHash.None?
  }

  function PersistTxn(rows: Rows, owner: string, c: Claimed, snap: Snapshot): Rows {
    if Persistable(rows, owner, c)
    then rows[c.rowId := rows[c.rowId].(proposalJson := Some(snap), proposalHash := Some(Digest(snap)))]
    else rows
  }

  /** What reading the snapshot under a lease yields: nothing yet, a stored
      batch, a lost lease, or a pair of columns that disagree. */
  datatype Loaded = NoSnapshot | Stored(snap: Snapshot) | LeaseLost | Inconsistent

  function LoadTxn(rows: Rows, owner: string, c: Claimed): Loaded {
    if !HeldBy(rows, c.rowId, owner, c.token) then LeaseLost
    else
      match (rows[c.rowId].proposalJson, rows[c.rowId].proposalHash)
      case (None, None) => NoSnapshot
      case (Some(snap), Some(hash)) => if hash == Digest(snap) then Stored(snap) else Inconsistent
      case _ => Inconsistent
  }

  /** `ExtractionEnqueuer.enqueue_after_commit`: an active copy is reused. */
  function ActiveCopies(rows: Rows, payload: string): set<RowId> {
    set id | id in rows && !rows[id].status.Dead? && rows[id].payloadHash == Some(Digest(payload))
  }

  function FreshRow(payload: string): Row {
    Row(payload, Some(Digest(payload)), Pending, 0, None, None, None, None, None, None, None)
  }

  /** Lease columns are set exactly while a row is being processed, attempts
      stay within the limit, and a waiting row always has an attempt left. */
  predicate RowOk(lim: Limits, r: Row)
  {
    && (r.status.Processing? <==> r.leaseToken.Some?)
    && (r.status.Processing? <==> r.leaseUntil.Some?)
    && (r.status.Processing? <==> r.leaseOwner.Some?)
    && r.attempts <= lim.maxAttempts
    && (r.status.Pending? ==> r.attempts < lim.maxAttempts)
    && (r.proposalJson.Some? <==> r.proposalHash.Some?)
    && (r.proposalJson.Some? ==> r.proposalHash.value == Digest(r.proposalJson.value))
    && DigestOf(r) == Digest(r.payload)
  }

  /** One connection's processor over the shared table. */
  class ExtractionProcessor {
    const lim: Limits
    const workerId: string
    var rows: Rows
    var nextId: RowId

    constructor (lim: Limits, workerId: string)
      ensures this.lim == lim && this.workerId == workerId && rows == map[] && nextId == 0
    {
      this.lim, this.workerId, rows, nextId := lim, workerId, map[], 0;
    }

    method Claim(now: Clock, token: Token) returns (claim: Option<Claimed>)
      modifies this`rows
      ensures (rows, claim) == ClaimTxn(lim, old(rows), workerId, now, token)
    {
      rows := map id | id in rows ::
        if rows[id].status.Processing? && rows[id].leaseUntil.Some? && rows[id].leaseUntil.value <= now
           && rows[id].attempts >= lim.maxAttempts
        then rows[id].(status := Dead, lastError := Some("attempts_exhausted"),
                       leaseOwner := None, leaseUntil := None, leaseToken := None)
        else rows[id];
      assert rows == SweptRows(lim, old(rows), now);
      var due := set id | id in rows && Due(lim, rows[id], now);
      if due == {} {
        return None;
      }
      LeastExists(due);
      var id: nat :| IsLeast(due, id);
      var attempts := rows[id].attempts + 1;
      claim := Some(Claimed(id, rows[id].payload, DigestOf(rows[id]), attempts, token));
      rows := rows[id := rows[id].(
        status := Processing, attempts := attempts, leaseOwner := Some(workerId),
        leaseUntil := Some(now + lim.leaseTicks), leaseToken := Some(token))];
    }

    method Complete(c: Claimed) returns (ok: bool)
      modifies this`rows
      ensures rows == CompleteTxn(old(rows), workerId, c)
      ensures ok == HeldBy(old(rows), c.rowId, workerId, c.token)
    {
      var before := rows;
      rows := map id | id in before && !(id == c.rowId && HeldBy(before, id, workerId, c.token)) :: before[id];
      if HeldBy(before, c.rowId, workerId, c.token) {
        assert rows == before - {c.rowId};
        assert before.Keys == rows.Keys + {c.rowId};
      } else {
        assert rows == before;
      }
      ok := |before| - |rows| == 1;
    }

    method Renew(c: Claimed, now: Clock) returns (ok: bool)
      modifies this`rows
      ensures rows == RenewTxn(lim, old(rows), workerId, c, now)
      ensures ok == Renewable(old(rows), workerId, c, now)
    {
      ok := HeldBy(rows, c.rowId, workerId, c.token)
            && rows[c.rowId].leaseUntil.Some? && now < rows[c.rowId].leaseUntil.value;
      if ok {
        var until := now + lim.leaseTicks;
        rows := rows[c.rowId := rows[c.rowId].(leaseUntil := Some(until))];
      }
    }

    method Fail(c: Claimed, error: string, permanent: bool, now: Clock) returns (attempts: Option<nat>)
      modifies this`rows
      ensures rows == FailTxn(lim, old(rows), workerId, c, error, permanent, now)
      ensures attempts == if HeldBy(old(rows), c.rowId, workerId, c.token)
                          then Some(old(rows)[c.rowId].attempts) else None
    {
      if !HeldBy(rows, c.rowId, workerId, c.token) {
        return None;
      }
      var spent := rows[c.rowId].attempts;
      var r := rows[c.rowId].(lastError := Some(error), leaseOwner := None, leaseUntil := None, leaseToken := None);
      if permanent || spent >= lim.maxAttempts {
        r := r.(status := Dead, notBefore := None);
      } else {
        r := r.(status := Pending, notBefore := Some(now + lim.retryTicks));
      }
      rows := rows[c.rowId := r];
      attempts := Some(spent);
    }

    method PersistSnapshot(c: Claimed, snap: Snapshot) returns (ok: bool)
      modifies this`rows
      ensures rows == PersistTxn(old(rows), workerId, c, snap)
      ensures ok == Persistable(old(rows), workerId, c)
    {
      ok := false;
      if HeldBy(rows, c.rowId, workerId, c.token) {
        var r := rows[c.rowId];
        if r.proposalJson.None? && r.proposalHash.None? {
          rows := rows[c.rowId := r.(proposalJson := Some(snap), proposalHash := Some(Digest(snap)))];
          ok := true;
        }
      }
    }

    method LoadSnapshot(c: Claimed) returns (loaded: Loaded)
      ensures loaded == LoadTxn(rows, workerId, c)
    {
      if !HeldBy(rows, c.rowId, workerId, c.token) {
        return LeaseLost;
      }
      var json, hash := rows[c.rowId].proposalJson, rows[c.rowId].proposalHash;
      if json.None? != hash.None? {
        return Inconsistent;
      }
      if json.None? {
        return NoSnapshot;
      }
      return if hash == Some(Digest(json.value)) then Stored(json.value) else Inconsistent;
    }

    method Enqueue(payload: string) returns (id: RowId)
      requires forall k :: k in rows ==> k < nextId
      modifies this
      ensures forall k :: k in rows ==> k < nextId
      ensures var copies := ActiveCopies(old(rows), payload);
              if copies == {} then id == old(nextId) && nextId == id + 1 && rows == old(rows)[id := FreshRow(payload)]
              else id == Least(copies) && rows == old(rows) && nextId == old(nextId)
    {
      var existing := ActiveCopies(rows, payload);
      if existing != {} {
        LeastExists(existing);
        id :| IsLeast(existing, id);
        return;
      }
      id := nextId;
      nextId := nextId + 1;
      rows := rows[id := FreshRow(payload)];
    }
  }
}
