/** Any number of extraction workers over one table and one write log. A worker
    is a program counter; a run is an arbitrary list of actions, so every
    interleaving, crash point, lease expiry and model answer is a run. */
module ExtractionRuns {
  import opened Common
  import opened ExtractionTable

  type WorkerId = nat
  type ClientId = string

  const MAX_EXTRACTED_MEMORIES: nat := 32

  /** `inserted`, `dedup` and the other stored outcomes, against `rejected` and `needs_review`. */
  datatype Outcome = Accepted | Refused

  /** The idempotency key of one proposal, under the client that owns the row. */
  datatype Key = Key(client: ClientId, digest: Digest<string>, snapshot: Digest<Snapshot>, index: nat)

  /** A logged write. Requests under one key differ only in the row id their
      metadata carries, so the row id stands for the request hash. */
  datatype Entry = Entry(rowId: RowId, outcome: Outcome)

  /** What the model returns: a batch, or an exception. */
  datatype Answer = Proposed(identity: string, proposals: seq<Proposal>) | Raised

  /** Fixed configuration: limits, the envelope decoder (the client a payload
      names, if it is a valid envelope), the proposal normaliser and the screen
      a stored snapshot must pass before its first write. */
  datatype Config = Config(
    lim: Limits,
    client: string -> Option<ClientId>,
    normalise: (string, Proposal) -> Option<Proposal>,
    screen: (string, Snapshot) -> bool)

  /** Where a worker stands between two transactions of `process_one`. */
  datatype Phase =
    | Idle
    | Loading(c: Claimed)
    | ReadyToCall(c: Claimed)
    | Calling(c: Claimed)
    | Answered(c: Claimed, snap: Snapshot)
    | Writing(c: Claimed, snap: Snapshot, next: nat)
    | Failing(c: Claimed, permanent: bool)

  datatype Worker = Worker(name: string, phase: Phase)

  /** The shared tables, the workers, and history kept only to state properties:
      payloads and snapshots ever stored per row, tokens ever issued, the
      latest token per row, claims per row, completed rows, and the tokens that
      were issued when the row already had a snapshot. */
  datatype State = State(
    rows: Rows,
    nextId: RowId,
    log: map<Key, Entry>,
    workers: map<WorkerId, Worker>,
    payloads: map<RowId, string>,
    snapshots: map<RowId, Snapshot>,
    issued: map<Token, RowId>,
    latest: map<RowId, Token>,
    grants: map<RowId, nat>,
    completed: set<RowId>,
    late: set<Token>)

  datatype Action =
    | Enqueue(payload: string)
    | Claim(w: WorkerId, now: Clock, token: Token)
    | Load(w: WorkerId)
    | StartCall(w: WorkerId)
    | Renew(w: WorkerId, now: Clock)
    | Return(w: WorkerId, answer: Answer)
    | Persist(w: WorkerId)
    | Write(w: WorkerId, decision: Option<Outcome>, raised: bool)
    | Complete(w: WorkerId)
    | Fail(w: WorkerId, error: string, now: Clock)
    | Crash(w: WorkerId)

  function Move(s: State, w: WorkerId, phase: Phase): State
    requires w in s.workers
  {
    s.(workers := s.workers[w := s.workers[w].(phase := phase)])
  }

  // ------------------------------------------------------------------
  // The actions
  // ------------------------------------------------------------------

  ghost function DoEnqueue(s: State, payload: string): State {
    if ActiveCopies(s.rows, payload) != {} then s
    else s.(rows := s.rows[s.nextId := FreshRow(payload)],
            nextId := s.nextId + 1,
            payloads := s.payloads[s.nextId := payload],
            grants := s.grants[s.nextId := 0])
  }

  ghost function DoClaim(cfg: Config, s: State, w: WorkerId, now: Clock, token: Token): State
    requires w in s.workers
  {
    if !s.workers[w].phase.Idle? || token in s.issued then s
    else
      var (rows, claim) := ClaimTxn(cfg.lim, s.rows, s.workers[w].name, now, token);
      if claim.None? then s.(rows := rows)
      else
        var c := claim.value;
        Move(s, w, Loading(c)).(
          rows := rows,
          issued := s.issued[token := c.rowId],
          latest := s.latest[c.rowId := token],
          grants := s.grants[c.rowId := (if c.rowId in s.grants then s.grants[c.rowId] else 0) + 1],
          late := if c.rowId in s.snapshots then s.late + {token} else s.late)
  }

  /** `_prepare_snapshot` decides from the stored batch and the payload alone. */
  function Prepared(cfg: Config, c: Claimed, snap: Snapshot): Phase {
    if cfg.screen(c.payload, snap) then Writing(c, snap, 0) else Failing(c, true)
  }

  /** Decode the envelope, read the snapshot under the lease, decide what comes next. */
  function AfterLoad(cfg: Config, rows: Rows, name: string, c: Claimed): Phase {
    if cfg.client(c.payload).None? then Failing(c, true)
    else
      match LoadTxn(rows, name, c)
      case NoSnapshot => ReadyToCall(c)
      case Stored(snap) => Prepared(cfg, c, snap)
      case LeaseLost => Failing(c, false)
      case Inconsistent => Failing(c, true)
  }

  function DoLoad(cfg: Config, s: State, w: WorkerId): State
    requires w in s.workers && s.workers[w].phase.Loading?
  {
    Move(s, w, AfterLoad(cfg, s.rows, s.workers[w].name, s.workers[w].phase.c))
  }

  /** A heartbeat during the model call; a lost lease abandons the call. */
  function DoRenew(cfg: Config, s: State, w: WorkerId, now: Clock): State
    requires w in s.workers && s.workers[w].phase.Calling?
  {
    var p := s.workers[w].phase;
    Move(s, w, if Renewable(s.rows, s.workers[w].name, p.c, now) then p else Failing(p.c, false)).(
      rows := RenewTxn(cfg.lim, s.rows, s.workers[w].name, p.c, now))
  }

  function NormaliseAll(cfg: Config, payload: string, proposals: seq<Proposal>): Option<seq<Proposal>> {
    if proposals == [] then Some([])
    else
      match (cfg.normalise(payload, proposals[0]), NormaliseAll(cfg, payload, proposals[1..]))
      case (Some(p), Some(rest)) => Some([p] + rest)
      case _ => None
  }

  function MakeSnapshot(cfg: Config, payload: string, answer: Answer): Option<Snapshot>
    requires answer.Proposed?
  {
    if |answer.proposals| > MAX_EXTRACTED_MEMORIES then None
    else
      match NormaliseAll(cfg, payload, answer.proposals)
      case Some(ps) => Some(Snapshot(answer.identity, ps))
      case None => None
  }

  function AfterAnswer(cfg: Config, c: Claimed, answer: Answer): Phase {
    if answer.Raised? then Failing(c, false)
    else
      var snap := MakeSnapshot(cfg, c.payload, answer);
      if snap.Some? then Answered(c, snap.value) else Failing(c, true)
  }

  function DoReturn(cfg: Config, s: State, w: WorkerId, answer: Answer): State
    requires w in s.workers && s.workers[w].phase.Calling?
  {
    Move(s, w, AfterAnswer(cfg, s.workers[w].phase.c, answer))
  }

  function DoPersist(cfg: Config, s: State, w: WorkerId): State
    requires w in s.workers && s.workers[w].phase.Answered?
  {
    var p := s.workers[w].phase;
    var stored := Persistable(s.rows, s.workers[w].name, p.c);
    Move(s, w, if stored then Prepared(cfg, p.c, p.snap) else Failing(p.c, false)).(
      rows := PersistTxn(s.rows, s.workers[w].name, p.c, p.snap),
      snapshots := if stored then s.snapshots[p.c.rowId := p.snap] else s.snapshots)
  }

  function KeyOf(client: ClientId, payload: string, snap: Snapshot, index: nat): Key {
    Key(client, Digest(payload), Digest(snap), index)
  }

  /** `memory.write`: a repeat returns the stored outcome, the same key with a
      different request is a conflict, and a write may raise without logging. */
  function WriteTxn(log: map<Key, Entry>, key: Key, rowId: RowId, decision: Option<Outcome>)
    : (map<Key, Entry>, Option<Outcome>)
  {
    if decision.None? then (log, None)
    else if key in log then (log, if log[key].rowId == rowId then Some(log[key].outcome) else None)
    else (log[key := Entry(rowId, decision.value)], decision)
  }

  function AfterWrite(s: State, key: Key, rowId: RowId, decision: Option<Outcome>): State {
    s.(log := WriteTxn(s.log, key, rowId, decision).0)
  }

  /** What reaches the worker: a write may also raise after it was logged. */
  function Heard(outcome: Option<Outcome>, raised: bool): Option<Outcome> {
    if raised then None else outcome
  }

  /** A raised write is retried, a refused one kills the row, an accepted one moves on. */
  function NextPhase(p: Phase, outcome: Option<Outcome>): Phase
    requires p.Writing?
  {
    match outcome
    case None => Failing(p.c, false)
    case Some(Refused) => Failing(p.c, true)
    case Some(Accepted) => p.(next := p.next + 1)
  }

  function DoWrite(cfg: Config, s: State, w: WorkerId, decision: Option<Outcome>, raised: bool): State
    requires w in s.workers && s.workers[w].phase.Writing?
  {
    var p := s.workers[w].phase;
    if p.next >= |p.snap.proposals| || cfg.client(p.c.payload).None? then s
    else
      var key := Key(cfg.client(p.c.payload).value, p.c.digest, Digest(p.snap), p.next);
      Move(AfterWrite(s, key, p.c.rowId, decision), w, NextPhase(p, Heard(WriteTxn(s.log, key, p.c.rowId, decision).1, raised)))
  }

  function DoComplete(s: State, w: WorkerId): State
    requires w in s.workers && s.workers[w].phase.Writing?
  {
    var p := s.workers[w].phase;
    if p.next < |p.snap.proposals| then s
    else
      var held := HeldBy(s.rows, p.c.rowId, s.workers[w].name, p.c.token);
      Move(s, w, if held then Idle else Failing(p.c, false)).(
        rows := CompleteTxn(s.rows, s.workers[w].name, p.c),
        completed := if held then s.completed + {p.c.rowId} else s.completed)
  }

  function DoFail(cfg: Config, s: State, w: WorkerId, error: string, now: Clock): State
    requires w in s.workers && s.workers[w].phase.Failing?
  {
    var Failing(c, permanent) := s.workers[w].phase;
    Move(s, w, Idle).(rows := FailTxn(cfg.lim, s.rows, s.workers[w].name, c, error, permanent, now))
  }

  /** An action that does not fit the worker's phase changes nothing. */
  ghost function Apply(cfg: Config, s: State, a: Action): State {
    if a.Enqueue? then DoEnqueue(s, a.payload)
    else if a.w !in s.workers then s
    else
      var phase := s.workers[a.w].phase;
      match a
      case Claim(w, now, token) => DoClaim(cfg, s, w, now, token)
      case Load(w) => if phase.Loading? then DoLoad(cfg, s, w) else s
      case StartCall(w) => if phase.ReadyToCall? then Move(s, w, Calling(phase.c)) else s
      case Renew(w, now) => if phase.Calling? then DoRenew(cfg, s, w, now) else s
      case Return(w, answer) => if phase.Calling? then DoReturn(cfg, s, w, answer) else s
      case Persist(w) => if phase.Answered? then DoPersist(cfg, s, w) else s
      case Write(w, decision, raised) => if phase.Writing? then DoWrite(cfg, s, w, decision, raised) else s
      case Complete(w) => if phase.Writing? then DoComplete(s, w) else s
      case Fail(w, error, now) => if phase.Failing? then DoFail(cfg, s, w, error, now) else s
      case Crash(w) => Move(s, w, Idle)
      case Enqueue(_) => s
  }

  ghost function Run(cfg: Config, s: State, actions: seq<Action>): State
    decreases |actions|
  {
    if actions == [] then s else Run(cfg, Apply(cfg, s, actions[0]), actions[1..])
  }

  /** An empty queue and idle workers; names need not be distinct. */
  ghost predicate Initial(s: State) {
    && s.rows == map[] && s.log == map[] && s.payloads == map[] && s.snapshots == map[]
    && s.issued == map[] && s.latest == map[] && s.grants == map[]
    && s.completed == {} && s.late == {}
    && forall w :: w in s.workers ==> s.workers[w].phase.Idle?
  }

  ghost predicate Reachable(cfg: Config, s: State) {
    exists s0, actions :: Initial(s0) && s == Run(cfg, s0, actions)
  }

  // ------------------------------------------------------------------
  // The invariant
  // ------------------------------------------------------------------

  ghost predicate RowInv(cfg: Config, s: State, id: RowId)
    requires id in s.rows
  {
    var r := s.rows[id];
    && id < s.nextId && RowOk(cfg.lim, r)
    && id in s.payloads && s.payloads[id] == r.payload
    && id !in s.completed
    && id in s.grants && s.grants[id] == r.attempts
    && r.proposalJson == (if id in s.snapshots then Some(s.snapshots[id]) else None)
    && (r.leaseToken.Some? ==>
         var t := r.leaseToken.value;
         t in s.issued && s.issued[t] == id && id in s.latest && s.latest[id] == t)
  }

  ghost predicate RowsInv(cfg: Config, s: State) {
    forall id {:trigger RowInv(cfg, s, id)} :: id in s.rows ==> RowInv(cfg, s, id)
  }

  ghost predicate HistoryInv(cfg: Config, s: State) {
    && (forall id :: id in s.payloads ==> id < s.nextId)
    && (forall id :: id in s.grants ==> id < s.nextId && s.grants[id] <= cfg.lim.maxAttempts)
    && s.completed <= s.snapshots.Keys <= s.payloads.Keys
    && (forall t :: t in s.late ==> t in s.issued && s.issued[t] in s.snapshots)
  }

  predicate InCall(p: Phase) {
    p.ReadyToCall? || p.Calling? || p.Answered?
  }

  ghost predicate Current(s: State, c: Claimed) {
    c.rowId in s.rows && s.rows[c.rowId].leaseToken == Some(c.token)
  }

  /** Row `id` has a snapshot, a payload and a client to write for. */
  ghost predicate Writable(cfg: Config, s: State, id: RowId) {
    id in s.payloads && id in s.snapshots && cfg.client(s.payloads[id]).Some?
  }

  ghost function RowKey(cfg: Config, s: State, id: RowId, j: nat): Key
    requires Writable(cfg, s, id)
  {
    KeyOf(cfg.client(s.payloads[id]).value, s.payloads[id], s.snapshots[id], j)
  }

  /** Proposal `j` of the row's batch is logged as the row's own accepted write. */
  ghost predicate Logged(cfg: Config, s: State, id: RowId, j: nat)
    requires Writable(cfg, s, id)
  {
    var key := RowKey(cfg, s, id, j);
    key in s.log && s.log[key] == Entry(id, Accepted)
  }

  ghost predicate LoggedUpTo(cfg: Config, s: State, id: RowId, n: nat)
    requires Writable(cfg, s, id)
  {
    forall j: nat {:trigger Logged(cfg, s, id, j)} :: j < n ==> Logged(cfg, s, id, j)
  }

  ghost predicate PhaseOk(cfg: Config, s: State, p: Phase) {
    !p.Idle? ==>
      var c := p.c;
      && c.token in s.issued && s.issued[c.token] == c.rowId
      && c.rowId in s.payloads && s.payloads[c.rowId] == c.payload && c.digest == Digest(c.payload)
      && (InCall(p) ==>
           && c.token !in s.late && cfg.client(c.payload).Some?
           && (Current(s, c) ==> c.rowId !in s.snapshots))
      && (p.Writing? ==>
           && Writable(cfg, s, c.rowId) && s.snapshots[c.rowId] == p.snap
           && p.next <= |p.snap.proposals|
           && LoggedUpTo(cfg, s, c.rowId, p.next))
  }

  ghost predicate WorkerOk(cfg: Config, s: State, w: WorkerId)
    requires w in s.workers
  {
    PhaseOk(cfg, s, s.workers[w].phase)
  }

  ghost predicate WorkersOk(cfg: Config, s: State) {
    forall w {:trigger WorkerOk(cfg, s, w)} :: w in s.workers ==> WorkerOk(cfg, s, w)
  }

  /** No two workers act on the same claim. */
  ghost predicate DistinctTokens(s: State) {
    forall w, x :: w in s.workers && x in s.workers && w != x
                   && !s.workers[w].phase.Idle? && !s.workers[x].phase.Idle?
                   ==> s.workers[w].phase.c.token != s.workers[x].phase.c.token
  }

  ghost predicate EntryOk(cfg: Config, s: State, k: Key)
    requires k in s.log
  {
    var r := s.log[k].rowId;
    && Writable(cfg, s, r)
    && k == RowKey(cfg, s, r, k.index)
    && k.index < |s.snapshots[r].proposals|
    && LoggedUpTo(cfg, s, r, k.index)
  }

  ghost predicate EntriesOk(cfg: Config, s: State) {
    forall k {:trigger EntryOk(cfg, s, k)} :: k in s.log ==> EntryOk(cfg, s, k)
  }

  /** A completed row wrote its whole batch. */
  ghost predicate CompletedOk(cfg: Config, s: State, id: RowId) {
    && Writable(cfg, s, id)
    && LoggedUpTo(cfg, s, id, |s.snapshots[id].proposals|)
  }

  ghost predicate AllCompletedOk(cfg: Config, s: State) {
    forall id {:trigger CompletedOk(cfg, s, id)} :: id in s.completed ==> CompletedOk(cfg, s, id)
  }

  ghost predicate Inv(cfg: Config, s: State) {
    && RowsInv(cfg, s) && HistoryInv(cfg, s)
    && WorkersOk(cfg, s) && DistinctTokens(s)
    && EntriesOk(cfg, s) && AllCompletedOk(cfg, s)
  }
}
