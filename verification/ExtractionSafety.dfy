/** Exactly-once extraction, lease fencing and bounded work, over every run. */
module ExtractionSafety {
  import opened Common
  import opened ExtractionTable
  import opened ExtractionRuns

  /** Nothing that was ever recorded changes: log entries, snapshots, payloads, token owners. */
  ghost predicate Extends(s: State, t: State) {
    && (forall k :: k in s.log ==> k in t.log && t.log[k] == s.log[k])
    && (forall id :: id in s.payloads ==> id in t.payloads && t.payloads[id] == s.payloads[id])
    && (forall id :: id in s.snapshots ==> id in t.snapshots && t.snapshots[id] == s.snapshots[id])
    && (forall k :: k in s.issued ==> k in t.issued && t.issued[k] == s.issued[k])
    && s.completed <= t.completed
  }

  lemma LoggedStays(cfg: Config, s: State, t: State, id: RowId, n: nat)
    requires Extends(s, t) && Writable(cfg, s, id) && LoggedUpTo(cfg, s, id, n)
    ensures Writable(cfg, t, id) && LoggedUpTo(cfg, t, id, n)
  {
    forall j: nat | j < n
      ensures Logged(cfg, t, id, j)
    {
      assert Logged(cfg, s, id, j);
    }
  }

  /** The log clauses survive any step that adds no log entry and completes no row. */
  lemma LogInvStays(cfg: Config, s: State, t: State)
    requires EntriesOk(cfg, s) && AllCompletedOk(cfg, s)
    requires Extends(s, t) && t.log == s.log && t.completed == s.completed
    ensures EntriesOk(cfg, t) && AllCompletedOk(cfg, t)
  {
    forall k | k in t.log
      ensures EntryOk(cfg, t, k)
    {
      assert EntryOk(cfg, s, k);
      LoggedStays(cfg, s, t, s.log[k].rowId, k.index);
    }
    forall id | id in t.completed
      ensures CompletedOk(cfg, t, id)
    {
      assert CompletedOk(cfg, s, id);
      LoggedStays(cfg, s, t, id, |s.snapshots[id].proposals|);
    }
  }

  /** A phase stays in order unless its claim became current again or its row
      acquired a snapshot while the claim was current. */
  lemma PhaseStays(cfg: Config, s: State, t: State, p: Phase)
    requires PhaseOk(cfg, s, p) && Extends(s, t)
    requires !p.Idle? && InCall(p) ==> p.c.token !in t.late
    requires !p.Idle? && InCall(p) && Current(t, p.c) ==> Current(s, p.c) && (p.c.rowId in t.snapshots ==> p.c.rowId in s.snapshots)
    ensures PhaseOk(cfg, t, p)
  {
    if p.Writing? {
      LoggedStays(cfg, s, t, p.c.rowId, p.next);
    }
  }

  /** Workers stay in order under a step that only rewrites rows, if no row's
      token changes except to none. */
  lemma WorkersStay(cfg: Config, s: State, t: State)
    requires WorkersOk(cfg, s) && Extends(s, t)
    requires t.workers == s.workers && t.late == s.late && t.snapshots == s.snapshots
    requires forall id :: id in t.rows && t.rows[id].leaseToken.Some? ==> id in s.rows && s.rows[id].leaseToken == t.rows[id].leaseToken
    ensures WorkersOk(cfg, t)
  {
    forall w | w in t.workers
      ensures WorkerOk(cfg, t, w)
    {
      assert WorkerOk(cfg, s, w);
      PhaseStays(cfg, s, t, t.workers[w].phase);
    }
  }

  ghost function Inserted(s: State, payload: string): State {
    s.(rows := s.rows[s.nextId := FreshRow(payload)], nextId := s.nextId + 1,
       payloads := s.payloads[s.nextId := payload], grants := s.grants[s.nextId := 0])
  }

  lemma InsertKeepsInv(cfg: Config, s: State, payload: string)
    requires Inv(cfg, s) && cfg.lim.maxAttempts > 0
    ensures Inv(cfg, Inserted(s, payload)) && Extends(s, Inserted(s, payload))
  {
    var t := Inserted(s, payload);
    assert s.nextId !in s.payloads;
    assert Extends(s, t);
    LogInvStays(cfg, s, t);
    forall id | id in t.rows
      ensures RowInv(cfg, t, id)
    {
      assert id in s.rows ==> RowInv(cfg, s, id);
    }
    assert forall id :: id in t.rows && t.rows[id].leaseToken.Some? ==> id in s.rows && s.rows[id].leaseToken == t.rows[id].leaseToken;
    WorkersStay(cfg, s, t);
  }

  lemma EnqueueKeepsInv(cfg: Config, s: State, payload: string)
    requires Inv(cfg, s) && cfg.lim.maxAttempts > 0
    ensures Inv(cfg, DoEnqueue(s, payload)) && Extends(s, DoEnqueue(s, payload))
  {
    if ActiveCopies(s.rows, payload) == {} {
      InsertKeepsInv(cfg, s, payload);
    }
  }

  lemma SweepKeepsInv(cfg: Config, s: State, now: Clock)
    requires Inv(cfg, s)
    ensures Inv(cfg, s.(rows := SweptRows(cfg.lim, s.rows, now)))
  {
    var t := s.(rows := SweptRows(cfg.lim, s.rows, now));
    LogInvStays(cfg, s, t);
    WorkersStay(cfg, s, t);
    forall id | id in t.rows
      ensures RowInv(cfg, t, id)
    {
      assert RowInv(cfg, s, id);
    }
  }

  /** The second half of the claim: leasing row `id` of an already swept table. */
  ghost function Grant(cfg: Config, s: State, w: WorkerId, now: Clock, token: Token, id: RowId): State
    requires w in s.workers && id in s.rows
  {
    Move(s, w, Loading(ClaimOf(id, s.rows[id], token))).(
      rows := s.rows[id := Leased(cfg.lim, s.rows[id], s.workers[w].name, now, token)],
      issued := s.issued[token := id],
      latest := s.latest[id := token],
      grants := s.grants[id := (if id in s.grants then s.grants[id] else 0) + 1],
      late := if id in s.snapshots then s.late + {token} else s.late)
  }

  lemma GrantKeepsInv(cfg: Config, s: State, w: WorkerId, now: Clock, token: Token, id: RowId)
    requires Inv(cfg, s) && w in s.workers && s.workers[w].phase.Idle? && token !in s.issued
    requires id in s.rows && Due(cfg.lim, s.rows[id], now)
    ensures Inv(cfg, Grant(cfg, s, w, now, token, id)) && Extends(s, Grant(cfg, s, w, now, token, id))
  {
    var t := Grant(cfg, s, w, now, token, id);
    GrantKeepsRows(cfg, s, w, now, token, id);
    LogInvStays(cfg, s, t);
    GrantKeepsWorkers(cfg, s, w, now, token, id);
  }

  lemma GrantKeepsRows(cfg: Config, s: State, w: WorkerId, now: Clock, token: Token, id: RowId)
    requires RowsInv(cfg, s) && HistoryInv(cfg, s) && w in s.workers && token !in s.issued
    requires id in s.rows && Due(cfg.lim, s.rows[id], now)
    ensures var t := Grant(cfg, s, w, now, token, id);
            RowsInv(cfg, t) && HistoryInv(cfg, t) && Extends(s, t)
  {
    var t := Grant(cfg, s, w, now, token, id);
    assert RowInv(cfg, s, id);
    forall k | k in t.rows
      ensures RowInv(cfg, t, k)
    {
      assert RowInv(cfg, s, k);
    }
  }

  lemma GrantKeepsWorkers(cfg: Config, s: State, w: WorkerId, now: Clock, token: Token, id: RowId)
    requires WorkersOk(cfg, s) && DistinctTokens(s) && w in s.workers && token !in s.issued
    requires id in s.rows && RowInv(cfg, s, id)
    requires Extends(s, Grant(cfg, s, w, now, token, id))
    ensures var t := Grant(cfg, s, w, now, token, id);
            WorkersOk(cfg, t) && DistinctTokens(t)
  {
    var t := Grant(cfg, s, w, now, token, id);
    forall x | x in t.workers
      ensures WorkerOk(cfg, t, x)
      ensures x != w && !t.workers[x].phase.Idle? ==> t.workers[x].phase.c.token != token
    {
      assert WorkerOk(cfg, s, x);
      if x != w {
        PhaseStays(cfg, s, t, t.workers[x].phase);
      }
    }
  }

  /** A claim that is not refused is a sweep, then a grant if a row is due. */
  lemma ClaimIsSweepThenGrant(cfg: Config, s: State, w: WorkerId, now: Clock, token: Token)
    requires w in s.workers && s.workers[w].phase.Idle? && token !in s.issued
    ensures var swept := s.(rows := SweptRows(cfg.lim, s.rows, now));
            var due := DueIds(cfg.lim, swept.rows, now);
            DoClaim(cfg, s, w, now, token) == if due == {} then swept else Grant(cfg, swept, w, now, token, Least(due))
  {
  }

  lemma ClaimKeepsInv(cfg: Config, s: State, w: WorkerId, now: Clock, token: Token)
    requires Inv(cfg, s) && w in s.workers
    ensures Inv(cfg, DoClaim(cfg, s, w, now, token)) && Extends(s, DoClaim(cfg, s, w, now, token))
  {
    if s.workers[w].phase.Idle? && token !in s.issued {
      var swept := s.(rows := SweptRows(cfg.lim, s.rows, now));
      SweepKeepsInv(cfg, s, now);
      GrantedClaimKeepsInv(cfg, s, swept, w, now, token);
    }
  }

  lemma ListedIsDue(lim: Limits, rows: Rows, now: Clock, id: RowId)
    requires id in DueIds(lim, rows, now)
    ensures id in rows && Due(lim, rows[id], now)
  {
  }

  /** The claim after its sweep. */
  lemma GrantedClaimKeepsInv(cfg: Config, s: State, swept: State, w: WorkerId, now: Clock, token: Token)
    requires Inv(cfg, swept) && w in s.workers && s.workers[w].phase.Idle? && token !in s.issued
    requires swept == s.(rows := SweptRows(cfg.lim, s.rows, now))
    ensures Inv(cfg, DoClaim(cfg, s, w, now, token)) && Extends(s, DoClaim(cfg, s, w, now, token))
  {
    hide Inv, DoClaim, SweptRows, Grant, DueIds, Due;
    ClaimIsSweepThenGrant(cfg, s, w, now, token);
    var due := DueIds(cfg.lim, swept.rows, now);
    if due != {} {
      var id := Least(due);
      ListedIsDue(cfg.lim, swept.rows, now, id);
      GrantKeepsInv(cfg, swept, w, now, token, id);
    }
  }

  /** Steps that move one worker and leave every table alone. */
  lemma MoveKeepsInv(cfg: Config, s: State, w: WorkerId, p: Phase)
    requires Inv(cfg, s) && w in s.workers
    requires !p.Idle? ==> !s.workers[w].phase.Idle? && p.c == s.workers[w].phase.c
    requires PhaseOk(cfg, s, p)
    ensures Inv(cfg, Move(s, w, p)) && Extends(s, Move(s, w, p))
  {
    var t := Move(s, w, p);
    LogInvStays(cfg, s, t);
    forall x | x in t.workers
      ensures WorkerOk(cfg, t, x)
    {
      assert WorkerOk(cfg, s, x);
      PhaseStays(cfg, s, t, t.workers[x].phase);
    }
    forall id | id in t.rows
      ensures RowInv(cfg, t, id)
    {
      assert RowInv(cfg, s, id);
    }
  }

  lemma LoadKeepsInv(cfg: Config, s: State, w: WorkerId)
    requires Inv(cfg, s) && w in s.workers && s.workers[w].phase.Loading?
    ensures Inv(cfg, DoLoad(cfg, s, w)) && Extends(s, DoLoad(cfg, s, w))
  {
    var c := s.workers[w].phase.c;
    assert WorkerOk(cfg, s, w);
    hide Inv, Extends, Move, LoggedUpTo, Writable;
    MoveKeepsInv(cfg, s, w, Failing(c, true));
    MoveKeepsInv(cfg, s, w, Failing(c, false));
    if cfg.client(c.payload).Some? && HeldBy(s.rows, c.rowId, s.workers[w].name, c.token) {
      assert RowInv(cfg, s, c.rowId);
      match LoadTxn(s.rows, s.workers[w].name, c) {
        case NoSnapshot => MoveKeepsInv(cfg, s, w, ReadyToCall(c));
        case Stored(snap) => MoveKeepsInv(cfg, s, w, Prepared(cfg, c, snap));
        case _ =>
      }
    }
  }

  /** Replacing a row by one with the same lease token or none. */
  lemma RowUpdateKeepsInv(cfg: Config, s: State, id: RowId, r: Row)
    requires Inv(cfg, s) && id in s.rows && RowOk(cfg.lim, r)
    requires r.payload == s.rows[id].payload && r.attempts == s.rows[id].attempts
    requires r.proposalJson == s.rows[id].proposalJson
    requires r.leaseToken == s.rows[id].leaseToken || r.leaseToken.None?
    ensures Inv(cfg, s.(rows := s.rows[id := r])) && Extends(s, s.(rows := s.rows[id := r]))
  {
    var t := s.(rows := s.rows[id := r]);
    assert Extends(s, t);
    LogInvStays(cfg, s, t);
    WorkersStay(cfg, s, t);
    assert RowsInv(cfg, t) by {
      forall k | k in t.rows
        ensures RowInv(cfg, t, k)
      {
        assert RowInv(cfg, s, k);
      }
    }
  }

  lemma RenewKeepsInv(cfg: Config, s: State, w: WorkerId, now: Clock)
    requires Inv(cfg, s) && w in s.workers && s.workers[w].phase.Calling?
    ensures Inv(cfg, DoRenew(cfg, s, w, now)) && Extends(s, DoRenew(cfg, s, w, now))
  {
    var c := s.workers[w].phase.c;
    assert WorkerOk(cfg, s, w);
    if Renewable(s.rows, s.workers[w].name, c, now) {
      assert RowInv(cfg, s, c.rowId);
      MoveKeepsInv(cfg, s, w, s.workers[w].phase);
      RowUpdateKeepsInv(cfg, Move(s, w, s.workers[w].phase), c.rowId,
                        s.rows[c.rowId].(leaseUntil := Some(now + cfg.lim.leaseTicks)));
    } else {
      MoveKeepsInv(cfg, s, w, Failing(c, false));
    }
  }

  lemma FailKeepsInv(cfg: Config, s: State, w: WorkerId, error: string, now: Clock)
    requires Inv(cfg, s) && w in s.workers && s.workers[w].phase.Failing?
    ensures Inv(cfg, DoFail(cfg, s, w, error, now)) && Extends(s, DoFail(cfg, s, w, error, now))
  {
    var Failing(c, permanent) := s.workers[w].phase;
    MoveKeepsInv(cfg, s, w, Idle);
    var t := Move(s, w, Idle);
    if HeldBy(s.rows, c.rowId, s.workers[w].name, c.token) {
      assert RowInv(cfg, s, c.rowId);
      RowUpdateKeepsInv(cfg, t, c.rowId, FailTxn(cfg.lim, s.rows, s.workers[w].name, c, error, permanent, now)[c.rowId]);
    }
  }

  lemma ReturnKeepsInv(cfg: Config, s: State, w: WorkerId, answer: Answer)
    requires Inv(cfg, s) && w in s.workers && s.workers[w].phase.Calling?
    ensures Inv(cfg, DoReturn(cfg, s, w, answer)) && Extends(s, DoReturn(cfg, s, w, answer))
  {
    var c := s.workers[w].phase.c;
    assert WorkerOk(cfg, s, w);
    MoveKeepsInv(cfg, s, w, Failing(c, true));
    MoveKeepsInv(cfg, s, w, Failing(c, false));
    if answer.Proposed? && MakeSnapshot(cfg, c.payload, answer).Some? {
      MoveKeepsInv(cfg, s, w, Answered(c, MakeSnapshot(cfg, c.payload, answer).value));
    }
  }

  lemma PersistKeepsInv(cfg: Config, s: State, w: WorkerId)
    requires Inv(cfg, s) && w in s.workers && s.workers[w].phase.Answered?
    ensures Inv(cfg, DoPersist(cfg, s, w)) && Extends(s, DoPersist(cfg, s, w))
  {
    var Answered(c, snap) := s.workers[w].phase;
    assert WorkerOk(cfg, s, w);
    if Persistable(s.rows, s.workers[w].name, c) {
      assert RowInv(cfg, s, c.rowId);
      var t := DoPersist(cfg, s, w);
      assert Extends(s, t);
      LogInvStays(cfg, s, t);
      PersistKeepsRows(cfg, s, w);
      PersistKeepsWorkers(cfg, s, w);
    } else {
      MoveKeepsInv(cfg, s, w, Failing(c, false));
    }
  }

  lemma PersistKeepsRows(cfg: Config, s: State, w: WorkerId)
    requires RowsInv(cfg, s) && HistoryInv(cfg, s) && w in s.workers && s.workers[w].phase.Answered?
    requires Persistable(s.rows, s.workers[w].name, s.workers[w].phase.c) && WorkerOk(cfg, s, w)
    ensures RowsInv(cfg, DoPersist(cfg, s, w)) && HistoryInv(cfg, DoPersist(cfg, s, w))
  {
    var t := DoPersist(cfg, s, w);
    assert RowInv(cfg, s, s.workers[w].phase.c.rowId);
    forall k | k in t.rows
      ensures RowInv(cfg, t, k)
    {
      assert RowInv(cfg, s, k);
    }
  }

  lemma PersistKeepsWorkers(cfg: Config, s: State, w: WorkerId)
    requires Inv(cfg, s) && w in s.workers && s.workers[w].phase.Answered?
    requires Persistable(s.rows, s.workers[w].name, s.workers[w].phase.c) && Extends(s, DoPersist(cfg, s, w))
    ensures WorkersOk(cfg, DoPersist(cfg, s, w)) && DistinctTokens(DoPersist(cfg, s, w))
  {
    var t := DoPersist(cfg, s, w);
    assert WorkerOk(cfg, s, w);
    assert RowInv(cfg, s, s.workers[w].phase.c.rowId);
    hide RowsInv, HistoryInv, EntriesOk, AllCompletedOk;
    forall x | x in t.workers
      ensures WorkerOk(cfg, t, x)
    {
      assert WorkerOk(cfg, s, x);
      if x != w {
        PhaseStays(cfg, s, t, t.workers[x].phase);
      }
    }
  }

  /** Logging the next proposal of a row keeps every clause but the writer's own progress. */
  lemma LogNextKeepsInv(cfg: Config, s: State, id: RowId, j: nat, outcome: Outcome)
    requires Inv(cfg, s) && Writable(cfg, s, id)
    requires j < |s.snapshots[id].proposals| && LoggedUpTo(cfg, s, id, j)
    requires RowKey(cfg, s, id, j) !in s.log
    ensures var t := s.(log := s.log[RowKey(cfg, s, id, j) := Entry(id, outcome)]);
            Inv(cfg, t) && Extends(s, t)
  {
    var key := RowKey(cfg, s, id, j);
    var t := s.(log := s.log[key := Entry(id, outcome)]);
    assert Extends(s, t);
    forall k | k in t.log
      ensures EntryOk(cfg, t, k)
    {
      if k in s.log {
        assert EntryOk(cfg, s, k);
        LoggedStays(cfg, s, t, s.log[k].rowId, k.index);
      } else {
        LoggedStays(cfg, s, t, id, j);
      }
    }
    forall c | c in t.completed
      ensures CompletedOk(cfg, t, c)
    {
      assert CompletedOk(cfg, s, c);
      LoggedStays(cfg, s, t, c, |s.snapshots[c].proposals|);
    }
    WorkersStay(cfg, s, t);
    forall k | k in t.rows
      ensures RowInv(cfg, t, k)
    {
      assert RowInv(cfg, s, k);
    }
  }

  lemma AdvancedPhaseOk(cfg: Config, s: State, p: Phase, q: Phase)
    requires p.Writing? && PhaseOk(cfg, s, p)
    requires q == Failing(p.c, true) || q == Failing(p.c, false)
             || (q == p.(next := p.next + 1) && p.next < |p.snap.proposals| && Logged(cfg, s, p.c.rowId, p.next))
    ensures PhaseOk(cfg, s, q)
  {
  }

  lemma LogWriteKeepsInv(cfg: Config, s: State, w: WorkerId, decision: Option<Outcome>, raised: bool)
    requires Inv(cfg, s) && w in s.workers && s.workers[w].phase.Writing?
    requires s.workers[w].phase.next < |s.workers[w].phase.snap.proposals|
    ensures var p := s.workers[w].phase;
            && Writable(cfg, s, p.c.rowId)
            && var key := RowKey(cfg, s, p.c.rowId, p.next);
               var t := AfterWrite(s, key, p.c.rowId, decision);
               && Inv(cfg, t) && Extends(s, t)
               && PhaseOk(cfg, t, NextPhase(p, Heard(WriteTxn(s.log, key, p.c.rowId, decision).1, raised)))
  {
    var p := s.workers[w].phase;
    assert WorkerOk(cfg, s, w);
    var key := RowKey(cfg, s, p.c.rowId, p.next);
    var t := AfterWrite(s, key, p.c.rowId, decision);
    if decision.Some? && key !in s.log {
      LogNextKeepsInv(cfg, s, p.c.rowId, p.next, decision.value);
    } else {
      assert t == s;
    }
    PhaseStays(cfg, s, t, p);
    AdvancedPhaseOk(cfg, t, p, NextPhase(p, Heard(WriteTxn(s.log, key, p.c.rowId, decision).1, raised)));
  }

  lemma WriteKeepsInv(cfg: Config, s: State, w: WorkerId, decision: Option<Outcome>, raised: bool)
    requires Inv(cfg, s) && w in s.workers && s.workers[w].phase.Writing?
    ensures Inv(cfg, DoWrite(cfg, s, w, decision, raised)) && Extends(s, DoWrite(cfg, s, w, decision, raised))
  {
    var p := s.workers[w].phase;
    assert WorkerOk(cfg, s, w);
    if p.next < |p.snap.proposals| {
      LogWriteKeepsInv(cfg, s, w, decision, raised);
      var key := RowKey(cfg, s, p.c.rowId, p.next);
      var t := AfterWrite(s, key, p.c.rowId, decision);
      var q := NextPhase(p, Heard(WriteTxn(s.log, key, p.c.rowId, decision).1, raised));
      MoveKeepsInv(cfg, t, w, q);
      ExtendsTwice(s, t, Move(t, w, q));
    }
  }

  lemma ExtendsTwice(s: State, t: State, u: State)
    requires Extends(s, t) && Extends(t, u)
    ensures Extends(s, u)
  {
  }

  /** Removing a row whose whole batch is logged, and recording it as completed. */
  lemma RemoveKeepsInv(cfg: Config, s: State, id: RowId)
    requires Inv(cfg, s) && id in s.rows && CompletedOk(cfg, s, id)
    ensures var t := s.(rows := s.rows - {id}, completed := s.completed + {id});
            Inv(cfg, t) && Extends(s, t)
  {
    var t := s.(rows := s.rows - {id}, completed := s.completed + {id});
    forall k | k in t.log
      ensures EntryOk(cfg, t, k)
    {
      assert EntryOk(cfg, s, k);
      LoggedStays(cfg, s, t, s.log[k].rowId, k.index);
    }
    forall k | k in t.completed
      ensures CompletedOk(cfg, t, k)
    {
      assert CompletedOk(cfg, s, k);
      LoggedStays(cfg, s, t, k, |s.snapshots[k].proposals|);
    }
    WorkersStay(cfg, s, t);
    forall k | k in t.rows
      ensures RowInv(cfg, t, k)
    {
      assert RowInv(cfg, s, k);
    }
  }

  lemma CompleteKeepsInv(cfg: Config, s: State, w: WorkerId)
    requires Inv(cfg, s) && w in s.workers && s.workers[w].phase.Writing?
    ensures Inv(cfg, DoComplete(s, w)) && Extends(s, DoComplete(s, w))
  {
    var p := s.workers[w].phase;
    assert WorkerOk(cfg, s, w);
    if p.next >= |p.snap.proposals| {
      if HeldBy(s.rows, p.c.rowId, s.workers[w].name, p.c.token) {
        RemoveKeepsInv(cfg, s, p.c.rowId);
        var t := s.(rows := s.rows - {p.c.rowId}, completed := s.completed + {p.c.rowId});
        MoveKeepsInv(cfg, t, w, Idle);
      } else {
        MoveKeepsInv(cfg, s, w, Failing(p.c, false));
      }
    }
  }

  lemma StepKeepsInv(cfg: Config, s: State, a: Action)
    requires Inv(cfg, s) && cfg.lim.maxAttempts > 0
    ensures Inv(cfg, Apply(cfg, s, a)) && Extends(s, Apply(cfg, s, a))
  {
    hide HistoryInv, RowsInv, EntriesOk, AllCompletedOk, DistinctTokens, DoClaim, DoLoad, DoRenew, DoReturn, DoPersist, DoWrite, DoComplete, DoFail, DoEnqueue, Move;
    if a.Enqueue? {
      EnqueueKeepsInv(cfg, s, a.payload);
    } else if a.w in s.workers {
      var phase := s.workers[a.w].phase;
      assert WorkerOk(cfg, s, a.w);
      match a {
        case Claim(w, now, token) => ClaimKeepsInv(cfg, s, w, now, token);
        case Load(w) => if phase.Loading? { LoadKeepsInv(cfg, s, w); }
        case StartCall(w) => if phase.ReadyToCall? { MoveKeepsInv(cfg, s, w, Calling(phase.c)); }
        case Renew(w, now) => if phase.Calling? { RenewKeepsInv(cfg, s, w, now); }
        case Return(w, answer) => if phase.Calling? { ReturnKeepsInv(cfg, s, w, answer); }
        case Persist(w) => if phase.Answered? { PersistKeepsInv(cfg, s, w); }
        case Write(w, decision, raised) => if phase.Writing? { WriteKeepsInv(cfg, s, w, decision, raised); }
        case Complete(w) => if phase.Writing? { CompleteKeepsInv(cfg, s, w); }
        case Fail(w, error, now) => if phase.Failing? { FailKeepsInv(cfg, s, w, error, now); }
        case Crash(w) => MoveKeepsInv(cfg, s, w, Idle);
        case Enqueue(_) =>
      }
    }
  }

  lemma {:induction false} RunKeepsInv(cfg: Config, s: State, actions: seq<Action>)
    requires Inv(cfg, s) && cfg.lim.maxAttempts > 0
    ensures Inv(cfg, Run(cfg, s, actions)) && Extends(s, Run(cfg, s, actions))
    decreases |actions|
  {
    hide Inv;
    if actions != [] {
      StepKeepsInv(cfg, s, actions[0]);
      RunKeepsInv(cfg, Apply(cfg, s, actions[0]), actions[1..]);
    }
  }

  lemma ReachableInv(cfg: Config, s: State)
    requires Reachable(cfg, s) && cfg.lim.maxAttempts > 0
    ensures Inv(cfg, s)
  {
    var s0, actions :| Initial(s0) && s == Run(cfg, s0, actions);
    RunKeepsInv(cfg, s0, actions);
  }
}
