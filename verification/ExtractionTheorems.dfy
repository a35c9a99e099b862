/** What the extraction queue promises, stated over every reachable state and run. */
module ExtractionTheorems {
  import opened Common
  import opened ExtractionTable
  import opened ExtractionRuns
  import opened ExtractionSafety

  // ------------------------------------------------------------------
  // Exactly once
  // ------------------------------------------------------------------

  /** The key belongs to the batch of row `id`: same client, payload and snapshot. */
  ghost predicate InBatch(cfg: Config, s: State, id: RowId, k: Key)
    requires Writable(cfg, s, id)
  {
    k == RowKey(cfg, s, id, k.index)
  }

  /** A completed row has exactly one accepted log entry per proposal, all its
      own, and its batch has no other entry. */
  lemma ExactlyOnce(cfg: Config, s: State, id: RowId, k: Key)
    requires Reachable(cfg, s) && cfg.lim.maxAttempts > 0 && id in s.completed
    ensures id !in s.rows && Writable(cfg, s, id)
    ensures InBatch(cfg, s, id, k) ==> (k in s.log <==> k.index < |s.snapshots[id].proposals|)
    ensures InBatch(cfg, s, id, k) && k in s.log ==> s.log[k] == Entry(id, Accepted)
  {
    ReachableInv(cfg, s);
    assert CompletedOk(cfg, s, id);
    assert id in s.rows ==> RowInv(cfg, s, id);
    if InBatch(cfg, s, id, k) {
      if k in s.log {
        assert EntryOk(cfg, s, k);
      }
      if k.index < |s.snapshots[id].proposals| {
        assert Logged(cfg, s, id, k.index);
      }
    }
  }

  /** Logged keys are always a prefix of the row's proposals, written by one
      row, and everything before the last logged key was accepted. */
  lemma LoggedKeysArePrefix(cfg: Config, s: State, k: Key, j: nat)
    requires Reachable(cfg, s) && cfg.lim.maxAttempts > 0 && k in s.log && j < k.index
    ensures var r := s.log[k].rowId;
            && Writable(cfg, s, r) && InBatch(cfg, s, r, k) && k.index < |s.snapshots[r].proposals|
            && k.(index := j) in s.log && s.log[k.(index := j)] == Entry(r, Accepted)
  {
    ReachableInv(cfg, s);
    assert EntryOk(cfg, s, k);
    assert Logged(cfg, s, s.log[k].rowId, j);
  }

  /** Two rows with the same payload and the same non-empty batch never both complete. */
  lemma SameBatchCompletesOnce(cfg: Config, s: State, id: RowId, other: RowId)
    requires Reachable(cfg, s) && cfg.lim.maxAttempts > 0
    requires id in s.completed && other in s.completed && id != other
    ensures Writable(cfg, s, id) && Writable(cfg, s, other)
    ensures s.payloads[id] == s.payloads[other] && s.snapshots[id] == s.snapshots[other] ==> s.snapshots[id].proposals == []
  {
    ReachableInv(cfg, s);
    assert CompletedOk(cfg, s, id) && CompletedOk(cfg, s, other);
    assert s.snapshots[id].proposals != [] ==> Logged(cfg, s, id, 0);
    assert s.snapshots[other].proposals != [] ==> Logged(cfg, s, other, 0);
  }

  /** Whatever happens next, a row's snapshot, a log entry and a completion are final. */
  lemma RecordsAreFinal(cfg: Config, s: State, actions: seq<Action>)
    requires Reachable(cfg, s) && cfg.lim.maxAttempts > 0
    ensures var t := Run(cfg, s, actions);
            && (forall id :: id in s.snapshots ==> id in t.snapshots && t.snapshots[id] == s.snapshots[id])
            && (forall id :: id in s.snapshots && id in t.rows ==> t.rows[id].proposalJson == Some(s.snapshots[id]))
            && (forall k :: k in s.log ==> k in t.log && t.log[k] == s.log[k])
            && s.completed <= t.completed
  {
    ReachableInv(cfg, s);
    RunKeepsInv(cfg, s, actions);
    var t := Run(cfg, s, actions);
    forall id | id in s.snapshots && id in t.rows
      ensures t.rows[id].proposalJson == Some(s.snapshots[id])
    {
      assert RowInv(cfg, t, id);
    }
  }

  /** Every write a worker issues, stale or not, is the next proposal of the
      one snapshot its row ever had. */
  lemma WritesUseTheRowsSnapshot(cfg: Config, s: State, w: WorkerId)
    requires Reachable(cfg, s) && cfg.lim.maxAttempts > 0
    requires w in s.workers && s.workers[w].phase.Writing?
    ensures var p := s.workers[w].phase;
            && Writable(cfg, s, p.c.rowId) && p.snap == s.snapshots[p.c.rowId] && p.c.payload == s.payloads[p.c.rowId]
            && Key(cfg.client(p.c.payload).value, p.c.digest, Digest(p.snap), p.next) == RowKey(cfg, s, p.c.rowId, p.next)
            && forall j: nat :: j < p.next ==> Logged(cfg, s, p.c.rowId, j)
  {
    ReachableInv(cfg, s);
    assert WorkerOk(cfg, s, w);
  }

  // ------------------------------------------------------------------
  // Lease fencing
  // ------------------------------------------------------------------

  /** A row is being processed exactly when its token, owner and expiry are set. */
  lemma ProcessingIffLeased(cfg: Config, s: State, id: RowId)
    requires Reachable(cfg, s) && cfg.lim.maxAttempts > 0 && id in s.rows
    ensures s.rows[id].status.Processing? <==> s.rows[id].leaseToken.Some?
    ensures s.rows[id].status.Processing? <==> s.rows[id].leaseUntil.Some?
    ensures s.rows[id].status.Processing? <==> s.rows[id].leaseOwner.Some?
  {
    ReachableInv(cfg, s);
    assert RowInv(cfg, s, id);
  }

  /** The row transaction an action runs in its worker's phase, if any. */
  function RowsTxn(cfg: Config, rows: Rows, name: string, p: Phase, a: Action): Rows {
    match a
    case Renew(_, now) => if p.Calling? then RenewTxn(cfg.lim, rows, name, p.c, now) else rows
    case Persist(_) => if p.Answered? then PersistTxn(rows, name, p.c, p.snap) else rows
    case Complete(_) => if p.Writing? && p.next >= |p.snap.proposals| then CompleteTxn(rows, name, p.c) else rows
    case Fail(_, error, now) => if p.Failing? then FailTxn(cfg.lim, rows, name, p.c, error, p.permanent, now) else rows
    case _ => rows
  }

  /** Reading, calling, answering and writing leave the rows alone. */
  lemma QuietSteps(cfg: Config, s: State, w: WorkerId, answer: Answer, decision: Option<Outcome>, raised: bool)
    requires w in s.workers
    ensures s.workers[w].phase.Loading? ==> DoLoad(cfg, s, w).rows == s.rows
    ensures s.workers[w].phase.Calling? ==> DoReturn(cfg, s, w, answer).rows == s.rows
    ensures s.workers[w].phase.Writing? ==> DoWrite(cfg, s, w, decision, raised).rows == s.rows
  {
  }

  lemma TableSteps(cfg: Config, s: State, w: WorkerId, error: string, now: Clock)
    requires w in s.workers
    ensures var p := s.workers[w].phase;
            var name := s.workers[w].name;
            && (p.Calling? ==> DoRenew(cfg, s, w, now).rows == RowsTxn(cfg, s.rows, name, p, Renew(w, now)))
            && (p.Answered? ==> DoPersist(cfg, s, w).rows == RowsTxn(cfg, s.rows, name, p, Persist(w)))
            && (p.Writing? ==> DoComplete(s, w).rows == RowsTxn(cfg, s.rows, name, p, Complete(w)))
            && (p.Failing? ==> DoFail(cfg, s, w, error, now).rows == RowsTxn(cfg, s.rows, name, p, Fail(w, error, now)))
  {
  }

  lemma RowsAfterStep(cfg: Config, s: State, a: Action)
    requires !a.Claim? && !a.Enqueue?
    ensures Apply(cfg, s, a).rows ==
            if a.w in s.workers then RowsTxn(cfg, s.rows, s.workers[a.w].name, s.workers[a.w].phase, a) else s.rows
  {
    if a.w in s.workers {
      QuietSteps(cfg, s, a.w, if a.Return? then a.answer else Raised, if a.Write? then a.decision else None, if a.Write? then a.raised else false);
      TableSteps(cfg, s, a.w, if a.Fail? then a.error else "", if a.Fail? || a.Renew? then a.now else 0);
    }
  }

  lemma ChangeNeedsLease(cfg: Config, rows: Rows, name: string, p: Phase, a: Action, id: RowId)
    requires var t := RowsTxn(cfg, rows, name, p, a); id in rows && (id !in t || t[id] != rows[id])
    ensures !p.Idle? && p.c.rowId == id && HeldBy(rows, id, name, p.c.token)
  {
  }

  /** Apart from claims and enqueues, a step changes or deletes a row only for
      the worker holding the row's latest claim; and a renewal only extends a
      lease whose expiry is still ahead. */
  lemma OnlyTheLatestClaimChangesARow(cfg: Config, s: State, a: Action, id: RowId)
    requires Reachable(cfg, s) && cfg.lim.maxAttempts > 0 && !a.Claim? && !a.Enqueue?
    requires id in s.rows
    requires var t := Apply(cfg, s, a); id !in t.rows || t.rows[id] != s.rows[id]
    ensures a.w in s.workers && !s.workers[a.w].phase.Idle?
    ensures var c := s.workers[a.w].phase.c;
            c.rowId == id && s.rows[id].leaseToken == Some(c.token) && id in s.latest && s.latest[id] == c.token
    ensures a.Renew? ==>
              && s.rows[id].leaseUntil.Some? && a.now < s.rows[id].leaseUntil.value
              && id in Apply(cfg, s, a).rows && Apply(cfg, s, a).rows[id] == s.rows[id].(leaseUntil := Some(a.now + cfg.lim.leaseTicks))
  {
    RowsAfterStep(cfg, s, a);
    ChangeNeedsLease(cfg, s.rows, s.workers[a.w].name, s.workers[a.w].phase, a, id);
    ReachableInv(cfg, s);
    assert RowInv(cfg, s, id);
  }

  lemma StepKeepsReclaimed(cfg: Config, s: State, a: Action, id: RowId, token: Token)
    requires token in s.issued && id in s.latest && s.latest[id] != token
    ensures var t := Apply(cfg, s, a); token in t.issued && id in t.latest && t.latest[id] != token
  {
  }

  lemma {:induction false} RunKeepsReclaimed(cfg: Config, s: State, actions: seq<Action>, id: RowId, token: Token)
    requires token in s.issued && id in s.latest && s.latest[id] != token
    ensures var t := Run(cfg, s, actions); token in t.issued && id in t.latest && t.latest[id] != token
    decreases |actions|
  {
    hide Apply;
    if actions != [] {
      StepKeepsReclaimed(cfg, s, actions[0], id, token);
      RunKeepsReclaimed(cfg, Apply(cfg, s, actions[0]), actions[1..], id, token);
    }
  }

  /** Once a row was claimed again, the old claim is dead for good: whatever
      happens, no renewal, snapshot, completion or failure under its token
      changes the table ever again. */
  lemma LostLeaseStaysLost(cfg: Config, s: State, actions: seq<Action>, a: Action, token: Token)
    requires Reachable(cfg, s) && cfg.lim.maxAttempts > 0
    requires token in s.issued && s.issued[token] in s.latest && s.latest[s.issued[token]] != token
    requires var t := Run(cfg, s, actions);
             && !a.Claim? && !a.Enqueue? && a.w in t.workers
             && !t.workers[a.w].phase.Idle? && t.workers[a.w].phase.c.token == token
    ensures Apply(cfg, Run(cfg, s, actions), a).rows == Run(cfg, s, actions).rows
  {
    hide Inv, Apply;
    var t := Run(cfg, s, actions);
    ReachableInv(cfg, s);
    RunKeepsInv(cfg, s, actions);
    RunKeepsReclaimed(cfg, s, actions, s.issued[token], token);
    NotHeld(cfg, t, a.w);
    RowsAfterStep(cfg, t, a);
    UnheldTxn(cfg, t.rows, t.workers[a.w].name, t.workers[a.w].phase, a);
  }

  lemma NotHeld(cfg: Config, s: State, w: WorkerId)
    requires Inv(cfg, s) && w in s.workers && !s.workers[w].phase.Idle?
    requires var c := s.workers[w].phase.c;
             c.token in s.issued && s.issued[c.token] in s.latest && s.latest[s.issued[c.token]] != c.token
    ensures !HeldBy(s.rows, s.workers[w].phase.c.rowId, s.workers[w].name, s.workers[w].phase.c.token)
  {
    var id := s.workers[w].phase.c.rowId;
    assert WorkerOk(cfg, s, w);
    assert id in s.rows ==> RowInv(cfg, s, id);
  }

  lemma UnheldTxn(cfg: Config, rows: Rows, name: string, p: Phase, a: Action)
    requires !p.Idle? ==> !HeldBy(rows, p.c.rowId, name, p.c.token)
    ensures RowsTxn(cfg, rows, name, p, a) == rows
  {
  }

  // ------------------------------------------------------------------
  // The model is not asked again
  // ------------------------------------------------------------------

  /** A worker about to call the model, or calling it, either holds no lease any
      more or works on a row that never had a snapshot; and no claim granted
      after the snapshot existed ever gets that far. */
  lemma NoCallUnderALeaseOnceSnapshotted(cfg: Config, s: State, w: WorkerId)
    requires Reachable(cfg, s) && cfg.lim.maxAttempts > 0
    requires w in s.workers && InCall(s.workers[w].phase)
    ensures var c := s.workers[w].phase.c;
            c.rowId in s.snapshots ==> !HeldBy(s.rows, c.rowId, s.workers[w].name, c.token) && c.token !in s.late
  {
    ReachableInv(cfg, s);
    assert WorkerOk(cfg, s, w);
  }

  /** Rows leave the table only when they complete. */
  ghost predicate RowsKept(s: State) {
    s.payloads.Keys <= s.rows.Keys + s.completed
  }

  lemma StepKeepsRows(cfg: Config, s: State, a: Action)
    requires RowsKept(s)
    ensures RowsKept(Apply(cfg, s, a))
  {
    if !a.Enqueue? && !a.Claim? {
      RowsAfterStep(cfg, s, a);
    }
  }

  lemma {:induction false} RunKeepsRows(cfg: Config, s: State, actions: seq<Action>)
    requires RowsKept(s)
    ensures RowsKept(Run(cfg, s, actions))
    decreases |actions|
  {
    hide Apply, RowsKept;
    if actions != [] {
      StepKeepsRows(cfg, s, actions[0]);
      RunKeepsRows(cfg, Apply(cfg, s, actions[0]), actions[1..]);
    }
  }

  /** The exact condition of a repeated call, which a worker could read from the
      table just before it calls: the row is gone or carries a snapshot. */
  lemma CallIsARepeatIff(cfg: Config, s: State, w: WorkerId)
    requires Reachable(cfg, s) && cfg.lim.maxAttempts > 0
    requires w in s.workers && s.workers[w].phase.ReadyToCall?
    ensures var c := s.workers[w].phase.c;
            var t := Apply(cfg, s, StartCall(w));
            && t.workers[w].phase == Calling(c)
            && (c.rowId in t.snapshots <==> c.rowId !in s.rows || s.rows[c.rowId].proposalJson.Some?)
  {
    var s0, actions :| Initial(s0) && s == Run(cfg, s0, actions);
    RunKeepsRows(cfg, s0, actions);
    ReachableInv(cfg, s);
    assert WorkerOk(cfg, s, w);
    var id := s.workers[w].phase.c.rowId;
    assert id in s.rows ==> RowInv(cfg, s, id);
  }

  /** This step stores the first snapshot of row `id`. */
  ghost predicate StoresFor(cfg: Config, s: State, a: Action, id: RowId) {
    && a.Persist? && a.w in s.workers && s.workers[a.w].phase.Answered?
    && s.workers[a.w].phase.c.rowId == id && Persistable(s.rows, s.workers[a.w].name, s.workers[a.w].phase.c)
  }

  ghost predicate StoredDuring(cfg: Config, s: State, actions: seq<Action>, id: RowId)
    decreases |actions|
  {
    actions != [] && (StoresFor(cfg, s, actions[0], id) || StoredDuring(cfg, Apply(cfg, s, actions[0]), actions[1..], id))
  }

  lemma StepSnapshots(cfg: Config, s: State, a: Action, id: RowId)
    ensures id in Apply(cfg, s, a).snapshots <==> id in s.snapshots || StoresFor(cfg, s, a, id)
  {
  }

  lemma {:induction false} RunSnapshots(cfg: Config, s: State, actions: seq<Action>, id: RowId)
    ensures id in Run(cfg, s, actions).snapshots <==> id in s.snapshots || StoredDuring(cfg, s, actions, id)
    decreases |actions|
  {
    hide Apply, StoresFor;
    if actions != [] {
      StepSnapshots(cfg, s, actions[0], id);
      RunSnapshots(cfg, Apply(cfg, s, actions[0]), actions[1..], id);
    }
  }

  /** Over runs: a worker that read "no snapshot" repeats a finished call exactly
      if another worker stored the snapshot between that read and the call. */
  lemma CallRepeatsIffStoredMeanwhile(cfg: Config, s: State, w: WorkerId, actions: seq<Action>)
    requires Reachable(cfg, s) && cfg.lim.maxAttempts > 0
    requires w in s.workers && s.workers[w].phase.Loading?
    requires var t := Apply(cfg, s, Load(w));
             var u := Run(cfg, t, actions);
             t.workers[w].phase.ReadyToCall? && w in u.workers && u.workers[w] == t.workers[w]
    ensures var c := s.workers[w].phase.c;
            var t := Apply(cfg, s, Load(w));
            c.rowId in Apply(cfg, Run(cfg, t, actions), StartCall(w)).snapshots <==> StoredDuring(cfg, t, actions, c.rowId)
  {
    var t := Apply(cfg, s, Load(w));
    var c := s.workers[w].phase.c;
    ReachableInv(cfg, s);
    StepKeepsInv(cfg, s, Load(w));
    assert WorkerOk(cfg, t, w);
    RunSnapshots(cfg, t, actions, c.rowId);
    StepSnapshots(cfg, Run(cfg, t, actions), StartCall(w), c.rowId);
  }

  /** An answer that comes back after the row got its snapshot is never stored. */
  lemma LateAnswersAreDropped(cfg: Config, s: State, w: WorkerId)
    requires Reachable(cfg, s) && cfg.lim.maxAttempts > 0
    requires w in s.workers && s.workers[w].phase.Answered? && s.workers[w].phase.c.rowId in s.snapshots
    ensures var t := Apply(cfg, s, Persist(w));
            t == Move(s, w, Failing(s.workers[w].phase.c, false))
  {
    NoCallUnderALeaseOnceSnapshotted(cfg, s, w);
  }

  lemma {:induction false} RunThenStep(cfg: Config, s: State, actions: seq<Action>, a: Action)
    ensures Run(cfg, s, actions + [a]) == Apply(cfg, Run(cfg, s, actions), a)
    decreases |actions|
  {
    if actions == [] {
      assert Run(cfg, s, [a]) == Run(cfg, Apply(cfg, s, a), []);
    } else {
      assert (actions + [a])[1..] == actions[1..] + [a];
      RunThenStep(cfg, Apply(cfg, s, actions[0]), actions[1..], a);
    }
  }

  lemma ReachableStep(cfg: Config, s: State, a: Action)
    requires Reachable(cfg, s)
    ensures Reachable(cfg, Apply(cfg, s, a))
  {
    var s0, actions :| Initial(s0) && s == Run(cfg, s0, actions);
    RunThenStep(cfg, s0, actions, a);
    assert Apply(cfg, s, a) == Run(cfg, s0, actions + [a]);
  }

  lemma InitialIsReachable(cfg: Config, s: State)
    requires Initial(s)
    ensures Reachable(cfg, s)
  {
    assert s == Run(cfg, s, []);
  }

  function DemoConfig(): Config {
    Config(Limits(2, 10, 1), _ => Some("client"), (_, p) => Some(p), (_, _) => true)
  }

  function DemoRow(attempts: nat, until: Clock, owner: string, token: Token, snap: Option<Snapshot>): Row {
    FreshRow("p").(status := Processing, attempts := attempts, leaseOwner := Some(owner), leaseUntil := Some(until),
                   leaseToken := Some(token), proposalJson := snap,
                   proposalHash := if snap.Some? then Some(Digest(snap.value)) else None)
  }

  const DEMO_FIRST := Claimed(0, "p", Digest("p"), 1, 0)
  const DEMO_SECOND := Claimed(0, "p", Digest("p"), 2, 1)

  function DemoState(row: Row, a: Phase, b: Phase, issued: map<Token, RowId>, latest: Token, grants: nat): State {
    State(map[0 := row], 1, map[], map[0 := Worker("a", a), 1 := Worker("b", b)],
          map[0 := "p"], map[], issued, map[0 := latest], map[0 := grants], {}, {})
  }

  /** The demonstration while worker 0 holds the lease, and after worker 1 took it over. */
  function DemoEarly(a: Phase): State {
    DemoState(DemoRow(1, 10, "a", 0, None), a, Idle, map[0 := 0], 0, 1)
  }

  function DemoLate(b: Phase): State {
    DemoState(DemoRow(2, 20, "b", 1, None), ReadyToCall(DEMO_FIRST), b, map[0 := 0, 1 := 0], 1, 2)
  }

  lemma DemoEnqueued(s: State)
    requires s == State(map[0 := FreshRow("p")], 1, map[], map[0 := Worker("a", Idle), 1 := Worker("b", Idle)],
                        map[0 := "p"], map[], map[], map[], map[0 := 0], {}, {})
    ensures Reachable(DemoConfig(), s)
  {
    var cfg := DemoConfig();
    var s0 := State(map[], 0, map[], map[0 := Worker("a", Idle), 1 := Worker("b", Idle)],
                    map[], map[], map[], map[], map[], {}, {});
    InitialIsReachable(cfg, s0);
    ReachableStep(cfg, s0, Enqueue("p"));
    assert ActiveCopies(s0.rows, "p") == {};
    assert Apply(cfg, s0, Enqueue("p")) == s;
  }

  lemma DemoDue(r: Row, now: Clock)
    requires Due(DemoConfig().lim, r, now)
    ensures SweptRows(DemoConfig().lim, map[0 := r], now) == map[0 := r]
    ensures DueIds(DemoConfig().lim, map[0 := r], now) == {0} && Least({0}) == 0
  {
    assert 0 in {0};
  }

  lemma DemoGrant()
    ensures Grant(DemoConfig(), DemoEarly(ReadyToCall(DEMO_FIRST)), 1, 10, 1, 0) == DemoLate(Loading(DEMO_SECOND))
  {
  }

  /** Worker 0 claims the only row. */
  lemma DemoClaimed()
    ensures Reachable(DemoConfig(), DemoEarly(Loading(DEMO_FIRST)))
  {
    var cfg := DemoConfig();
    var s := State(map[0 := FreshRow("p")], 1, map[], map[0 := Worker("a", Idle), 1 := Worker("b", Idle)],
                   map[0 := "p"], map[], map[], map[], map[0 := 0], {}, {});
    DemoEnqueued(s);
    DemoDue(s.rows[0], 0);
    ClaimIsSweepThenGrant(cfg, s, 0, 0, 0);
    ReachableStep(cfg, s, Claim(0, 0, 0));
    assert Grant(cfg, s, 0, 0, 0, 0) == DemoEarly(Loading(DEMO_FIRST));
  }

  lemma DemoReady()
    ensures Reachable(DemoConfig(), DemoEarly(ReadyToCall(DEMO_FIRST)))
  {
    DemoClaimed();
    ReachableStep(DemoConfig(), DemoEarly(Loading(DEMO_FIRST)), Load(0));
    assert DoLoad(DemoConfig(), DemoEarly(Loading(DEMO_FIRST)), 0) == DemoEarly(ReadyToCall(DEMO_FIRST));
  }

  /** Worker 1 claims the row once the lease ran out. */
  lemma DemoReclaimed()
    ensures Reachable(DemoConfig(), DemoLate(Loading(DEMO_SECOND)))
  {
    var cfg := DemoConfig();
    var s := DemoEarly(ReadyToCall(DEMO_FIRST));
    DemoReady();
    DemoGrant();
    DemoDue(s.rows[0], 10);
    ClaimIsSweepThenGrant(cfg, s, 1, 10, 1);
    ReachableStep(cfg, s, Claim(1, 10, 1));
  }

  lemma DemoCalling()
    ensures Reachable(DemoConfig(), DemoLate(Calling(DEMO_SECOND)))
  {
    var cfg := DemoConfig();
    DemoReclaimed();
    ReachableStep(cfg, DemoLate(Loading(DEMO_SECOND)), Load(1));
    assert DoLoad(cfg, DemoLate(Loading(DEMO_SECOND)), 1) == DemoLate(ReadyToCall(DEMO_SECOND));
    ReachableStep(cfg, DemoLate(ReadyToCall(DEMO_SECOND)), StartCall(1));
    assert Move(DemoLate(ReadyToCall(DEMO_SECOND)), 1, Calling(DEMO_SECOND)) == DemoLate(Calling(DEMO_SECOND));
  }

  lemma DemoAnswered()
    ensures Reachable(DemoConfig(), DemoLate(Answered(DEMO_SECOND, Snapshot("m", []))))
  {
    var cfg := DemoConfig();
    DemoCalling();
    ReachableStep(cfg, DemoLate(Calling(DEMO_SECOND)), Return(1, Proposed("m", [])));
    assert MakeSnapshot(cfg, "p", Proposed("m", [])) == Some(Snapshot("m", []));
    assert DoReturn(cfg, DemoLate(Calling(DEMO_SECOND)), 1, Proposed("m", [])) == DemoLate(Answered(DEMO_SECOND, Snapshot("m", [])));
  }

  /** Without its lease a worker can still call the model on a row that has a
      snapshot: it read "no snapshot", lost the lease, and only then calls. */
  lemma StaleWorkerMayCallAgain() returns (s: State)
    ensures Reachable(DemoConfig(), s)
    ensures 0 in s.workers && s.workers[0].phase.Calling? && s.workers[0].phase.c.rowId in s.snapshots
  {
    var cfg := DemoConfig();
    var s7 := DemoLate(Answered(DEMO_SECOND, Snapshot("m", [])));
    DemoAnswered();
    ReachableStep(cfg, s7, Persist(1));
    var s8 := DoPersist(cfg, s7, 1);
    assert s8.workers[0] == s7.workers[0];
    ReachableStep(cfg, s8, StartCall(0));
    s := Apply(cfg, s8, StartCall(0));
  }

  // ------------------------------------------------------------------
  // Bounded work
  // ------------------------------------------------------------------

  /** Attempts, and so claims, of any row stay within the limit. */
  lemma AttemptsAreBounded(cfg: Config, s: State, id: RowId)
    requires Reachable(cfg, s) && cfg.lim.maxAttempts > 0
    ensures id in s.rows ==> id in s.grants && s.rows[id].attempts == s.grants[id]
    ensures id in s.grants ==> s.grants[id] <= cfg.lim.maxAttempts
  {
    ReachableInv(cfg, s);
    if id in s.rows {
      assert RowInv(cfg, s, id);
    }
  }

  /** Attempts a row has left; a dead row has none. */
  function Left(lim: Limits, r: Row): nat {
    if r.status.Dead? || r.attempts > lim.maxAttempts then 0 else lim.maxAttempts - r.attempts
  }

  function AttemptsLeft(lim: Limits): Row -> nat {
    r => Left(lim, r)
  }

  ghost function Budget(lim: Limits, rows: Rows): nat {
    TotalBy(rows, AttemptsLeft(lim))
  }

  ghost predicate Granted(cfg: Config, s: State, a: Action) {
    a.Claim? && Apply(cfg, s, a).issued != s.issued
  }

  ghost predicate Inserts(cfg: Config, s: State, a: Action) {
    a.Enqueue? && Apply(cfg, s, a).rows != s.rows
  }

  lemma SweepSpends(lim: Limits, rows: Rows, now: Clock)
    ensures Budget(lim, SweptRows(lim, rows, now)) <= Budget(lim, rows)
  {
    TotalByMonotone(SweptRows(lim, rows, now), rows, AttemptsLeft(lim));
  }

  lemma GrantSpends(lim: Limits, rows: Rows, id: RowId, owner: string, now: Clock, token: Token)
    requires id in rows && Due(lim, rows[id], now)
    ensures Budget(lim, rows[id := Leased(lim, rows[id], owner, now, token)]) + 1 <= Budget(lim, rows)
  {
    TotalByUpdate(rows, AttemptsLeft(lim), id, Leased(lim, rows[id], owner, now, token));
  }

  lemma ClaimSpends(cfg: Config, s: State, w: WorkerId, now: Clock, token: Token)
    requires Inv(cfg, s) && w in s.workers
    ensures Budget(cfg.lim, DoClaim(cfg, s, w, now, token).rows) + (if Granted(cfg, s, Claim(w, now, token)) then 1 else 0)
            <= Budget(cfg.lim, s.rows)
  {
    hide Inv, Budget, SweptRows, Leased;
    if s.workers[w].phase.Idle? && token !in s.issued {
      ClaimIsSweepThenGrant(cfg, s, w, now, token);
      SweepSpends(cfg.lim, s.rows, now);
      var swept := SweptRows(cfg.lim, s.rows, now);
      var due := DueIds(cfg.lim, swept, now);
      if due != {} {
        GrantSpends(cfg.lim, swept, Least(due), s.workers[w].name, now, token);
      }
    }
  }

  /** Every other worker step replaces or removes at most one row, and never gives it attempts back. */
  lemma RowsTxnSpends(cfg: Config, rows: Rows, name: string, p: Phase, a: Action)
    ensures Budget(cfg.lim, RowsTxn(cfg, rows, name, p, a)) <= Budget(cfg.lim, rows)
  {
    var t := RowsTxn(cfg, rows, name, p, a);
    if t != rows {
      var id := p.c.rowId;
      if id in t {
        TotalByUpdate(rows, AttemptsLeft(cfg.lim), id, t[id]);
        assert t == rows[id := t[id]];
      } else {
        TotalByRemove(rows, AttemptsLeft(cfg.lim), id);
      }
    }
  }

  lemma EnqueueSpends(cfg: Config, s: State, payload: string)
    requires RowsInv(cfg, s)
    ensures Budget(cfg.lim, DoEnqueue(s, payload).rows)
            <= Budget(cfg.lim, s.rows) + (if Inserts(cfg, s, Enqueue(payload)) then cfg.lim.maxAttempts else 0)
  {
    if ActiveCopies(s.rows, payload) == {} {
      assert s.nextId in s.rows ==> RowInv(cfg, s, s.nextId);
      TotalByUpdate(s.rows, AttemptsLeft(cfg.lim), s.nextId, FreshRow(payload));
      assert s.nextId in Apply(cfg, s, Enqueue(payload)).rows;
    }
  }

  /** A step spends one unit per claim it grants, and only a new row adds any. */
  lemma StepSpends(cfg: Config, s: State, a: Action)
    requires Inv(cfg, s)
    ensures Budget(cfg.lim, Apply(cfg, s, a).rows) + (if Granted(cfg, s, a) then 1 else 0)
            <= Budget(cfg.lim, s.rows) + (if Inserts(cfg, s, a) then cfg.lim.maxAttempts else 0)
  {
    if a.Enqueue? {
      EnqueueSpends(cfg, s, a.payload);
    } else if a.w !in s.workers {
    } else if a.Claim? {
      ClaimSpends(cfg, s, a.w, a.now, a.token);
    } else {
      RowsAfterStep(cfg, s, a);
      RowsTxnSpends(cfg, s.rows, s.workers[a.w].name, s.workers[a.w].phase, a);
    }
  }

  ghost function GrantCount(cfg: Config, s: State, actions: seq<Action>): nat
    decreases |actions|
  {
    if actions == [] then 0
    else (if Granted(cfg, s, actions[0]) then 1 else 0) + GrantCount(cfg, Apply(cfg, s, actions[0]), actions[1..])
  }

  ghost function InsertCount(cfg: Config, s: State, actions: seq<Action>): nat
    decreases |actions|
  {
    if actions == [] then 0
    else (if Inserts(cfg, s, actions[0]) then 1 else 0) + InsertCount(cfg, Apply(cfg, s, actions[0]), actions[1..])
  }

  /** Over any run, the claims granted are paid for by the attempts left at the
      start plus a full allowance per inserted row. */
  lemma {:induction false} ClaimsAreBounded(cfg: Config, s: State, actions: seq<Action>)
    requires Inv(cfg, s) && cfg.lim.maxAttempts > 0
    ensures GrantCount(cfg, s, actions) + Budget(cfg.lim, Run(cfg, s, actions).rows)
            <= Budget(cfg.lim, s.rows) + cfg.lim.maxAttempts * InsertCount(cfg, s, actions)
    decreases |actions|
  {
    if actions != [] {
      var t := Apply(cfg, s, actions[0]);
      StepSpends(cfg, s, actions[0]);
      StepKeepsInv(cfg, s, actions[0]);
      ClaimsAreBounded(cfg, t, actions[1..]);
      Distribute(cfg.lim.maxAttempts, 1, InsertCount(cfg, t, actions[1..]));
    }
  }

  /** A claim that comes back empty-handed once every delay and lease has passed
      leaves only dead rows: every job was removed or dead-lettered. */
  lemma AnEmptyClaimMeansAllDead(cfg: Config, s: State, w: WorkerId, now: Clock, token: Token, id: RowId)
    requires Reachable(cfg, s) && cfg.lim.maxAttempts > 0
    requires w in s.workers && s.workers[w].phase.Idle? && token !in s.issued
    requires forall k :: k in s.rows ==>
               && (s.rows[k].notBefore.Some? ==> s.rows[k].notBefore.value <= now)
               && (s.rows[k].leaseUntil.Some? ==> s.rows[k].leaseUntil.value <= now)
    requires !Granted(cfg, s, Claim(w, now, token))
    requires id in Apply(cfg, s, Claim(w, now, token)).rows
    ensures Apply(cfg, s, Claim(w, now, token)).rows[id].status.Dead?
  {
    ReachableInv(cfg, s);
    ClaimIsSweepThenGrant(cfg, s, w, now, token);
    var swept := SweptRows(cfg.lim, s.rows, now);
    assert DueIds(cfg.lim, swept, now) == {};
    assert id !in DueIds(cfg.lim, swept, now);
    assert RowInv(cfg, s, id);
  }
}
