/** Progress: from every reachable state a worker left undisturbed takes the
    oldest due row from its claim to its completion. */
module ExtractionProgress {
  import opened Common
  import opened ExtractionTable
  import opened ExtractionRuns
  import opened ExtractionSafety
  import opened ExtractionTheorems

  /** The worker is at this phase and its claim holds the row. */
  ghost predicate At(cfg: Config, s: State, w: WorkerId, p: Phase) {
    && Inv(cfg, s) && w in s.workers && s.workers[w].phase == p && !p.Idle?
    && HeldBy(s.rows, p.c.rowId, s.workers[w].name, p.c.token)
    && cfg.client(p.c.payload).Some? && p.c.digest == Digest(p.c.payload)
  }

  /** No other row wrote under the keys of this batch, and no write of it was refused. */
  ghost predicate KeysFree(cfg: Config, log: map<Key, Entry>, c: Claimed, snap: Snapshot)
    requires cfg.client(c.payload).Some?
  {
    forall j: nat {:trigger KeyOf(cfg.client(c.payload).value, c.payload, snap, j)} :: j < |snap.proposals| ==>
      var key := KeyOf(cfg.client(c.payload).value, c.payload, snap, j);
      key in log ==> log[key] == Entry(c.rowId, Accepted)
  }

  /** The oldest row that is due once exhausted leases are swept. */
  ghost predicate IsNext(cfg: Config, s: State, now: Clock, id: RowId) {
    IsLeast(DueIds(cfg.lim, SweptRows(cfg.lim, s.rows, now), now), id)
  }

  lemma ClaimStep(cfg: Config, s: State, w: WorkerId, now: Clock, token: Token, id: RowId)
    requires Inv(cfg, s) && w in s.workers && s.workers[w].phase.Idle? && token !in s.issued && IsNext(cfg, s, now, id)
    requires cfg.lim.maxAttempts > 0 && id in s.rows && cfg.client(s.rows[id].payload).Some?
    ensures var t := Apply(cfg, s, Claim(w, now, token));
            var c := ClaimOf(id, s.rows[id], token);
            && At(cfg, t, w, Loading(c)) && t.log == s.log
            && t.rows[id].proposalJson == s.rows[id].proposalJson && t.rows[id].proposalHash == s.rows[id].proposalHash
  {
    var swept := SweptRows(cfg.lim, s.rows, now);
    var due := DueIds(cfg.lim, swept, now);
    assert Least(due) == id;
    assert swept[id] == s.rows[id] by { assert Due(cfg.lim, swept[id], now); }
    assert RowInv(cfg, s, id);
    StepKeepsInv(cfg, s, Claim(w, now, token));
    hide Inv, Due;
    ClaimIsSweepThenGrant(cfg, s, w, now, token);
  }

  lemma LoadStep(cfg: Config, s: State, w: WorkerId, c: Claimed)
    requires At(cfg, s, w, Loading(c)) && cfg.lim.maxAttempts > 0
    ensures var t := Apply(cfg, s, Load(w));
            && t.log == s.log && t.rows == s.rows
            && (s.rows[c.rowId].proposalJson.None? ==> At(cfg, t, w, ReadyToCall(c)))
            && (s.rows[c.rowId].proposalJson.Some? && cfg.screen(c.payload, s.rows[c.rowId].proposalJson.value) ==>
                  At(cfg, t, w, Writing(c, s.rows[c.rowId].proposalJson.value, 0)))
  {
    assert RowInv(cfg, s, c.rowId);
    StepKeepsInv(cfg, s, Load(w));
    hide Inv;
  }

  lemma CallStep(cfg: Config, s: State, w: WorkerId, c: Claimed)
    requires At(cfg, s, w, ReadyToCall(c)) && cfg.lim.maxAttempts > 0
    ensures var t := Apply(cfg, s, StartCall(w));
            t.log == s.log && t.rows == s.rows && At(cfg, t, w, Calling(c))
  {
    StepKeepsInv(cfg, s, StartCall(w));
    hide Inv;
  }

  lemma ReturnStep(cfg: Config, s: State, w: WorkerId, c: Claimed, answer: Answer, snap: Snapshot)
    requires At(cfg, s, w, Calling(c)) && cfg.lim.maxAttempts > 0
    requires answer.Proposed? && MakeSnapshot(cfg, c.payload, answer) == Some(snap)
    ensures var t := Apply(cfg, s, Return(w, answer));
            t.log == s.log && t.rows == s.rows && At(cfg, t, w, Answered(c, snap))
  {
    StepKeepsInv(cfg, s, Return(w, answer));
    hide Inv, MakeSnapshot;
  }

  lemma PersistStep(cfg: Config, s: State, w: WorkerId, c: Claimed, snap: Snapshot)
    requires At(cfg, s, w, Answered(c, snap)) && cfg.lim.maxAttempts > 0 && cfg.screen(c.payload, snap)
    requires s.rows[c.rowId].proposalJson.None?
    ensures var t := Apply(cfg, s, Persist(w));
            t.log == s.log && At(cfg, t, w, Writing(c, snap, 0))
  {
    assert RowInv(cfg, s, c.rowId);
    StepKeepsInv(cfg, s, Persist(w));
    hide Inv;
  }

  lemma WriteStep(cfg: Config, s: State, w: WorkerId, c: Claimed, snap: Snapshot, n: nat)
    requires At(cfg, s, w, Writing(c, snap, n)) && cfg.lim.maxAttempts > 0
    requires n < |snap.proposals| && KeysFree(cfg, s.log, c, snap)
    ensures var t := Apply(cfg, s, Write(w, Some(Accepted), false));
            At(cfg, t, w, Writing(c, snap, n + 1)) && KeysFree(cfg, t.log, c, snap)
  {
    var key := KeyOf(cfg.client(c.payload).value, c.payload, snap, n);
    assert key in s.log ==> s.log[key] == Entry(c.rowId, Accepted);
    StepKeepsInv(cfg, s, Write(w, Some(Accepted), false));
    hide Inv, KeysFree, LoggedUpTo;
    WriteLogs(cfg, s, w, c, snap, n);
    KeysStayFree(cfg, s.log, c, snap, n);
  }

  lemma WriteLogs(cfg: Config, s: State, w: WorkerId, c: Claimed, snap: Snapshot, n: nat)
    requires w in s.workers && s.workers[w].phase == Writing(c, snap, n) && n < |snap.proposals|
    requires cfg.client(c.payload).Some? && c.digest == Digest(c.payload)
    requires var key := KeyOf(cfg.client(c.payload).value, c.payload, snap, n);
             key in s.log ==> s.log[key] == Entry(c.rowId, Accepted)
    ensures var key := KeyOf(cfg.client(c.payload).value, c.payload, snap, n);
            Apply(cfg, s, Write(w, Some(Accepted), false)) ==
              Move(s.(log := if key in s.log then s.log else s.log[key := Entry(c.rowId, Accepted)]), w, Writing(c, snap, n + 1))
  {
  }

  lemma KeysStayFree(cfg: Config, log: map<Key, Entry>, c: Claimed, snap: Snapshot, n: nat)
    requires cfg.client(c.payload).Some? && KeysFree(cfg, log, c, snap)
    ensures var key := KeyOf(cfg.client(c.payload).value, c.payload, snap, n);
            KeysFree(cfg, if key in log then log else log[key := Entry(c.rowId, Accepted)], c, snap)
  {
  }

  lemma CompleteStep(cfg: Config, s: State, w: WorkerId, c: Claimed, snap: Snapshot)
    requires At(cfg, s, w, Writing(c, snap, |snap.proposals|))
    ensures var t := Apply(cfg, s, Complete(w));
            c.rowId in t.completed && c.rowId !in t.rows && t.workers[w].phase.Idle?
  {
    hide Inv;
  }

  /** Accepted writes and the completion, from any point of the batch. */
  lemma {:induction false} WritesComplete(cfg: Config, s: State, w: WorkerId, c: Claimed, snap: Snapshot, n: nat) returns (actions: seq<Action>)
    requires At(cfg, s, w, Writing(c, snap, n)) && cfg.lim.maxAttempts > 0
    requires n <= |snap.proposals| && KeysFree(cfg, s.log, c, snap)
    ensures ByOne(actions, w)
    ensures c.rowId in Run(cfg, s, actions).completed && c.rowId !in Run(cfg, s, actions).rows
    decreases |snap.proposals| - n
  {
    if n == |snap.proposals| {
      actions := [Complete(w)];
      CompleteStep(cfg, s, w, c, snap);
      OneStep(cfg, s, Complete(w), []);
    } else {
      WriteStep(cfg, s, w, c, snap, n);
      var a := Write(w, Some(Accepted), false);
      var rest := WritesComplete(cfg, Apply(cfg, s, a), w, c, snap, n + 1);
      actions := [a] + rest;
      OneStep(cfg, s, a, rest);
    }
  }

  ghost predicate ByOne(actions: seq<Action>, w: WorkerId) {
    forall k :: 0 <= k < |actions| ==> !actions[k].Enqueue? && actions[k].w == w
  }

  lemma OneStep(cfg: Config, s: State, a: Action, rest: seq<Action>)
    ensures Run(cfg, s, [a] + rest) == Run(cfg, Apply(cfg, s, a), rest)
    ensures [a] + [] == [a]
  {
    assert ([a] + rest)[1..] == rest;
  }

  /** The model call, from reading "no snapshot" to the stored one. */
  lemma CallCompletes(cfg: Config, s: State, w: WorkerId, c: Claimed, answer: Answer, snap: Snapshot) returns (actions: seq<Action>)
    requires At(cfg, s, w, ReadyToCall(c)) && cfg.lim.maxAttempts > 0 && s.rows[c.rowId].proposalJson.None?
    requires answer.Proposed? && MakeSnapshot(cfg, c.payload, answer) == Some(snap) && cfg.screen(c.payload, snap)
    requires KeysFree(cfg, s.log, c, snap)
    ensures ByOne(actions, w)
    ensures c.rowId in Run(cfg, s, actions).completed && c.rowId !in Run(cfg, s, actions).rows
  {
    hide At, Inv, KeysFree, MakeSnapshot, Apply;
    CallStep(cfg, s, w, c);
    var s1 := Apply(cfg, s, StartCall(w));
    ReturnStep(cfg, s1, w, c, answer, snap);
    var s2 := Apply(cfg, s1, Return(w, answer));
    PersistStep(cfg, s2, w, c, snap);
    var s3 := Apply(cfg, s2, Persist(w));
    var rest := WritesComplete(cfg, s3, w, c, snap, 0);
    OneStep(cfg, s2, Persist(w), rest);
    OneStep(cfg, s1, Return(w, answer), [Persist(w)] + rest);
    OneStep(cfg, s, StartCall(w), [Return(w, answer)] + ([Persist(w)] + rest));
    actions := [StartCall(w)] + ([Return(w, answer)] + ([Persist(w)] + rest));
  }

  /** From the claim on: the stored snapshot, or the model's answer. */
  lemma LoadCompletes(cfg: Config, s: State, w: WorkerId, c: Claimed, answer: Answer, snap: Snapshot) returns (actions: seq<Action>)
    requires At(cfg, s, w, Loading(c)) && cfg.lim.maxAttempts > 0
    requires if s.rows[c.rowId].proposalJson.Some? then s.rows[c.rowId].proposalJson == Some(snap)
             else answer.Proposed? && MakeSnapshot(cfg, c.payload, answer) == Some(snap)
    requires cfg.screen(c.payload, snap) && KeysFree(cfg, s.log, c, snap)
    ensures ByOne(actions, w)
    ensures c.rowId in Run(cfg, s, actions).completed && c.rowId !in Run(cfg, s, actions).rows
  {
    hide Inv, KeysFree, MakeSnapshot, Apply;
    LoadStep(cfg, s, w, c);
    var s2 := Apply(cfg, s, Load(w));
    var rest;
    if s.rows[c.rowId].proposalJson.Some? {
      rest := WritesComplete(cfg, s2, w, c, snap, 0);
    } else {
      rest := CallCompletes(cfg, s2, w, c, answer, snap);
    }
    OneStep(cfg, s, Load(w), rest);
    actions := [Load(w)] + rest;
  }

  /** Whatever happened before, also a crash between any two transactions of an
      earlier attempt: an idle worker that runs alone completes the oldest due
      row, from its stored snapshot or else from the model's answer, provided
      the batch passes the screen and no other row took its keys. */
  lemma UndisturbedWorkerCompletes(cfg: Config, s: State, w: WorkerId, now: Clock, token: Token, id: RowId, answer: Answer, snap: Snapshot)
    returns (actions: seq<Action>)
    requires Reachable(cfg, s) && cfg.lim.maxAttempts > 0
    requires w in s.workers && s.workers[w].phase.Idle? && token !in s.issued
    requires IsNext(cfg, s, now, id) && id in s.rows && cfg.client(s.rows[id].payload).Some?
    requires if s.rows[id].proposalJson.Some? then s.rows[id].proposalJson == Some(snap)
             else answer.Proposed? && MakeSnapshot(cfg, s.rows[id].payload, answer) == Some(snap)
    requires cfg.screen(s.rows[id].payload, snap) && KeysFree(cfg, s.log, ClaimOf(id, s.rows[id], token), snap)
    ensures ByOne(actions, w)
    ensures id in Run(cfg, s, actions).completed && id !in Run(cfg, s, actions).rows
  {
    ReachableInv(cfg, s);
    hide Inv, KeysFree, MakeSnapshot, Apply, IsNext, Reachable;
    var c := ClaimOf(id, s.rows[id], token);
    ClaimStep(cfg, s, w, now, token, id);
    var s1 := Apply(cfg, s, Claim(w, now, token));
    var rest := LoadCompletes(cfg, s1, w, c, answer, snap);
    OneStep(cfg, s, Claim(w, now, token), rest);
    actions := [Claim(w, now, token)] + rest;
  }
}
