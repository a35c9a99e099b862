/** What the history of a run says about the stored vectors: each is an answer
    of the model, belongs to a finished job, and stays until it is dropped. */
module EmbeddingHistory {
  import opened Common
  import opened EmbeddingTable
  import opened EmbeddingRuns

  /** Every job of the fact is over. */
  ghost predicate Done(db: Db, f: FactId) {
    forall j :: j in db.jobs && db.jobs[j].factId == f ==> db.jobs[j].status.Completed?
  }

  /** A fact with a vector has a job, and it is completed. */
  ghost predicate VectorSettled(db: Db, f: FactId) {
    f in db.vectors ==> HasJob(db.jobs, f) && Done(db, f)
  }

  /** An exposed fact has neither a vector nor a job that would bring one. */
  ghost predicate ExposedBare(s: State, f: FactId) {
    f in s.exposed ==> f !in s.db.vectors && Done(s.db, f)
  }

  /** The stored vector is the model's answer for the content on record. */
  ghost predicate VectorAnswered(s: State, f: FactId) {
    f in s.db.vectors ==> f in s.embedded && (s.embedded[f], s.db.vectors[f].blob) in s.answers
  }

  ghost predicate FactSettled(s: State, f: FactId) {
    VectorSettled(s.db, f) && ExposedBare(s, f) && VectorAnswered(s, f)
  }

  /** A prepared vector is an answer for the text the worker read. */
  ghost predicate PreparedAnswered(s: State, w: WorkerId)
    requires w in s.workers
  {
    var p := s.workers[w].phase;
    p.Prepared? ==> (p.content, p.blob) in s.answers
  }

  ghost predicate HistoryInv(s: State) {
    && (forall f {:trigger FactSettled(s, f)} :: FactSettled(s, f))
    && (forall w {:trigger PreparedAnswered(s, w)} :: w in s.workers ==> PreparedAnswered(s, w))
  }

  // ------------------------------------------------------------------
  // Finished jobs stay finished
  // ------------------------------------------------------------------

  lemma UpsertOther(spec: Spec, db: Db, g: FactId, content: string, now: Clock, f: FactId)
    requires Done(db, f) && f != g
    ensures Done(Upserted(spec, db, g, content, now), f)
  {
  }

  lemma {:induction false} BackfillKeepsDone(spec: Spec, db: Db, ids: seq<FactId>, now: Clock, f: FactId)
    requires Done(db, f) && (f in Ids(ids) ==> HasVector(spec, db.vectors, f))
    ensures Done(BackfillTxn(spec, db, ids, now), f)
    decreases |ids|
  {
    if ids != [] {
      var u := BackfillStep(spec, db, ids[0], now);
      if Missing(spec, db, ids[0]) {
        assert ids[0] in Ids(ids);
        UpsertOther(spec, db, ids[0], db.facts[ids[0]].content, now, f);
      }
      assert forall g :: g in Ids(ids[1..]) ==> g in Ids(ids);
      BackfillKeepsDone(spec, u, ids[1..], now, f);
    }
  }

  lemma FactsKeepDone(spec: Spec, s: State, a: Action, f: FactId)
    requires Inv(spec, s) && !ByWorker(a) && Done(s.db, f)
    requires f in Enqueued(s.db, a) ==> HasJob(s.db.jobs, f) && f in s.db.vectors
    ensures Done(FactsDb(spec, s.db, a), f)
  {
    if a.Backfill? {
      BackfillKeepsDone(spec, s.db, a.ids, a.now, f);
    }
  }

  lemma ClaimKeepsDone(spec: Spec, s: State, w: WorkerId, now: Clock, token: Token, f: FactId)
    requires Done(s.db, f) && w in s.workers
    ensures Done(DoClaim(spec, s, w, now, token).db, f)
    ensures var t := DoClaim(spec, s, w, now, token); t == s.(db := s.db.(jobs := t.db.jobs), workers := t.workers, issued := t.issued, latest := t.latest)
    ensures forall x :: x in s.workers && DoClaim(spec, s, w, now, token).workers[x] != s.workers[x] ==> DoClaim(spec, s, w, now, token).workers[x].phase.Reading?
    ensures DoClaim(spec, s, w, now, token).workers.Keys == s.workers.Keys
  {
  }

  /** A worker never touches a fact whose jobs are over. */
  lemma WorkerKeepsDone(spec: Spec, s: State, w: WorkerId, a: Action, f: FactId)
    requires Inv(spec, s) && w in s.workers && Done(s.db, f)
    ensures var p := s.workers[w].phase;
            var t := WorkerDb(spec, s.db, p, a);
            && Done(t, f)
            && (f in t.vectors <==> f in s.db.vectors) && (f in t.vectors ==> t.vectors[f] == s.db.vectors[f])
            && (Stores(spec, s.db, p, a) ==> p.c.factId != f)
  {
    var p := s.workers[w].phase;
    if WorkerDb(spec, s.db, p, a) != s.db || Stores(spec, s.db, p, a) {
      assert ClaimOk(s, p.c);
      if WorkerDb(spec, s.db, p, a) != s.db {
        WorkerDbTouchesOneJob(spec, s.db, p, a);
      }
    }
  }

  // ------------------------------------------------------------------
  // Every action keeps the history in order
  // ------------------------------------------------------------------

  lemma FactsKeepFact(spec: Spec, s: State, a: Action, f: FactId)
    requires Inv(spec, s) && !ByWorker(a) && FactSettled(s, f)
    ensures FactSettled(Apply(spec, s, a), f)
  {
    var t := Apply(spec, s, a);
    FactsKeepInv(spec, s, a);
    FactsKeepVectors(spec, s.db, a);
    if f in s.db.vectors || (f in s.exposed && f !in Enqueued(s.db, a)) {
      FactsKeepDone(spec, s, a, f);
    }
    if f in s.db.vectors {
      var j :| j in s.db.jobs && s.db.jobs[j].factId == f;
      assert j in t.db.jobs && t.db.jobs[j].factId == f;
    }
  }

  lemma {:induction false} BackfillKeepsVectors(spec: Spec, db: Db, ids: seq<FactId>, now: Clock)
    ensures BackfillTxn(spec, db, ids, now).vectors == db.vectors && BackfillTxn(spec, db, ids, now).facts == db.facts
    decreases |ids|
  {
    if ids != [] {
      BackfillKeepsVectors(spec, BackfillStep(spec, db, ids[0], now), ids[1..], now);
    }
  }

  lemma FactsKeepVectors(spec: Spec, db: Db, a: Action)
    ensures FactsDb(spec, db, a).vectors == if a.DropVector? then db.vectors - {a.f} else db.vectors
  {
    if a.Backfill? {
      BackfillKeepsVectors(spec, db, a.ids, a.now);
    }
  }

  /** The fact whose vector this step stores. */
  lemma StoredFact(spec: Spec, s: State, w: WorkerId, a: Action)
    requires Inv(spec, s) && w in s.workers && PreparedAnswered(s, w)
    requires Stores(spec, s.db, s.workers[w].phase, a)
    ensures var p := s.workers[w].phase;
            var t := WorkerDb(spec, s.db, p, a);
            && p.c.factId in s.db.facts && HasJob(t.jobs, p.c.factId) && Done(t, p.c.factId)
            && t.vectors == s.db.vectors[p.c.factId := Vector(spec.dimensions, p.blob)]
            && (s.db.facts[p.c.factId].content, p.blob) in s.answers
            && !Done(s.db, p.c.factId)
  {
    var p := s.workers[w].phase;
    var t := WorkerDb(spec, s.db, p, a);
    assert ClaimOk(s, p.c);
    assert p.c.jobId in t.jobs && t.jobs[p.c.jobId].factId == p.c.factId;
  }

  lemma WorkerKeepsFact(spec: Spec, s: State, a: Action, f: FactId)
    requires Inv(spec, s) && ByWorker(a) && !a.Claim? && a.w in s.workers && FactSettled(s, f) && PreparedAnswered(s, a.w)
    ensures FactSettled(Apply(spec, s, a), f)
  {
    var p := s.workers[a.w].phase;
    hide Inv, FactSettled, WorkerDb;
    if Stores(spec, s.db, p, a) && p.c.factId == f {
      StoredKeepsFact(spec, s, a);
    } else {
      OtherKeepsFact(spec, s, a, f);
    }
  }

  lemma StoredKeepsFact(spec: Spec, s: State, a: Action)
    requires Inv(spec, s) && ByWorker(a) && !a.Claim? && a.w in s.workers && PreparedAnswered(s, a.w)
    requires Stores(spec, s.db, s.workers[a.w].phase, a) && FactSettled(s, s.workers[a.w].phase.c.factId)
    ensures FactSettled(Apply(spec, s, a), s.workers[a.w].phase.c.factId)
  {
    hide Inv, Done, WorkerDb, HasJob, Stores;
    StoredFact(spec, s, a.w, a);
  }

  lemma OtherKeepsFact(spec: Spec, s: State, a: Action, f: FactId)
    requires Inv(spec, s) && ByWorker(a) && !a.Claim? && a.w in s.workers && FactSettled(s, f)
    requires var p := s.workers[a.w].phase; !(Stores(spec, s.db, p, a) && p.c.factId == f)
    ensures FactSettled(Apply(spec, s, a), f)
  {
    hide WorkerDb, Inv, Stores, Done, HasJob, WorkerPhase;
    var p := s.workers[a.w].phase;
    OtherVectorsStay(spec, s.db, p, a, f);
    if HasJob(s.db.jobs, f) {
      WorkerKeepsJob(spec, s, a.w, a, f);
    }
    if Done(s.db, f) {
      WorkerKeepsDone(spec, s, a.w, a, f);
    }
  }

  lemma WorkerKeepsJob(spec: Spec, s: State, w: WorkerId, a: Action, f: FactId)
    requires Inv(spec, s) && w in s.workers && HasJob(s.db.jobs, f)
    ensures HasJob(WorkerDb(spec, s.db, s.workers[w].phase, a).jobs, f)
  {
    hide Inv, WorkerDb;
    WorkerDbKeepsOk(spec, s, w, a);
    var j :| j in s.db.jobs && s.db.jobs[j].factId == f;
    assert j in WorkerDb(spec, s.db, s.workers[w].phase, a).jobs;
  }

  lemma OtherVectorsStay(spec: Spec, db: Db, p: Phase, a: Action, f: FactId)
    requires !(Stores(spec, db, p, a) && p.c.factId == f)
    ensures var t := WorkerDb(spec, db, p, a);
            (f in t.vectors <==> f in db.vectors) && (f in t.vectors ==> t.vectors[f] == db.vectors[f])
  {
  }

  lemma ClaimKeepsFact(spec: Spec, s: State, w: WorkerId, now: Clock, token: Token, f: FactId)
    requires w in s.workers && FactSettled(s, f)
    ensures FactSettled(DoClaim(spec, s, w, now, token), f)
  {
    var t := DoClaim(spec, s, w, now, token);
    ClaimKeepsJobs(spec, s, w, now, token);
    if Done(s.db, f) {
      ClaimKeepsDone(spec, s, w, now, token, f);
    }
    if HasJob(s.db.jobs, f) {
      var j :| j in s.db.jobs && s.db.jobs[j].factId == f;
      assert j in t.db.jobs && t.db.jobs[j].factId == f;
    }
  }

  lemma PreparedStays(spec: Spec, s: State, a: Action, w: WorkerId)
    requires w in s.workers && PreparedAnswered(s, w)
    ensures w in Apply(spec, s, a).workers && PreparedAnswered(Apply(spec, s, a), w)
  {
  }

  lemma StepKeepsHistory(spec: Spec, s: State, a: Action)
    requires Inv(spec, s) && HistoryInv(s)
    ensures HistoryInv(Apply(spec, s, a))
  {
    var t := Apply(spec, s, a);
    forall f
      ensures FactSettled(t, f)
    {
      assert FactSettled(s, f);
      StepKeepsFact(spec, s, a, f);
    }
    assert t.workers.Keys == s.workers.Keys;
    forall w | w in t.workers
      ensures PreparedAnswered(t, w)
    {
      assert PreparedAnswered(s, w);
      PreparedStays(spec, s, a, w);
    }
  }

  lemma StepKeepsFact(spec: Spec, s: State, a: Action, f: FactId)
    requires Inv(spec, s) && FactSettled(s, f) && (ByWorker(a) && a.w in s.workers ==> PreparedAnswered(s, a.w))
    ensures FactSettled(Apply(spec, s, a), f)
  {
    hide Inv, FactSettled, PreparedAnswered, DoClaim, WorkerDb, FactsDb;
    if !ByWorker(a) {
      FactsKeepFact(spec, s, a, f);
    } else if a.w in s.workers {
      if a.Claim? {
        ClaimKeepsFact(spec, s, a.w, a.now, a.token, f);
      } else {
        WorkerKeepsFact(spec, s, a, f);
      }
    }
  }

  lemma {:induction false} RunKeepsHistory(spec: Spec, s: State, actions: seq<Action>)
    requires Inv(spec, s) && HistoryInv(s)
    ensures Inv(spec, Run(spec, s, actions)) && HistoryInv(Run(spec, s, actions))
    decreases |actions|
  {
    hide Inv, HistoryInv, Apply;
    if actions != [] {
      StepKeepsInv(spec, s, actions[0]);
      StepKeepsHistory(spec, s, actions[0]);
      RunKeepsHistory(spec, Apply(spec, s, actions[0]), actions[1..]);
    }
  }

  lemma ReachableHistory(spec: Spec, s: State)
    requires Reachable(spec, s)
    ensures Inv(spec, s) && HistoryInv(s)
  {
    var s0, actions :| Initial(s0) && s == Run(spec, s0, actions);
    RunKeepsHistory(spec, s0, actions);
  }

  // ------------------------------------------------------------------
  // A stored vector stays until it is dropped
  // ------------------------------------------------------------------

  ghost predicate Drops(a: Action, f: FactId) {
    a.DropVector? && a.f == f
  }

  /** No step but a drop touches a stored vector or what it was computed from. */
  lemma VectorStays(spec: Spec, s: State, a: Action, f: FactId)
    requires Inv(spec, s) && FactSettled(s, f) && f in s.db.vectors && !Drops(a, f)
    ensures var t := Apply(spec, s, a);
            && f in t.db.vectors && t.db.vectors[f] == s.db.vectors[f]
            && f in t.embedded && t.embedded[f] == s.embedded[f]
  {
    if !ByWorker(a) {
      FactsKeepVectors(spec, s.db, a);
    } else if a.w in s.workers {
      if a.Claim? {
        ClaimKeepsDone(spec, s, a.w, a.now, a.token, f);
      } else {
        hide WorkerDb, Inv, Stores;
        WorkerKeepsDone(spec, s, a.w, a, f);
      }
    }
  }

  /** The content of a fact after an action, from the action alone. */
  function Rewritten(f: FactId, content: Option<string>, a: Action): Option<string> {
    match a
    case InsertFact(g, fact, _) => if g == f && content.None? then Some(fact.content) else content
    case EditFact(g, text) => if g == f && content.Some? then Some(text) else content
    case RetireFact(g, fact) => if g == f && content.Some? && !Active(fact) then Some(fact.content) else content
    case DeleteFact(g) => if g == f then None else content
    case _ => content
  }

  /** What a list of actions leaves as the content of a fact. */
  function ContentAfter(f: FactId, content: Option<string>, actions: seq<Action>): Option<string>
    decreases |actions|
  {
    if actions == [] then content else ContentAfter(f, Rewritten(f, content, actions[0]), actions[1..])
  }

  function ContentOf(db: Db, f: FactId): Option<string> {
    if f in db.facts then Some(db.facts[f].content) else None
  }

  lemma StepContent(spec: Spec, s: State, a: Action, f: FactId)
    ensures ContentOf(Apply(spec, s, a).db, f) == Rewritten(f, ContentOf(s.db, f), a)
  {
    if a.Backfill? {
      BackfillKeepsVectors(spec, s.db, a.ids, a.now);
    }
  }

  lemma {:induction false} RunContent(spec: Spec, s: State, actions: seq<Action>, f: FactId)
    ensures ContentOf(Run(spec, s, actions).db, f) == ContentAfter(f, ContentOf(s.db, f), actions)
    decreases |actions|
  {
    hide Apply, Rewritten, ContentOf;
    if actions != [] {
      StepContent(spec, s, actions[0], f);
      RunContent(spec, Apply(spec, s, actions[0]), actions[1..], f);
    }
  }

  lemma {:induction false} RunKeepsVector(spec: Spec, s: State, actions: seq<Action>, f: FactId)
    requires Inv(spec, s) && HistoryInv(s) && f in s.db.vectors
    requires forall k :: 0 <= k < |actions| ==> !Drops(actions[k], f)
    ensures var t := Run(spec, s, actions);
            && f in t.db.vectors && t.db.vectors[f] == s.db.vectors[f]
            && f in s.embedded && f in t.embedded && t.embedded[f] == s.embedded[f]
    decreases |actions|
  {
    assert FactSettled(s, f);
    hide Inv, HistoryInv, Apply, Drops;
    if actions != [] {
      StepKeepsInv(spec, s, actions[0]);
      StepKeepsHistory(spec, s, actions[0]);
      VectorStays(spec, s, actions[0], f);
      RunKeepsVector(spec, Apply(spec, s, actions[0]), actions[1..], f);
    }
  }
}
