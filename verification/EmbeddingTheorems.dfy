/** What the embedding outbox promises, stated over every reachable state and run. */
module EmbeddingTheorems {
  import opened Common
  import opened EmbeddingTable
  import opened EmbeddingRuns
  import opened EmbeddingHistory

  // ------------------------------------------------------------------
  // Coverage
  // ------------------------------------------------------------------

  /** An active settled fact has a vector of the configured size, or a job of
      the configured version and size that is pending, processing or dead;
      exactly unless its vector was dropped under it with no enqueue since. */
  lemma OutboxCoverage(spec: Spec, s: State, f: FactId)
    requires Reachable(spec, s) && ActiveIn(s.db.facts, f)
    ensures f !in s.exposed <==>
              || HasVector(spec, s.db.vectors, f)
              || exists j :: j in s.db.jobs && s.db.jobs[j].factId == f && OfSpec(spec, s.db.jobs[j]) && !s.db.jobs[j].status.Completed?
  {
    ReachableHistory(spec, s);
    assert FactSettled(s, f);
    if f !in s.exposed {
      assert Covered(spec, s.db, f);
      if !HasVector(spec, s.db.vectors, f) {
        var j :| OpenJob(s.db.jobs, j, f);
        assert j in s.db.jobs && s.db.jobs[j].factId == f && OfSpec(spec, s.db.jobs[j]);
      }
    }
  }

  /** Dropping a vector keeps the coverage of the other facts, and that of its
      own exactly if the fact is inactive or has a job that will bring another. */
  lemma DropKeepsCoverageIff(spec: Spec, db: Db, exposed: set<FactId>, f: FactId)
    requires DbOk(spec, db, exposed) && f !in exposed
    ensures Coverage(spec, FactsDb(spec, db, DropVector(f)), exposed) <==>
              !ActiveIn(db.facts, f) || exists j :: OpenJob(db.jobs, j, f)
  {
    var t := FactsDb(spec, db, DropVector(f));
    forall g | ActiveIn(t.facts, g) && g !in exposed && g != f
      ensures Covered(spec, t, g)
    {
      assert Covered(spec, db, g);
    }
    assert Covered(spec, t, f) <==> exists j :: OpenJob(db.jobs, j, f);
  }

  /** Without drops every active fact stays covered. */
  lemma {:induction false} NothingExposed(spec: Spec, s: State, actions: seq<Action>)
    requires s.exposed == {} && forall k :: 0 <= k < |actions| ==> !actions[k].DropVector?
    ensures Run(spec, s, actions).exposed == {}
    decreases |actions|
  {
    if actions != [] {
      NothingExposed(spec, Apply(spec, s, actions[0]), actions[1..]);
    }
  }

  lemma {:induction false} AscendingLists(s: set<nat>)
    ensures Ids(Ascending(s)) == s
  {
    if s != {} {
      var rest := Ascending(s - {Least(s)});
      AscendingLists(s - {Least(s)});
      assert forall x :: x in Ids(rest) <==> x in rest;
      assert Ascending(s) == [Least(s)] + rest;
    }
  }

  /** A backfill, as the service runs at startup, covers every active fact,
      whatever was dropped before. */
  lemma BackfillRestoresCoverage(spec: Spec, s: State, now: Clock, f: FactId)
    requires Reachable(spec, s) && ActiveIn(s.db.facts, f)
    ensures Covered(spec, Apply(spec, s, Backfill(Ascending(MissingFacts(spec, s.db)), now)).db, f)
  {
    ReachableInv(spec, s);
    var ids := Ascending(MissingFacts(spec, s.db));
    BackfillKeepsOk(spec, s.db, s.exposed, ids, now);
    BackfillKeepsVectors(spec, s.db, ids, now);
    AscendingLists(MissingFacts(spec, s.db));
    assert Missing(spec, s.db, f) ==> f in Ids(ids);
  }

  ghost predicate NoDeadLetters(db: Db) {
    forall j :: j in db.jobs ==> !db.jobs[j].status.DeadLetter?
  }

  /** With no dead letters and both reads from one state, `load_documents` meets
      no stored vector it refuses, and on distinct active candidates fails
      exactly for those whose vector was dropped under them. */
  lemma LoadOnOneState(spec: Spec, s: State, ids: seq<FactId>)
    requires Reachable(spec, s) && NoDeadLetters(s.db)
    requires forall f :: f in ids ==> ActiveIn(s.db.facts, f)
    ensures Uncovered(spec, s.db.vectors, s.db.jobs, ids) == set f | f in ids && f in s.exposed
    ensures forall f :: f in ids && f in s.db.vectors ==> s.db.vectors[f].dim == spec.dimensions && |s.db.vectors[f].blob| == spec.dimensions
  {
    ReachableHistory(spec, s);
    forall f | f in ids
      ensures f in s.exposed <==> f !in s.db.vectors && !LiveJob(spec, s.db.jobs, f)
    {
      OutboxCoverage(spec, s, f);
      assert FactSettled(s, f);
      if f !in s.exposed && f !in s.db.vectors {
        var j :| j in s.db.jobs && s.db.jobs[j].factId == f && OfSpec(spec, s.db.jobs[j]) && !s.db.jobs[j].status.Completed?;
        assert LiveJob(spec, s.db.jobs, f);
      }
    }
  }

  /** The two reads of `load_documents` straddling a run: a candidate that was
      active at the first read is reported uncovered exactly when it had no
      vector then and its job has completed by the second read. Such a report
      is stale: by then the fact has its vector, or lost it again, or is no
      longer active. */
  lemma SplitReadFailsIffTheJobCompleted(spec: Spec, s: State, actions: seq<Action>, f: FactId)
    requires Reachable(spec, s) && ActiveIn(s.db.facts, f) && f !in s.exposed
    requires NoDeadLetters(Run(spec, s, actions).db)
    ensures var t := Run(spec, s, actions);
            && (f in Uncovered(spec, s.db.vectors, t.db.jobs, [f]) <==>
                  f !in s.db.vectors && exists j :: j in t.db.jobs && t.db.jobs[j].factId == f && t.db.jobs[j].status.Completed?)
            && (f in Uncovered(spec, s.db.vectors, t.db.jobs, [f]) && ActiveIn(t.db.facts, f) ==>
                  HasVector(spec, t.db.vectors, f) || f in t.exposed)
  {
    ReachableInv(spec, s);
    RunKeepsInv(spec, s, actions);
    var t := Run(spec, s, actions);
    assert Covered(spec, s.db, f);
    if f !in s.db.vectors {
      var j :| OpenJob(s.db.jobs, j, f);
      assert j in t.db.jobs && t.db.jobs[j].factId == f;
      assert forall k :: k in t.db.jobs && t.db.jobs[k].factId == f ==> k == j;
      assert ActiveIn(t.db.facts, f) && f !in t.exposed ==> Covered(spec, t.db, f);
    }
  }

  lemma {:induction false} RunThenStep(spec: Spec, s: State, actions: seq<Action>, a: Action)
    ensures Run(spec, s, actions + [a]) == Apply(spec, Run(spec, s, actions), a)
    decreases |actions|
  {
    if actions == [] {
      assert Run(spec, s, [a]) == Run(spec, Apply(spec, s, a), []);
    } else {
      assert (actions + [a])[1..] == actions[1..] + [a];
      RunThenStep(spec, Apply(spec, s, actions[0]), actions[1..], a);
    }
  }

  lemma ReachableStep(spec: Spec, s: State, a: Action)
    requires Reachable(spec, s)
    ensures Reachable(spec, Apply(spec, s, a))
  {
    var s0, actions :| Initial(s0) && s == Run(spec, s0, actions);
    RunThenStep(spec, s0, actions, a);
    assert Apply(spec, s, a) == Run(spec, s0, actions + [a]);
  }

  // ------------------------------------------------------------------
  // Freshness
  // ------------------------------------------------------------------

  /** A worker step that changes a stored vector stores an answer of the model
      for the fact's content as it stands in that transaction, on a fact that
      is active there. */
  lemma StoredVectorsAreFresh(spec: Spec, s: State, a: Action, f: FactId)
    requires Reachable(spec, s) && ByWorker(a)
    requires var t := Apply(spec, s, a).db.vectors; (f in t) != (f in s.db.vectors) || (f in t && t[f] != s.db.vectors[f])
    ensures var t := Apply(spec, s, a);
            && f in t.db.vectors && ActiveIn(t.db.facts, f) && t.db.facts == s.db.facts
            && (t.db.facts[f].content, t.db.vectors[f].blob) in t.answers
            && t.db.vectors[f].dim == spec.dimensions == |t.db.vectors[f].blob|
            && f in t.embedded && t.embedded[f] == t.db.facts[f].content
  {
    ReachableHistory(spec, s);
    assert a.w in s.workers && !a.Claim?;
    var p := s.workers[a.w].phase;
    WorkerDbTouchesOneJob(spec, s.db, p, a);
    assert PreparedAnswered(s, a.w);
    StoredFact(spec, s, a.w, a);
  }

  /** In every reachable state each stored vector is an answer the model gave for
      the content its fact had in the transaction that stored it. */
  lemma StoredVectorsAreAnswers(spec: Spec, s: State, f: FactId)
    requires Reachable(spec, s) && f in s.db.vectors
    ensures f in s.embedded && (s.embedded[f], s.db.vectors[f].blob) in s.answers
  {
    ReachableHistory(spec, s);
    assert FactSettled(s, f);
  }

  /** The stored vector is of the content the fact has now. */
  ghost predicate Fresh(s: State, f: FactId) {
    f in s.db.vectors && f in s.embedded && ContentOf(s.db, f) == Some(s.embedded[f])
  }

  /** From any state on, until its vector is dropped, a fact keeps the vector it
      has, whatever is enqueued, backfilled, claimed or committed; so the
      vector is fresh exactly when the edits leave the content it was made of. */
  lemma FreshAfterRunIff(spec: Spec, s: State, actions: seq<Action>, f: FactId)
    requires Reachable(spec, s) && f in s.db.vectors
    requires forall k :: 0 <= k < |actions| ==> !Drops(actions[k], f)
    ensures var t := Run(spec, s, actions);
            && f in t.db.vectors && t.db.vectors[f] == s.db.vectors[f] && f in s.embedded
            && (Fresh(t, f) <==> ContentAfter(f, ContentOf(s.db, f), actions) == Some(s.embedded[f]))
  {
    ReachableHistory(spec, s);
    RunKeepsVector(spec, s, actions, f);
    RunContent(spec, s, actions, f);
  }

  /** Counted from the commit: the vector is of the current content exactly when
      the edits, deletions and insertions since then leave the fact with the
      content it had in the committing transaction. */
  lemma FreshSinceCommitIff(spec: Spec, s: State, a: Action, actions: seq<Action>, f: FactId)
    requires Reachable(spec, s) && ByWorker(a) && a.w in s.workers
    requires Stores(spec, s.db, s.workers[a.w].phase, a) && s.workers[a.w].phase.c.factId == f
    requires forall k :: 0 <= k < |actions| ==> !Drops(actions[k], f)
    ensures ActiveIn(s.db.facts, f)
    ensures var content := Some(s.db.facts[f].content);
            Fresh(Run(spec, Apply(spec, s, a), actions), f) <==> ContentAfter(f, content, actions) == content
  {
    var t := Apply(spec, s, a);
    ReachableHistory(spec, s);
    assert PreparedAnswered(s, a.w);
    StoredFact(spec, s, a.w, a);
    StepContent(spec, s, a, f);
    ReachableStep(spec, s, a);
    hide Stores, WorkerDb, Reachable, Inv, HistoryInv;
    FreshAfterRunIff(spec, t, actions, f);
  }

  ghost predicate Writes(a: Action, f: FactId) {
    (a.InsertFact? || a.EditFact? || a.RetireFact? || a.DeleteFact?) && a.f == f
  }

  lemma {:induction false} UnwrittenContent(f: FactId, content: Option<string>, actions: seq<Action>)
    requires forall k :: 0 <= k < |actions| ==> !Writes(actions[k], f)
    ensures ContentAfter(f, content, actions) == content
    decreases |actions|
  {
    if actions != [] {
      assert !Writes(actions[0], f);
      UnwrittenContent(f, content, actions[1..]);
    }
  }

  /** An edit to other content leaves the old vector in place for good: no
      enqueue, backfill or worker refreshes it. */
  lemma EditLeavesItStale(spec: Spec, s: State, f: FactId, content: string, actions: seq<Action>)
    requires Reachable(spec, s) && f in s.db.facts && f in s.db.vectors && f in s.embedded && s.embedded[f] != content
    requires forall k :: 0 <= k < |actions| ==> !Drops(actions[k], f) && !Writes(actions[k], f)
    ensures var t := Run(spec, Apply(spec, s, EditFact(f, content)), actions);
            f in t.db.vectors && t.db.vectors[f] == s.db.vectors[f] && !Fresh(t, f)
  {
    var t := Apply(spec, s, EditFact(f, content));
    ReachableStep(spec, s, EditFact(f, content));
    FreshAfterRunIff(spec, t, actions, f);
    UnwrittenContent(f, Some(content), actions);
  }

  // ------------------------------------------------------------------
  // Lease fencing
  // ------------------------------------------------------------------

  lemma ProcessingIffLeased(spec: Spec, s: State, j: JobId)
    requires Reachable(spec, s) && j in s.db.jobs
    ensures s.db.jobs[j].status.Processing? <==> s.db.jobs[j].leaseToken.Some?
    ensures s.db.jobs[j].status.Processing? <==> s.db.jobs[j].leaseExpiresAt.Some?
    ensures s.db.jobs[j].status.Processing? <==> s.db.jobs[j].leaseOwner.Some?
    ensures s.db.jobs[j].attempts <= spec.maxAttempts
  {
    ReachableInv(spec, s);
  }

  /** Settling, committing and failing change a job or a vector only for the
      worker holding that job's latest claim. */
  lemma OnlyTheLatestClaimChangesAJob(spec: Spec, s: State, a: Action, j: JobId)
    requires Reachable(spec, s) && ByWorker(a) && !a.Claim? && j in s.db.jobs
    requires var t := Apply(spec, s, a).db; j !in t.jobs || t.jobs[j] != s.db.jobs[j]
    ensures a.w in s.workers && !s.workers[a.w].phase.Idle?
    ensures var c := s.workers[a.w].phase.c;
            c.jobId == j && s.db.jobs[j].leaseToken == Some(c.token) && j in s.latest && s.latest[j] == c.token
  {
    ReachableInv(spec, s);
    WorkerDbTouchesOneJob(spec, s.db, s.workers[a.w].phase, a);
  }

  // ------------------------------------------------------------------
  // Bounded work
  // ------------------------------------------------------------------

  function Left(spec: Spec, j: Job): nat {
    if j.status.Completed? || j.status.DeadLetter? || j.attempts > spec.maxAttempts then 0 else spec.maxAttempts - j.attempts
  }

  function AttemptsLeft(spec: Spec): Job -> nat {
    j => Left(spec, j)
  }

  ghost function Budget(spec: Spec, jobs: Jobs): nat {
    TotalBy(jobs, AttemptsLeft(spec))
  }

  lemma UpsertBudget(spec: Spec, db: Db, f: FactId, content: string, now: Clock)
    requires JobsOk(spec, db)
    ensures Budget(spec, Upserted(spec, db, f, content, now).jobs) <= Budget(spec, db.jobs) + spec.maxAttempts
  {
    var t := Upserted(spec, db, f, content, now).jobs;
    if HasJob(db.jobs, f) {
      var j :| j in db.jobs && db.jobs[j].factId == f;
      assert t == db.jobs[j := t[j]];
      TotalByUpdate(db.jobs, AttemptsLeft(spec), j, t[j]);
    } else {
      TotalByUpdate(db.jobs, AttemptsLeft(spec), db.nextJob, FreshJob(spec, f, content, now));
    }
  }

  /** How many enqueues a fact action can amount to. */
  function Enqueues(a: Action): nat {
    match a
    case InsertFact(_, _, _) => 1
    case ActivateFact(_, _) => 1
    case Backfill(ids, _) => |ids|
    case _ => 0
  }

  lemma {:induction false} BackfillBudget(spec: Spec, db: Db, ids: seq<FactId>, now: Clock)
    requires JobsOk(spec, db)
    ensures Budget(spec, BackfillTxn(spec, db, ids, now).jobs) <= Budget(spec, db.jobs) + spec.maxAttempts * |ids|
    decreases |ids|
  {
    if ids != [] {
      if Missing(spec, db, ids[0]) {
        UpsertBudget(spec, db, ids[0], db.facts[ids[0]].content, now);
        UpsertJobs(spec, db, ids[0], db.facts[ids[0]].content, now);
      }
      BackfillBudget(spec, BackfillStep(spec, db, ids[0], now), ids[1..], now);
      Distribute(spec.maxAttempts, 1, |ids| - 1);
    }
  }

  lemma EnqueueBudget(spec: Spec, db: Db, f: FactId, fact: Fact, now: Clock)
    requires JobsOk(spec, db)
    ensures Budget(spec, EnqueueTxn(spec, db.(facts := db.facts[f := fact]), f, now).jobs) <= Budget(spec, db.jobs) + spec.maxAttempts
  {
    UpsertBudget(spec, db, f, fact.content, now);
  }

  lemma FactsBudget(spec: Spec, db: Db, a: Action)
    requires JobsOk(spec, db) && !ByWorker(a)
    ensures Budget(spec, FactsDb(spec, db, a).jobs) <= Budget(spec, db.jobs) + spec.maxAttempts * Enqueues(a)
  {
    if a.InsertFact? {
      EnqueueBudget(spec, db, a.f, a.fact, a.now);
    } else if a.ActivateFact? {
      if a.f in db.facts {
        EnqueueBudget(spec, db, a.f, Fact(db.facts[a.f].content, None, None, None), a.now);
      }
    } else if a.Backfill? {
      BackfillBudget(spec, db, a.ids, a.now);
    } else {
      assert FactsDb(spec, db, a).jobs == db.jobs;
    }
  }

  ghost predicate Granted(spec: Spec, s: State, a: Action) {
    a.Claim? && Apply(spec, s, a).issued != s.issued
  }

  lemma ClaimSpends(spec: Spec, s: State, w: WorkerId, now: Clock, token: Token)
    requires w in s.workers
    ensures Budget(spec, DoClaim(spec, s, w, now, token).db.jobs) + (if Granted(spec, s, Claim(w, now, token)) then 1 else 0)
            <= Budget(spec, s.db.jobs)
  {
    if s.workers[w].phase.Idle? && token !in s.issued {
      ClaimIsSweepThenGrant(spec, s, w, now, token);
      var swept := SweptJobs(spec, s.db.jobs, now);
      TotalByMonotone(swept, s.db.jobs, AttemptsLeft(spec));
      var due := DueJobs(spec, swept, now);
      if due != {} {
        var id := Least(due);
        TotalByUpdate(swept, AttemptsLeft(spec), id, Leased(spec, swept[id], s.workers[w].name, now, token));
      }
    }
  }

  lemma WorkerSpends(spec: Spec, db: Db, p: Phase, a: Action)
    ensures Budget(spec, WorkerDb(spec, db, p, a).jobs) <= Budget(spec, db.jobs)
  {
    var t := WorkerDb(spec, db, p, a);
    if t != db {
      WorkerDbTouchesOneJob(spec, db, p, a);
      TotalByUpdate(db.jobs, AttemptsLeft(spec), p.c.jobId, t.jobs[p.c.jobId]);
    }
  }

  lemma WorkerStepSpends(spec: Spec, s: State, a: Action)
    requires ByWorker(a)
    ensures Budget(spec, Apply(spec, s, a).db.jobs) + (if Granted(spec, s, a) then 1 else 0) <= Budget(spec, s.db.jobs)
  {
    if a.w in s.workers {
      if a.Claim? {
        ClaimSpends(spec, s, a.w, a.now, a.token);
      } else {
        WorkerSpends(spec, s.db, s.workers[a.w].phase, a);
      }
    }
  }

  /** A step spends one unit per claim it grants, and only enqueues add any. */
  lemma StepSpends(spec: Spec, s: State, a: Action)
    requires JobsOk(spec, s.db)
    ensures Budget(spec, Apply(spec, s, a).db.jobs) + (if Granted(spec, s, a) then 1 else 0)
            <= Budget(spec, s.db.jobs) + spec.maxAttempts * Enqueues(a)
  {
    if ByWorker(a) {
      WorkerStepSpends(spec, s, a);
      assert Enqueues(a) == 0;
    } else {
      FactsBudget(spec, s.db, a);
    }
  }

  ghost function GrantCount(spec: Spec, s: State, actions: seq<Action>): nat
    decreases |actions|
  {
    if actions == [] then 0
    else (if Granted(spec, s, actions[0]) then 1 else 0) + GrantCount(spec, Apply(spec, s, actions[0]), actions[1..])
  }

  ghost function EnqueueCount(actions: seq<Action>): nat {
    if actions == [] then 0 else Enqueues(actions[0]) + EnqueueCount(actions[1..])
  }

  /** Over any run, the claims granted are paid for by the attempts left at the
      start plus a full allowance per enqueue. */
  lemma {:induction false} ClaimsAreBounded(spec: Spec, s: State, actions: seq<Action>)
    requires Inv(spec, s)
    ensures GrantCount(spec, s, actions) + Budget(spec, Run(spec, s, actions).db.jobs)
            <= Budget(spec, s.db.jobs) + spec.maxAttempts * EnqueueCount(actions)
    decreases |actions|
  {
    if actions != [] {
      StepSpends(spec, s, actions[0]);
      StepKeepsInv(spec, s, actions[0]);
      ClaimsAreBounded(spec, Apply(spec, s, actions[0]), actions[1..]);
      Distribute(spec.maxAttempts, Enqueues(actions[0]), EnqueueCount(actions[1..]));
    }
  }

  /** A claim that comes back empty-handed once every delay and lease has passed
      leaves only completed and dead-lettered jobs. */
  lemma AnEmptyClaimMeansAllOver(spec: Spec, s: State, w: WorkerId, now: Clock, token: Token, j: JobId)
    requires Reachable(spec, s) && w in s.workers && s.workers[w].phase.Idle? && token !in s.issued
    requires forall k :: k in s.db.jobs ==>
               && s.db.jobs[k].availableAt <= now
               && (s.db.jobs[k].leaseExpiresAt.Some? ==> s.db.jobs[k].leaseExpiresAt.value <= now)
    requires !Granted(spec, s, Claim(w, now, token))
    requires j in Apply(spec, s, Claim(w, now, token)).db.jobs
    ensures var job := Apply(spec, s, Claim(w, now, token)).db.jobs[j]; job.status.Completed? || job.status.DeadLetter?
  {
    ReachableInv(spec, s);
    ClaimIsSweepThenGrant(spec, s, w, now, token);
    assert DueJobs(spec, SweptJobs(spec, s.db.jobs, now), now) == {};
    assert j !in DueJobs(spec, SweptJobs(spec, s.db.jobs, now), now);
  }

  // ------------------------------------------------------------------
  // The split read, as a concrete run
  // ------------------------------------------------------------------

  const DEMO_SPEC := Spec("v1", 1, 5, 60)
  const DEMO_CLAIM := ClaimedJob(0, 0, Digest("x"), 1, 0)

  function DemoState(p: Phase, answers: set<(string, Blob)>): State {
    State(Db(map[0 := Fact("x", None, None, None)], map[],
             map[0 := Leased(DEMO_SPEC, FreshJob(DEMO_SPEC, 0, "x", 0), "a", 0, 0)], 1),
          map[0 := Worker("a", p)], map[0 := 0], map[0 := 0], answers, map[], {})
  }

  lemma DemoClaimed()
    ensures Reachable(DEMO_SPEC, DemoState(Reading(DEMO_CLAIM), {}))
  {
    var fact := Fact("x", None, None, None);
    var s0 := State(Db(map[], map[], map[], 0), map[0 := Worker("a", Idle)], map[], map[], {}, map[], {});
    assert s0 == Run(DEMO_SPEC, s0, []);
    ReachableStep(DEMO_SPEC, s0, InsertFact(0, fact, 0));
    var s1 := State(Db(map[0 := fact], map[], map[0 := FreshJob(DEMO_SPEC, 0, "x", 0)], 1), map[0 := Worker("a", Idle)], map[], map[], {}, map[], {});
    assert !HasJob(s0.db.jobs, 0);
    assert FactsDb(DEMO_SPEC, s0.db, InsertFact(0, fact, 0)) == s1.db;
    assert SweptJobs(DEMO_SPEC, s1.db.jobs, 0) == s1.db.jobs;
    assert DueJobs(DEMO_SPEC, s1.db.jobs, 0) == {0} && 0 in {0};
    ReachableStep(DEMO_SPEC, s1, Claim(0, 0, 0));
    ClaimIsSweepThenGrant(DEMO_SPEC, s1, 0, 0, 0);
    assert Grant(DEMO_SPEC, s1, 0, 0, 0, 0) == DemoState(Reading(DEMO_CLAIM), {});
  }

  lemma DemoPrepared()
    ensures Reachable(DEMO_SPEC, DemoState(Prepared(DEMO_CLAIM, "x", [7]), {("x", [7])}))
  {
    DemoClaimed();
    ReachableStep(DEMO_SPEC, DemoState(Reading(DEMO_CLAIM), {}), Read(0));
    assert Move(DemoState(Reading(DEMO_CLAIM), {}), 0, Embedding(DEMO_CLAIM, "x")) == DemoState(Embedding(DEMO_CLAIM, "x"), {});
    ReachableStep(DEMO_SPEC, DemoState(Embedding(DEMO_CLAIM, "x"), {}), Return(0, Some([7])));
    assert Apply(DEMO_SPEC, DemoState(Embedding(DEMO_CLAIM, "x"), {}), Return(0, Some([7]))) == DemoState(Prepared(DEMO_CLAIM, "x", [7]), {("x", [7])});
  }

  /** A job that commits between the two reads makes an active, covered fact look uncovered. */
  lemma SplitReadCanFail() returns (s: State, a: Action)
    ensures Reachable(DEMO_SPEC, s) && NoDeadLetters(Apply(DEMO_SPEC, s, a).db)
    ensures ActiveIn(s.db.facts, 0) && ActiveIn(Apply(DEMO_SPEC, s, a).db.facts, 0)
    ensures Uncovered(DEMO_SPEC, s.db.vectors, Apply(DEMO_SPEC, s, a).db.jobs, [0]) == {0}
  {
    s, a := DemoState(Prepared(DEMO_CLAIM, "x", [7]), {("x", [7])}), Commit(0, 1);
    DemoPrepared();
    var t := Apply(DEMO_SPEC, s, a);
    assert t.db.jobs.Keys == {0} && t.db.jobs[0].status.Completed?;
    assert !LiveJob(DEMO_SPEC, t.db.jobs, 0);
    assert 0 in [0];
  }

  lemma DemoEmbedded() returns (s: State)
    ensures Reachable(DEMO_SPEC, s) && ActiveIn(s.db.facts, 0) && s.exposed == {}
    ensures 0 in s.db.vectors && 0 in s.embedded && s.embedded[0] == "x"
  {
    var p := DemoState(Prepared(DEMO_CLAIM, "x", [7]), {("x", [7])});
    DemoPrepared();
    ReachableStep(DEMO_SPEC, p, Commit(0, 1));
    s := Apply(DEMO_SPEC, p, Commit(0, 1));
    assert CommitOutcomeOf(DEMO_SPEC, p.db, DEMO_CLAIM, "x", [7]).Embedded?;
  }

  /** A reachable state with an active, covered fact whose vector is of other
      content, although a backfill has just run. */
  lemma StaleVectorExists() returns (s: State)
    ensures Reachable(DEMO_SPEC, s) && ActiveIn(s.db.facts, 0) && 0 !in s.exposed
    ensures HasVector(DEMO_SPEC, s.db.vectors, 0) && !Fresh(s, 0)
  {
    var t := DemoEmbedded();
    var u := Apply(DEMO_SPEC, t, EditFact(0, "y"));
    s := Apply(DEMO_SPEC, u, Backfill([0], 2));
    ReachableStep(DEMO_SPEC, t, EditFact(0, "y"));
    ReachableStep(DEMO_SPEC, u, Backfill([0], 2));
    BackfillKeepsVectors(DEMO_SPEC, u.db, [0], 2);
    EditLeavesItStale(DEMO_SPEC, t, 0, "y", [Backfill([0], 2)]);
    OneAction(DEMO_SPEC, u, Backfill([0], 2));
    ReachableInv(DEMO_SPEC, s);
  }

  lemma OneAction(spec: Spec, s: State, a: Action)
    ensures Run(spec, s, [a]) == Apply(spec, s, a)
  {
    assert Run(spec, Apply(spec, s, a), []) == Apply(spec, s, a);
  }
}
