/** Any number of embedding workers next to fact writes, reactivations, edits,
    deletions and backfills. A run is an arbitrary list of actions. */
module EmbeddingRuns {
  import opened Common
  import opened EmbeddingTable

  type WorkerId = nat

  /** Where a worker stands between two transactions of `process_one`. */
  datatype Phase =
    | Idle
    | Reading(c: ClaimedJob)
    | Settling(c: ClaimedJob)
    | Embedding(c: ClaimedJob, content: string)
    | Prepared(c: ClaimedJob, content: string, blob: Blob)
    | Failing(c: ClaimedJob)

  datatype Worker = Worker(name: string, phase: Phase)

  /** Tables and workers, and history kept only to state properties: tokens
      issued, the latest token per job, every text the model embedded with its
      answer, the content a fact had in the transaction that stored its vector,
      and the facts that lost a vector while active with no enqueue since. */
  datatype State = State(
    db: Db,
    workers: map<WorkerId, Worker>,
    issued: map<Token, JobId>,
    latest: map<JobId, Token>,
    answers: set<(string, Blob)>,
    embedded: map<FactId, string>,
    exposed: set<FactId>)

  /** Fact writes pair an insertion or reactivation with the enqueue in the same
      transaction; the other fact actions never make a fact active. Vectors may
      be dropped at any time, also those of active facts. */
  datatype Action =
    | InsertFact(f: FactId, fact: Fact, now: Clock)
    | ActivateFact(f: FactId, now: Clock)
    | RetireFact(f: FactId, fact: Fact)
    | EditFact(f: FactId, content: string)
    | DeleteFact(f: FactId)
    | DropVector(f: FactId)
    | Backfill(ids: seq<FactId>, now: Clock)
    | Claim(w: WorkerId, now: Clock, token: Token)
    | Read(w: WorkerId)
    | Settle(w: WorkerId, now: Clock)
    | Return(w: WorkerId, blob: Option<Blob>)
    | Commit(w: WorkerId, now: Clock)
    | Fail(w: WorkerId, error: string, now: Clock)
    | Crash(w: WorkerId)

  predicate ByWorker(a: Action) {
    a.Claim? || a.Read? || a.Settle? || a.Return? || a.Commit? || a.Fail? || a.Crash?
  }

  // ------------------------------------------------------------------
  // The actions
  // ------------------------------------------------------------------

  function FactsDb(spec: Spec, db: Db, a: Action): Db {
    match a
    case InsertFact(f, fact, now) =>
      if f in db.facts then db else EnqueueTxn(spec, db.(facts := db.facts[f := fact]), f, now)
    case ActivateFact(f, now) =>
      if f !in db.facts then db
      else EnqueueTxn(spec, db.(facts := db.facts[f := Fact(db.facts[f].content, None, None, None)]), f, now)
    case RetireFact(f, fact) =>
      if f !in db.facts || Active(fact) then db else db.(facts := db.facts[f := fact])
    case EditFact(f, content) =>
      if f !in db.facts then db else db.(facts := db.facts[f := db.facts[f].(content := content)])
    case DeleteFact(f) => db.(facts := db.facts - {f})
    case DropVector(f) => db.(vectors := db.vectors - {f})
    case Backfill(ids, now) => BackfillTxn(spec, db, ids, now)
    case _ => db
  }

  function Ids(ids: seq<FactId>): set<FactId> {
    set f | f in ids
  }

  /** The facts an action enqueues, as far as they need it. */
  function Enqueued(db: Db, a: Action): set<FactId> {
    match a
    case InsertFact(f, _, _) => if f in db.facts then {} else {f}
    case ActivateFact(f, _) => if f in db.facts then {f} else {}
    case Backfill(ids, _) => Ids(ids)
    case _ => {}
  }

  /** Dropping the vector of an active fact exposes it; an enqueue covers it again. */
  function ExposedAfter(db: Db, exposed: set<FactId>, a: Action): set<FactId> {
    if a.DropVector? then if ActiveIn(db.facts, a.f) && a.f in db.vectors then exposed + {a.f} else exposed
    else exposed - Enqueued(db, a)
  }

  function Move(s: State, w: WorkerId, phase: Phase): State
    requires w in s.workers
  {
    s.(workers := s.workers[w := s.workers[w].(phase := phase)])
  }

  ghost function DoClaim(spec: Spec, s: State, w: WorkerId, now: Clock, token: Token): State
    requires w in s.workers
  {
    if !s.workers[w].phase.Idle? || token in s.issued then s
    else
      var (jobs, claim) := ClaimTxn(spec, s.db.jobs, s.workers[w].name, now, token);
      if claim.None? then s.(db := s.db.(jobs := jobs))
      else Move(s, w, Reading(claim.value)).(
             db := s.db.(jobs := jobs),
             issued := s.issued[token := claim.value.jobId],
             latest := s.latest[claim.value.jobId := token])
  }

  /** The database transaction a worker action runs in its phase. */
  function WorkerDb(spec: Spec, db: Db, p: Phase, a: Action): Db {
    match a
    case Settle(_, now) => if p.Settling? then SettleTxn(db, p.c, now) else db
    case Commit(_, now) => if p.Prepared? then CommitTxn(spec, db, p.c, p.content, p.blob, now) else db
    case Fail(_, error, now) => if p.Failing? then FailTxn(spec, db, p.c, error, now) else db
    case _ => db
  }

  /** Where the worker goes. A vector of the wrong size is refused before it is
      prepared; a lost lease raises, which ends the attempt. */
  function WorkerPhase(spec: Spec, db: Db, p: Phase, a: Action): Phase {
    match a
    case Read(_) =>
      if !p.Reading? then p
      else if ActiveIn(db.facts, p.c.factId) then Embedding(p.c, db.facts[p.c.factId].content)
      else Settling(p.c)
    case Return(_, blob) =>
      if !p.Embedding? then p
      else if blob.Some? && |blob.value| == spec.dimensions then Prepared(p.c, p.content, blob.value)
      else Failing(p.c)
    case Settle(_, _) => if p.Settling? then Idle else p
    case Commit(_, _) => if p.Prepared? then Idle else p
    case Fail(_, _, _) => if p.Failing? then Idle else p
    case Crash(_) => Idle
    case _ => p
  }

  /** The model's answers, each with the text it was given. */
  function AnswersAfter(answers: set<(string, Blob)>, p: Phase, a: Action): set<(string, Blob)> {
    if a.Return? && p.Embedding? && a.blob.Some? then answers + {(p.content, a.blob.value)} else answers
  }

  /** This step stores a vector for the fact the worker claimed. */
  predicate Stores(spec: Spec, db: Db, p: Phase, a: Action) {
    a.Commit? && p.Prepared? && CommitOutcomeOf(spec, db, p.c, p.content, p.blob).Embedded?
  }

  function EmbeddedAfter(spec: Spec, db: Db, embedded: map<FactId, string>, p: Phase, a: Action): map<FactId, string> {
    if Stores(spec, db, p, a) then embedded[p.c.factId := db.facts[p.c.factId].content] else embedded
  }

  ghost function Apply(spec: Spec, s: State, a: Action): State {
    if !ByWorker(a) then s.(db := FactsDb(spec, s.db, a), exposed := ExposedAfter(s.db, s.exposed, a))
    else if a.w !in s.workers then s
    else if a.Claim? then DoClaim(spec, s, a.w, a.now, a.token)
    else
      var p := s.workers[a.w].phase;
      Move(s, a.w, WorkerPhase(spec, s.db, p, a)).(
        db := WorkerDb(spec, s.db, p, a),
        answers := AnswersAfter(s.answers, p, a),
        embedded := EmbeddedAfter(spec, s.db, s.embedded, p, a))
  }

  ghost function Run(spec: Spec, s: State, actions: seq<Action>): State
    decreases |actions|
  {
    if actions == [] then s else Run(spec, Apply(spec, s, actions[0]), actions[1..])
  }

  ghost predicate Initial(s: State) {
    && s.db == Db(map[], map[], map[], 0) && s.issued == map[] && s.latest == map[]
    && s.answers == {} && s.embedded == map[] && s.exposed == {}
    && forall w :: w in s.workers ==> s.workers[w].phase.Idle?
  }

  ghost predicate Reachable(spec: Spec, s: State) {
    exists s0, actions :: Initial(s0) && s == Run(spec, s0, actions)
  }

  // ------------------------------------------------------------------
  // The invariant
  // ------------------------------------------------------------------

  predicate JobOk(spec: Spec, j: Job) {
    && OfSpec(spec, j)
    && (j.status.Processing? <==> j.leaseToken.Some?)
    && (j.status.Processing? <==> j.leaseOwner.Some?)
    && (j.status.Processing? <==> j.leaseExpiresAt.Some?)
    && j.attempts <= spec.maxAttempts
  }

  predicate OpenJob(jobs: Jobs, j: JobId, f: FactId) {
    j in jobs && jobs[j].factId == f && !jobs[j].status.Completed?
  }

  /** A vector, or a job that is not over: pending, processing or dead-lettered. */
  ghost predicate Covered(spec: Spec, db: Db, f: FactId) {
    HasVector(spec, db.vectors, f) || exists j :: OpenJob(db.jobs, j, f)
  }

  /** Every active fact outside the exposed ones is covered. */
  ghost predicate Coverage(spec: Spec, db: Db, exposed: set<FactId>) {
    forall f {:trigger Covered(spec, db, f)} :: ActiveIn(db.facts, f) && f !in exposed ==> Covered(spec, db, f)
  }

  ghost predicate DbOk(spec: Spec, db: Db, exposed: set<FactId>) {
    && (forall j :: j in db.jobs ==> j < db.nextJob && JobOk(spec, db.jobs[j]))
    && (forall i, j :: i in db.jobs && j in db.jobs && db.jobs[i].factId == db.jobs[j].factId ==> i == j)
    && (forall f :: f in db.vectors ==> db.vectors[f].dim == spec.dimensions && |db.vectors[f].blob| == spec.dimensions)
    && Coverage(spec, db, exposed)
  }

  ghost predicate ClaimOk(s: State, c: ClaimedJob) {
    && c.token in s.issued && s.issued[c.token] == c.jobId
    && c.jobId in s.db.jobs && s.db.jobs[c.jobId].factId == c.factId
    && (Held(s.db.jobs, c) ==> s.db.jobs[c.jobId].attempts == c.attempts)
  }

  ghost predicate TokensOk(s: State) {
    && (forall j :: j in s.db.jobs && s.db.jobs[j].leaseToken.Some? ==>
         var t := s.db.jobs[j].leaseToken.value;
         t in s.issued && s.issued[t] == j && j in s.latest && s.latest[j] == t)
    && (forall w :: w in s.workers && !s.workers[w].phase.Idle? ==> ClaimOk(s, s.workers[w].phase.c))
  }

  ghost predicate Inv(spec: Spec, s: State) {
    DbOk(spec, s.db, s.exposed) && TokensOk(s)
  }

  // ------------------------------------------------------------------
  // Every action keeps the invariant
  // ------------------------------------------------------------------

  /** Jobs are never deleted or re-pointed, and an attempt count only falls when the lease is cleared. */
  ghost predicate JobsFollow(before: Jobs, after: Jobs) {
    forall j :: j in before ==>
      && j in after && after[j].factId == before[j].factId
      && (after[j].leaseToken.Some? ==> after[j].leaseToken == before[j].leaseToken && after[j].status == before[j].status && after[j].attempts == before[j].attempts)
  }

  ghost predicate JobsKept(before: Jobs, after: Jobs) {
    forall j :: j in before ==> j in after && after[j].factId == before[j].factId
  }

  /** Transactions that only touch the database keep the tokens in order. */
  lemma TokensStay(s: State, t: State)
    requires TokensOk(s) && JobsFollow(s.db.jobs, t.db.jobs)
    requires t.workers == s.workers && t.issued == s.issued && t.latest == s.latest
    requires forall j :: j in t.db.jobs && j !in s.db.jobs ==> t.db.jobs[j].leaseToken.None?
    ensures TokensOk(t)
  {
    forall w | w in t.workers && !t.workers[w].phase.Idle?
      ensures ClaimOk(t, t.workers[w].phase.c)
    {
      assert ClaimOk(s, s.workers[w].phase.c);
    }
  }

  ghost predicate JobsOk(spec: Spec, db: Db) {
    && (forall j :: j in db.jobs ==> j < db.nextJob && JobOk(spec, db.jobs[j]))
    && (forall i, j :: i in db.jobs && j in db.jobs && db.jobs[i].factId == db.jobs[j].factId ==> i == j)
  }

  lemma UpsertKeepsOk(spec: Spec, db: Db, exposed: set<FactId>, f: FactId, content: string, now: Clock)
    requires DbOk(spec, db, exposed)
    ensures var t := Upserted(spec, db, f, content, now);
            && DbOk(spec, t, exposed - {f}) && Covered(spec, t, f)
            && t.facts == db.facts && t.vectors == db.vectors
            && JobsFollow(db.jobs, t.jobs)
            && (forall j :: j in t.jobs && j !in db.jobs ==> t.jobs[j].leaseToken.None?)
  {
    UpsertJobs(spec, db, f, content, now);
    UpsertCovers(spec, db, f, content, now);
    UpsertCoverage(spec, db, exposed, f, content, now);
    hide JobOk, JobsFollow, Coverage, Covered;
  }

  lemma UpsertJobs(spec: Spec, db: Db, f: FactId, content: string, now: Clock)
    requires JobsOk(spec, db)
    ensures var t := Upserted(spec, db, f, content, now);
            && JobsOk(spec, t) && JobsFollow(db.jobs, t.jobs)
            && (forall j :: j in t.jobs && j !in db.jobs ==> t.jobs[j].leaseToken.None?)
  {
    if !HasJob(db.jobs, f) {
      assert forall j :: j in db.jobs ==> db.jobs[j].factId != f;
    }
  }

  lemma UpsertCoverage(spec: Spec, db: Db, exposed: set<FactId>, f: FactId, content: string, now: Clock)
    requires JobsOk(spec, db) && Coverage(spec, db, exposed) && Covered(spec, Upserted(spec, db, f, content, now), f)
    ensures Coverage(spec, Upserted(spec, db, f, content, now), exposed - {f})
  {
    var t := Upserted(spec, db, f, content, now);
    forall g | ActiveIn(t.facts, g) && g !in exposed - {f}
      ensures Covered(spec, t, g)
    {
      if g != f {
        assert Covered(spec, db, g);
        if !HasVector(spec, db.vectors, g) {
          var j :| OpenJob(db.jobs, j, g);
          assert OpenJob(t.jobs, j, g);
        }
      }
    }
  }

  lemma UpsertCovers(spec: Spec, db: Db, f: FactId, content: string, now: Clock)
    requires JobsOk(spec, db)
    ensures Covered(spec, Upserted(spec, db, f, content, now), f)
  {
    var t := Upserted(spec, db, f, content, now);
    if HasJob(db.jobs, f) {
      var k :| k in db.jobs && db.jobs[k].factId == f;
      assert OpenJob(t.jobs, k, f);
    } else {
      assert OpenJob(t.jobs, db.nextJob, f);
    }
  }

  /** Writing a fact leaves at most that fact uncovered. */
  lemma FactWriteKeepsOk(spec: Spec, db: Db, exposed: set<FactId>, f: FactId, fact: Fact)
    requires DbOk(spec, db, exposed)
    ensures var t := db.(facts := db.facts[f := fact]);
            DbOk(spec, t, exposed + {f}) && (Covered(spec, t, f) ==> DbOk(spec, t, exposed - {f}))
  {
    var t := db.(facts := db.facts[f := fact]);
    forall g | ActiveIn(t.facts, g) && g !in exposed && g != f
      ensures Covered(spec, t, g)
    {
      assert Covered(spec, db, g);
    }
  }

  /** Writing a fact and enqueueing it in one transaction. */
  lemma EnqueueKeepsOk(spec: Spec, db: Db, exposed: set<FactId>, f: FactId, fact: Fact, now: Clock)
    requires DbOk(spec, db, exposed)
    ensures var t := EnqueueTxn(spec, db.(facts := db.facts[f := fact]), f, now);
            && DbOk(spec, t, exposed - {f}) && JobsFollow(db.jobs, t.jobs)
            && (forall j :: j in t.jobs && j !in db.jobs ==> t.jobs[j].leaseToken.None?)
  {
    var written := db.(facts := db.facts[f := fact]);
    FactWriteKeepsOk(spec, db, exposed, f, fact);
    if HasJob(db.jobs, f) && HasVector(spec, db.vectors, f) {
      assert Covered(spec, written, f);
    } else {
      hide DbOk, Upserted, JobsFollow;
      UpsertKeepsOk(spec, written, exposed + {f}, f, fact.content, now);
      assert exposed + {f} - {f} == exposed - {f};
    }
  }

  lemma {:induction false} BackfillKeepsOk(spec: Spec, db: Db, exposed: set<FactId>, ids: seq<FactId>, now: Clock)
    requires DbOk(spec, db, exposed)
    ensures var t := BackfillTxn(spec, db, ids, now);
            && DbOk(spec, t, exposed - Ids(ids)) && JobsFollow(db.jobs, t.jobs)
            && (forall j :: j in t.jobs && j !in db.jobs ==> t.jobs[j].leaseToken.None?)
    decreases |ids|
  {
    if ids != [] {
      if Missing(spec, db, ids[0]) {
        UpsertKeepsOk(spec, db, exposed, ids[0], db.facts[ids[0]].content, now);
      }
      var u := BackfillStep(spec, db, ids[0], now);
      BackfillKeepsOk(spec, u, exposed - {ids[0]}, ids[1..], now);
      assert exposed - {ids[0]} - Ids(ids[1..]) == exposed - Ids(ids);
    } else {
      assert exposed - Ids(ids) == exposed;
    }
  }

  lemma FactsKeepInv(spec: Spec, s: State, a: Action)
    requires Inv(spec, s) && !ByWorker(a)
    ensures Inv(spec, s.(db := FactsDb(spec, s.db, a), exposed := ExposedAfter(s.db, s.exposed, a)))
    ensures JobsKept(s.db.jobs, FactsDb(spec, s.db, a).jobs)
  {
    var db := s.db;
    if a.InsertFact? {
      EnqueueKeepsOk(spec, db, s.exposed, a.f, a.fact, a.now);
    } else if a.ActivateFact? && a.f in db.facts {
      EnqueueKeepsOk(spec, db, s.exposed, a.f, Fact(db.facts[a.f].content, None, None, None), a.now);
    } else if a.Backfill? {
      BackfillKeepsOk(spec, db, s.exposed, a.ids, a.now);
    } else {
      var t := FactsDb(spec, db, a);
      forall g | ActiveIn(t.facts, g) && g !in ExposedAfter(db, s.exposed, a)
        ensures Covered(spec, t, g)
      {
        assert Covered(spec, db, g);
      }
    }
    TokensStay(s, s.(db := FactsDb(spec, db, a), exposed := ExposedAfter(db, s.exposed, a)));
  }

  /** Replacing one job by another for the same fact. */
  lemma JobUpdateKeepsOk(spec: Spec, db: Db, exposed: set<FactId>, vectors: Vectors, id: JobId, j: Job)
    requires DbOk(spec, db, exposed) && id in db.jobs && JobOk(spec, j) && j.factId == db.jobs[id].factId
    requires forall f :: f in vectors ==> vectors[f].dim == spec.dimensions && |vectors[f].blob| == spec.dimensions
    requires db.vectors.Keys <= vectors.Keys
    requires j.status.Completed? ==> !ActiveIn(db.facts, j.factId) || j.factId in vectors
    ensures DbOk(spec, db.(vectors := vectors, jobs := db.jobs[id := j]), exposed)
  {
    var t := db.(vectors := vectors, jobs := db.jobs[id := j]);
    forall g | ActiveIn(t.facts, g) && g !in exposed
      ensures Covered(spec, t, g)
    {
      assert Covered(spec, db, g);
      if !HasVector(spec, t.vectors, g) {
        var k :| OpenJob(db.jobs, k, g);
        assert OpenJob(t.jobs, k, g);
      }
    }
  }

  /** A worker transaction that changes anything runs under its lease, rewrites
      its own job without a lease, and stores at most the prepared vector. */
  lemma WorkerDbTouchesOneJob(spec: Spec, db: Db, p: Phase, a: Action)
    requires WorkerDb(spec, db, p, a) != db
    ensures var t := WorkerDb(spec, db, p, a);
            && !p.Idle? && Held(db.jobs, p.c) && p.c.jobId in t.jobs
            && t == db.(vectors := t.vectors, jobs := db.jobs[p.c.jobId := t.jobs[p.c.jobId]])
            && var j := t.jobs[p.c.jobId];
               && j.factId == db.jobs[p.c.jobId].factId && j.version == db.jobs[p.c.jobId].version
               && j.dimensions == db.jobs[p.c.jobId].dimensions && j.attempts == db.jobs[p.c.jobId].attempts
               && !j.status.Processing? && j.leaseToken.None? && j.leaseOwner.None? && j.leaseExpiresAt.None?
               && (t.vectors == db.vectors ||
                   (Stores(spec, db, p, a) && t.vectors == db.vectors[p.c.factId := Vector(spec.dimensions, p.blob)]))
               && (j.status.Completed? ==> !ActiveIn(db.facts, p.c.factId) || p.c.factId in t.vectors)
  {
  }

  lemma WorkerDbKeepsOk(spec: Spec, s: State, w: WorkerId, a: Action)
    requires Inv(spec, s) && w in s.workers
    ensures var t := WorkerDb(spec, s.db, s.workers[w].phase, a);
            DbOk(spec, t, s.exposed) && t.jobs.Keys == s.db.jobs.Keys && JobsFollow(s.db.jobs, t.jobs)
  {
    var p := s.workers[w].phase;
    var t := WorkerDb(spec, s.db, p, a);
    if t != s.db {
      WorkerDbTouchesOneJob(spec, s.db, p, a);
      assert ClaimOk(s, p.c);
      JobUpdateKeepsOk(spec, s.db, s.exposed, t.vectors, p.c.jobId, t.jobs[p.c.jobId]);
    }
  }

  lemma SweepKeepsInv(spec: Spec, s: State, now: Clock)
    requires Inv(spec, s)
    ensures Inv(spec, s.(db := s.db.(jobs := SweptJobs(spec, s.db.jobs, now))))
  {
    var t := s.db.(jobs := SweptJobs(spec, s.db.jobs, now));
    forall g | ActiveIn(t.facts, g) && g !in s.exposed
      ensures Covered(spec, t, g)
    {
      assert Covered(spec, s.db, g);
      if !HasVector(spec, t.vectors, g) {
        var k :| OpenJob(s.db.jobs, k, g);
        assert OpenJob(t.jobs, k, g);
      }
    }
    TokensStay(s, s.(db := t));
  }

  ghost function Grant(spec: Spec, s: State, w: WorkerId, now: Clock, token: Token, id: JobId): State
    requires w in s.workers && id in s.db.jobs
  {
    Move(s, w, Reading(ClaimOf(id, s.db.jobs[id], token))).(
      db := s.db.(jobs := s.db.jobs[id := Leased(spec, s.db.jobs[id], s.workers[w].name, now, token)]),
      issued := s.issued[token := id],
      latest := s.latest[id := token])
  }

  /** A claim that is not refused is a sweep, then a grant if a job is due. */
  lemma ClaimIsSweepThenGrant(spec: Spec, s: State, w: WorkerId, now: Clock, token: Token)
    requires w in s.workers && s.workers[w].phase.Idle? && token !in s.issued
    ensures var swept := s.(db := s.db.(jobs := SweptJobs(spec, s.db.jobs, now)));
            var due := DueJobs(spec, swept.db.jobs, now);
            DoClaim(spec, s, w, now, token) == if due == {} then swept else Grant(spec, swept, w, now, token, Least(due))
  {
  }

  lemma GrantKeepsInv(spec: Spec, s: State, w: WorkerId, now: Clock, token: Token, id: JobId)
    requires Inv(spec, s) && w in s.workers && token !in s.issued
    requires id in s.db.jobs && Due(spec, s.db.jobs[id], now)
    ensures Inv(spec, Grant(spec, s, w, now, token, id))
  {
    var t := Grant(spec, s, w, now, token, id);
    JobUpdateKeepsOk(spec, s.db, s.exposed, s.db.vectors, id, Leased(spec, s.db.jobs[id], s.workers[w].name, now, token));
    forall x | x in t.workers && !t.workers[x].phase.Idle?
      ensures ClaimOk(t, t.workers[x].phase.c)
    {
      if x != w {
        assert ClaimOk(s, s.workers[x].phase.c);
      }
    }
  }

  lemma MoveKeepsInv(spec: Spec, s: State, w: WorkerId, p: Phase)
    requires Inv(spec, s) && w in s.workers
    requires !p.Idle? ==> !s.workers[w].phase.Idle? && p.c == s.workers[w].phase.c
    ensures Inv(spec, Move(s, w, p))
  {
    var t := Move(s, w, p);
    forall x | x in t.workers && !t.workers[x].phase.Idle?
      ensures ClaimOk(t, t.workers[x].phase.c)
    {
      assert ClaimOk(s, s.workers[x].phase.c);
    }
  }

  lemma ClaimKeepsInv(spec: Spec, s: State, w: WorkerId, now: Clock, token: Token)
    requires Inv(spec, s) && w in s.workers
    ensures Inv(spec, DoClaim(spec, s, w, now, token))
  {
    if s.workers[w].phase.Idle? && token !in s.issued {
      ClaimIsSweepThenGrant(spec, s, w, now, token);
      SweepKeepsInv(spec, s, now);
      var swept := s.(db := s.db.(jobs := SweptJobs(spec, s.db.jobs, now)));
      var due := DueJobs(spec, swept.db.jobs, now);
      if due != {} {
        GrantKeepsInv(spec, swept, w, now, token, Least(due));
      }
    }
  }

  lemma ClaimKeepsJobs(spec: Spec, s: State, w: WorkerId, now: Clock, token: Token)
    requires w in s.workers
    ensures JobsKept(s.db.jobs, DoClaim(spec, s, w, now, token).db.jobs)
  {
  }

  lemma StepKeepsInv(spec: Spec, s: State, a: Action)
    requires Inv(spec, s)
    ensures Inv(spec, Apply(spec, s, a)) && JobsKept(s.db.jobs, Apply(spec, s, a).db.jobs)
  {
    hide FactsDb, WorkerDb, DbOk;
    if !ByWorker(a) {
      FactsKeepInv(spec, s, a);
    } else if a.w !in s.workers {
    } else if a.Claim? {
      ClaimKeepsInv(spec, s, a.w, a.now, a.token);
      ClaimKeepsJobs(spec, s, a.w, a.now, a.token);
    } else {
      var p := s.workers[a.w].phase;
      var t := s.(db := WorkerDb(spec, s.db, p, a),
                  answers := AnswersAfter(s.answers, p, a), embedded := EmbeddedAfter(spec, s.db, s.embedded, p, a));
      WorkerDbKeepsOk(spec, s, a.w, a);
      TokensStay(s, t);
      MoveKeepsInv(spec, t, a.w, WorkerPhase(spec, s.db, p, a));
    }
  }

  lemma {:induction false} RunKeepsInv(spec: Spec, s: State, actions: seq<Action>)
    requires Inv(spec, s)
    ensures Inv(spec, Run(spec, s, actions)) && JobsKept(s.db.jobs, Run(spec, s, actions).db.jobs)
    decreases |actions|
  {
    if actions != [] {
      StepKeepsInv(spec, s, actions[0]);
      RunKeepsInv(spec, Apply(spec, s, actions[0]), actions[1..]);
    }
  }

  lemma ReachableInv(spec: Spec, s: State)
    requires Reachable(spec, s)
    ensures Inv(spec, s)
  {
    var s0, actions :| Initial(s0) && s == Run(spec, s0, actions);
    RunKeepsInv(spec, s0, actions);
  }
}
