/** The embedding outbox: facts, stored vectors and embedding jobs of the one
    configured document identity, one function per transaction, and the class
    whose methods run those transactions. */
module EmbeddingTable {
  import opened Common

  type FactId = nat
  type JobId = nat
  type Token = nat
  type Clock = int
  type Blob = seq<int>

  datatype Fact = Fact(content: string, invalidAt: Option<Clock>, supersededBy: Option<FactId>, conflictGroup: Option<string>)

  /** A stored vector: nothing in the row says which text it was computed from. */
  datatype Vector = Vector(dim: nat, blob: Blob)

  datatype Status = Pending | Processing | Completed | DeadLetter

  datatype Job = Job(
    factId: FactId,
    version: string,
    dimensions: nat,
    contentHash: Digest<string>,
    status: Status,
    attempts: nat,
    availableAt: Clock,
    leaseToken: Option<Token>,
    leaseOwner: Option<string>,
    leaseExpiresAt: Option<Clock>,
    lastError: Option<string>)

  type Facts = map<FactId, Fact>
  type Vectors = map<FactId, Vector>
  type Jobs = map<JobId, Job>

  /** The three tables a transaction sees. */
  datatype Db = Db(facts: Facts, vectors: Vectors, jobs: Jobs, nextJob: JobId)

  datatype Spec = Spec(version: string, dimensions: nat, maxAttempts: nat, leaseTicks: nat)

  datatype ClaimedJob = ClaimedJob(jobId: JobId, factId: FactId, contentHash: Digest<string>, attempts: nat, token: Token)

  /** Active and settled: neither invalid, nor superseded, nor in a conflict. */
  predicate Active(f: Fact) {
    f.invalidAt.None? && f.supersededBy.None? && f.conflictGroup.None?
  }

  predicate ActiveIn(facts: Facts, f: FactId) {
    f in facts && Active(facts[f])
  }

  predicate HasVector(spec: Spec, vectors: Vectors, f: FactId) {
    f in vectors && vectors[f].dim == spec.dimensions
  }

  predicate OfSpec(spec: Spec, j: Job) {
    j.version == spec.version && j.dimensions == spec.dimensions
  }

  function Unleased(j: Job): Job {
    j.(leaseToken := None, leaseOwner := None, leaseExpiresAt := None)
  }

  // ------------------------------------------------------------------
  // Enqueueing
  // ------------------------------------------------------------------

  function FreshJob(spec: Spec, f: FactId, content: string, now: Clock): Job {
    Job(f, spec.version, spec.dimensions, Digest(content), Pending, 0, now, None, None, None, None)
  }

  /** The conflict clause of the insert: only a completed job is put back. */
  function Reset(spec: Spec, j: Job, content: string, now: Clock): Job {
    Unleased(j.(contentHash := Digest(content), version := spec.version, dimensions := spec.dimensions,
                status := Pending, attempts := 0, availableAt := now, lastError := None))
  }

  predicate HasJob(jobs: Jobs, f: FactId) {
    exists j :: j in jobs && jobs[j].factId == f
  }

  /** `INSERT ... ON CONFLICT(fact_id, document_identity) DO UPDATE ... WHERE completed`. */
  function Upserted(spec: Spec, db: Db, f: FactId, content: string, now: Clock): Db {
    if HasJob(db.jobs, f)
    then db.(jobs := map j | j in db.jobs ::
               if db.jobs[j].factId == f && db.jobs[j].status.Completed?
               then Reset(spec, db.jobs[j], content, now) else db.jobs[j])
    else db.(jobs := db.jobs[db.nextJob := FreshJob(spec, f, content, now)], nextJob := db.nextJob + 1)
  }

  /** `enqueue_in_transaction`: a stored vector of the right dimension keeps a completed job completed. */
  function EnqueueTxn(spec: Spec, db: Db, f: FactId, now: Clock): Db
    requires f in db.facts
  {
    if HasJob(db.jobs, f) && HasVector(spec, db.vectors, f) then db
    else Upserted(spec, db, f, db.facts[f].content, now)
  }

  predicate Missing(spec: Spec, db: Db, f: FactId) {
    ActiveIn(db.facts, f) && !HasVector(spec, db.vectors, f)
  }

  function MissingFacts(spec: Spec, db: Db): set<FactId> {
    set f | f in db.facts && Missing(spec, db, f)
  }

  ghost function Ascending(s: set<nat>): seq<nat> {
    if s == {} then [] else [Least(s)] + Ascending(s - {Least(s)})
  }

  /** No job yet, or one that is over and done with. */
  predicate NeedsJob(jobs: Jobs, f: FactId) {
    !HasJob(jobs, f) || exists j :: j in jobs && jobs[j].factId == f && jobs[j].status.Completed?
  }

  function BackfillStep(spec: Spec, db: Db, f: FactId, now: Clock): Db {
    if Missing(spec, db, f) then Upserted(spec, db, f, db.facts[f].content, now) else db
  }

  /** `enqueue_backfill` over the listed facts, each only if it is active and has no vector. */
  function BackfillTxn(spec: Spec, db: Db, ids: seq<FactId>, now: Clock): Db
    decreases |ids|
  {
    if ids == [] then db else BackfillTxn(spec, BackfillStep(spec, db, ids[0], now), ids[1..], now)
  }

  function BackfillCount(spec: Spec, db: Db, ids: seq<FactId>, now: Clock): nat
    decreases |ids|
  {
    if ids == [] then 0
    else (if Missing(spec, db, ids[0]) && NeedsJob(db.jobs, ids[0]) then 1 else 0)
         + BackfillCount(spec, BackfillStep(spec, db, ids[0], now), ids[1..], now)
  }

  // ------------------------------------------------------------------
  // The leased worker
  // ------------------------------------------------------------------

  predicate Exhausted(spec: Spec, j: Job, now: Clock) {
    && OfSpec(spec, j) && j.attempts >= spec.maxAttempts
    && (j.status.Pending? ||
        (j.status.Processing? && (j.leaseExpiresAt.None? || j.leaseExpiresAt.value <= now)))
  }

  function Swept(spec: Spec, j: Job, now: Clock): Job {
    if Exhausted(spec, j, now) then Unleased(j.(status := DeadLetter, lastError := Some("attempts_exhausted"))) else j
  }

  function SweptJobs(spec: Spec, jobs: Jobs, now: Clock): Jobs {
    map j | j in jobs :: Swept(spec, jobs[j], now)
  }

  predicate Due(spec: Spec, j: Job, now: Clock) {
    && OfSpec(spec, j) && j.attempts < spec.maxAttempts
    && ((j.status.Pending? && j.availableAt <= now) ||
        (j.status.Processing? && j.leaseExpiresAt.Some? && j.leaseExpiresAt.value <= now))
  }

  function DueJobs(spec: Spec, jobs: Jobs, now: Clock): set<JobId> {
    set j | j in jobs && Due(spec, jobs[j], now)
  }

  function Leased(spec: Spec, j: Job, owner: string, now: Clock, token: Token): Job {
    j.(status := Processing, attempts := j.attempts + 1, leaseToken := Some(token),
       leaseOwner := Some(owner), leaseExpiresAt := Some(now + spec.leaseTicks))
  }

  function ClaimOf(id: JobId, j: Job, token: Token): ClaimedJob {
    ClaimedJob(id, j.factId, j.contentHash, j.attempts + 1, token)
  }

  ghost function ClaimTxn(spec: Spec, jobs: Jobs, owner: string, now: Clock, token: Token): (Jobs, Option<ClaimedJob>) {
    var swept := SweptJobs(spec, jobs, now);
    var due := DueJobs(spec, swept, now);
    if due == {} then (swept, None)
    else
      var id := Least(due);
      (swept[id := Leased(spec, swept[id], owner, now, token)], Some(ClaimOf(id, swept[id], token)))
  }

  /** The job is still leased to this claim; the token alone decides. */
  predicate Held(jobs: Jobs, c: ClaimedJob) {
    c.jobId in jobs && jobs[c.jobId].status.Processing? && jobs[c.jobId].leaseToken == Some(c.token)
  }

  function Requeued(j: Job, content: string, now: Clock): Job {
    Unleased(j.(status := Pending, contentHash := Digest(content), availableAt := now))
  }

  function Skipped(j: Job, why: string): Job {
    Unleased(j.(status := Completed, lastError := Some(why)))
  }

  /** `_settle_inactive`: re-reads the fact, so a reactivated fact is requeued. */
  function SettleTxn(db: Db, c: ClaimedJob, now: Clock): Db {
    if !Held(db.jobs, c) then db
    else if ActiveIn(db.facts, c.factId)
    then db.(jobs := db.jobs[c.jobId := Requeued(db.jobs[c.jobId], db.facts[c.factId].content, now)])
    else db.(jobs := db.jobs[c.jobId := Skipped(db.jobs[c.jobId], "skipped_inactive")])
  }

  datatype CommitOutcome = Embedded | SkippedStale | RequeuedChanged | LostLease | BadVector

  function CommitOutcomeOf(spec: Spec, db: Db, c: ClaimedJob, content: string, blob: Blob): CommitOutcome {
    if !Held(db.jobs, c) || !OfSpec(spec, db.jobs[c.jobId]) then LostLease
    else if !ActiveIn(db.facts, c.factId) then SkippedStale
    else if Digest(db.facts[c.factId].content) != Digest(content) then RequeuedChanged
    else if |blob| != spec.dimensions then BadVector
    else Embedded
  }

  /** `_commit_prepared`: revalidates lease, lifecycle and content before storing. */
  function CommitTxn(spec: Spec, db: Db, c: ClaimedJob, content: string, blob: Blob, now: Clock): Db {
    match CommitOutcomeOf(spec, db, c, content, blob)
    case LostLease => db
    case BadVector => db
    case SkippedStale => db.(jobs := db.jobs[c.jobId := Skipped(db.jobs[c.jobId], "skipped_stale")])
    case RequeuedChanged => db.(jobs := db.jobs[c.jobId := Requeued(db.jobs[c.jobId], db.facts[c.factId].content, now)])
    case Embedded =>
      db.(vectors := db.vectors[c.factId := Vector(spec.dimensions, blob)],
          jobs := db.jobs[c.jobId := Unleased(db.jobs[c.jobId].(status := Completed, contentHash := Digest(content), lastError := None))])
  }

  function Backoff(attempts: nat): nat
  {
    if attempts >= 9 then 300 else [1, 2, 4, 8, 16, 32, 64, 128, 256][attempts]
  }

  function FailTxn(spec: Spec, db: Db, c: ClaimedJob, error: string, now: Clock): Db {
    if !Held(db.jobs, c) then db
    else db.(jobs := db.jobs[c.jobId := Unleased(db.jobs[c.jobId].(
               status := if c.attempts >= spec.maxAttempts then DeadLetter else Pending,
               availableAt := now + Backoff(c.attempts), lastError := Some(error)))])
  }

  // ------------------------------------------------------------------
  // Reading the vectors for a search
  // ------------------------------------------------------------------

  predicate LiveJob(spec: Spec, jobs: Jobs, f: FactId) {
    exists j :: j in jobs && jobs[j].factId == f && OfSpec(spec, jobs[j]) && (jobs[j].status.Pending? || jobs[j].status.Processing?)
  }

  /** Candidates with no vector in the first read and no live job in the second. */
  function Uncovered(spec: Spec, vectors: Vectors, jobs: Jobs, ids: seq<FactId>): set<FactId> {
    set f | f in ids && f !in vectors && !LiveJob(spec, jobs, f)
  }

  /** One search-side connection: `load_documents`. */
  class VersionedBackend {
    const spec: Spec
    const batch: nat
    var vectors: Vectors
    var jobs: Jobs

    constructor (spec: Spec, batch: nat, vectors: Vectors, jobs: Jobs)
      ensures this.spec == spec && this.batch == batch && this.vectors == vectors && this.jobs == jobs
    {
      this.spec, this.batch, this.vectors, this.jobs := spec, batch, vectors, jobs;
    }

    /** Fails on a repeated candidate, a vector of another size, or a candidate
        with neither vector nor live job; a queued candidate counts as zero. */
    method LoadDocuments(ids: seq<FactId>) returns (loaded: Result<seq<Blob>, string>)
      requires batch >= 1
      ensures loaded.Ok? <==>
                && (forall a, b :: 0 <= a < b < |ids| ==> ids[a] != ids[b])
                && (forall f :: f in ids && f in vectors ==> vectors[f].dim == spec.dimensions && |vectors[f].blob| == spec.dimensions)
                && Uncovered(spec, vectors, jobs, ids) == {}
      ensures loaded.Ok? ==> |loaded.value| == |ids| && forall k :: 0 <= k < |ids| ==>
                loaded.value[k] == if ids[k] in vectors then vectors[ids[k]].blob else seq(spec.dimensions, _ => 0)
    {
      var seen: set<FactId> := {};
      for i := 0 to |ids|
        invariant forall f :: f in seen <==> exists k :: 0 <= k < i && ids[k] == f
        invariant forall a, b :: 0 <= a < b < i ==> ids[a] != ids[b]
      {
        if ids[i] in seen {
          return Err("candidate fact ids must be unique");
        }
        seen := seen + {ids[i]};
      }
      var found: map<FactId, Blob> := map[];
      var offset := 0;
      while offset < |ids|
        invariant 0 <= offset
        invariant forall f :: f in found <==> f in vectors && exists k :: 0 <= k < offset && k < |ids| && ids[k] == f
        invariant forall f :: f in found ==> found[f] == vectors[f].blob && vectors[f].dim == spec.dimensions && |found[f]| == spec.dimensions
        decreases |ids| - offset
      {
        var end := if offset + batch < |ids| then offset + batch else |ids|;
        for i := offset to end
          invariant forall f :: f in found <==> f in vectors && exists k :: 0 <= k < i && ids[k] == f
          invariant forall f :: f in found ==> found[f] == vectors[f].blob && vectors[f].dim == spec.dimensions && |found[f]| == spec.dimensions
        {
          if ids[i] in vectors {
            var v := vectors[ids[i]];
            if v.dim != spec.dimensions || |v.blob| != spec.dimensions {
              return Err("stored embedding dimension mismatch");
            }
            found := found[ids[i] := v.blob];
          }
        }
        offset := offset + batch;
      }
      var missing := set f | f in ids && f !in found;
      assert missing == set f | f in ids && f !in vectors;
      var uncovered := set f | f in missing && !LiveJob(spec, jobs, f);
      assert uncovered == Uncovered(spec, vectors, jobs, ids);
      if uncovered != {} {
        return Err("missing required stored candidate embedding");
      }
      return Ok(seq(|ids|, k requires 0 <= k < |ids| => if ids[k] in found then found[ids[k]] else seq(spec.dimensions, _ => 0)));
    }
  }

  /** The outbox and its processor on one connection. */
  class EmbeddingJobProcessor {
    const spec: Spec
    const workerId: string
    var db: Db

    constructor (spec: Spec, workerId: string, db: Db)
      ensures this.spec == spec && this.workerId == workerId && this.db == db
    {
      this.spec, this.workerId, this.db := spec, workerId, db;
    }

    method EnqueueInTransaction(f: FactId, now: Clock) returns (ok: bool)
      modifies this`db
      ensures ok == (f in old(db).facts)
      ensures db == if ok then EnqueueTxn(spec, old(db), f, now) else old(db)
    {
      if f !in db.facts {
        return false;
      }
      ok := true;
      var content := db.facts[f].content;
      var present := set j | j in db.jobs && db.jobs[j].factId == f;
      if present == {} {
        assert forall j :: j in db.jobs ==> (j in present <==> db.jobs[j].factId == f);
        db := db.(jobs := db.jobs[db.nextJob := FreshJob(spec, f, content, now)], nextJob := db.nextJob + 1);
      } else {
        ghost var some :| some in present;
        if !(f in db.vectors && db.vectors[f].dim == spec.dimensions) {
          db := db.(jobs := map j | j in db.jobs ::
            if j in present && db.jobs[j].status.Completed? then Reset(spec, db.jobs[j], content, now) else db.jobs[j]);
        }
      }
    }

    /** Visits the facts in id order; `changed` counts the jobs inserted or put back. */
    method EnqueueBackfill(now: Clock) returns (changed: nat)
      modifies this`db
      ensures db == BackfillTxn(spec, old(db), Ascending(MissingFacts(spec, old(db))), now)
      ensures changed == BackfillCount(spec, old(db), Ascending(MissingFacts(spec, old(db))), now)
    {
      changed := 0;
      var todo := MissingFacts(spec, db);
      ghost var all := Ascending(todo);
      while todo != {}
        invariant forall f :: f in todo ==> Missing(spec, db, f)
        invariant BackfillTxn(spec, db, Ascending(todo), now) == BackfillTxn(spec, old(db), all, now)
        invariant changed + BackfillCount(spec, db, Ascending(todo), now) == BackfillCount(spec, old(db), all, now)
        decreases |todo|
      {
        LeastExists(todo);
        var f: nat :| IsLeast(todo, f);
        assert Ascending(todo)[0] == f && Ascending(todo)[1..] == Ascending(todo - {f});
        if NeedsJob(db.jobs, f) {
          changed := changed + 1;
        }
        db := Upserted(spec, db, f, db.facts[f].content, now);
        todo := todo - {f};
      }
    }

    method Claim(now: Clock, token: Token) returns (claim: Option<ClaimedJob>)
      modifies this`db
      ensures (db.jobs, claim) == ClaimTxn(spec, old(db).jobs, workerId, now, token)
      ensures db == old(db).(jobs := db.jobs)
    {
      var jobs := map j | j in db.jobs ::
        if OfSpec(spec, db.jobs[j]) && db.jobs[j].attempts >= spec.maxAttempts
           && (db.jobs[j].status.Pending?
               || (db.jobs[j].status.Processing? && (db.jobs[j].leaseExpiresAt.None? || db.jobs[j].leaseExpiresAt.value <= now)))
        then Unleased(db.jobs[j].(status := DeadLetter, lastError := Some("attempts_exhausted")))
        else db.jobs[j];
      assert jobs == SweptJobs(spec, db.jobs, now);
      db := db.(jobs := jobs);
      var due := set j | j in jobs && Due(spec, jobs[j], now);
      if due == {} {
        return None;
      }
      assert due == DueJobs(spec, jobs, now);
      LeastExists(due);
      var id: nat :| IsLeast(due, id);
      assert id == Least(due);
      var job := jobs[id];
      claim := Some(ClaimedJob(id, job.factId, job.contentHash, job.attempts + 1, token));
      db := db.(jobs := jobs[id := job.(status := Processing, attempts := job.attempts + 1, leaseToken := Some(token),
                                        leaseOwner := Some(workerId), leaseExpiresAt := Some(now + spec.leaseTicks))]);
    }

    method SettleInactive(c: ClaimedJob, now: Clock) returns (ok: bool)
      modifies this`db
      ensures db == SettleTxn(old(db), c, now)
      ensures ok == Held(old(db).jobs, c)
    {
      var active := c.factId in db.facts && Active(db.facts[c.factId]);
      ok := c.jobId in db.jobs && db.jobs[c.jobId].status.Processing? && db.jobs[c.jobId].leaseToken == Some(c.token);
      if !ok {
        return;
      }
      var job := db.jobs[c.jobId].(leaseToken := None, leaseOwner := None, leaseExpiresAt := None);
      if active {
        job := job.(status := Pending, contentHash := Digest(db.facts[c.factId].content), availableAt := now);
      } else {
        job := job.(status := Completed, lastError := Some("skipped_inactive"));
      }
      db := db.(jobs := db.jobs[c.jobId := job]);
    }

    method CommitPrepared(c: ClaimedJob, content: string, blob: Blob, now: Clock) returns (outcome: CommitOutcome)
      modifies this`db
      ensures db == CommitTxn(spec, old(db), c, content, blob, now)
      ensures outcome == CommitOutcomeOf(spec, old(db), c, content, blob)
    {
      if !Held(db.jobs, c) || !OfSpec(spec, db.jobs[c.jobId]) {
        return LostLease;
      }
      var job := db.jobs[c.jobId].(leaseToken := None, leaseOwner := None, leaseExpiresAt := None);
      if c.factId !in db.facts || !Active(db.facts[c.factId]) {
        db := db.(jobs := db.jobs[c.jobId := job.(status := Completed, lastError := Some("skipped_stale"))]);
        return SkippedStale;
      }
      var current := db.facts[c.factId].content;
      if Digest(current) != Digest(content) {
        db := db.(jobs := db.jobs[c.jobId := job.(status := Pending, contentHash := Digest(current), availableAt := now)]);
        return RequeuedChanged;
      }
      if |blob| != spec.dimensions {
        return BadVector;
      }
      db := db.(vectors := db.vectors[c.factId := Vector(spec.dimensions, blob)]);
      db := db.(jobs := db.jobs[c.jobId := job.(status := Completed, contentHash := Digest(current), lastError := None)]);
      return Embedded;
    }

    method Fail(c: ClaimedJob, error: string, now: Clock) returns (ok: bool)
      modifies this`db
      ensures db == FailTxn(spec, old(db), c, error, now)
      ensures ok == Held(old(db).jobs, c)
    {
      ok := Held(db.jobs, c);
      if ok {
        var job := db.jobs[c.jobId].(leaseToken := None, leaseOwner := None, leaseExpiresAt := None,
                                     availableAt := now + Backoff(c.attempts), lastError := Some(error));
        job := if c.attempts < spec.maxAttempts then job.(status := Pending) else job.(status := DeadLetter);
        db := db.(jobs := db.jobs[c.jobId := job]);
      }
    }
  }
}
