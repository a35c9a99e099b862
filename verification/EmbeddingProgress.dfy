/** Progress: from every reachable state an embedding worker left undisturbed
    takes the next due job from its claim to its end. */
module EmbeddingProgress {
  import opened Common
  import opened EmbeddingTable
  import opened EmbeddingRuns
  import opened EmbeddingHistory
  import opened EmbeddingTheorems

  /** The worker is at this phase and its claim holds the job. */
  ghost predicate At(spec: Spec, s: State, w: WorkerId, p: Phase) {
    && Inv(spec, s) && w in s.workers && s.workers[w].phase == p && !p.Idle?
    && Held(s.db.jobs, p.c)
  }

  ghost predicate ByOne(actions: seq<Action>, w: WorkerId) {
    forall k :: 0 <= k < |actions| ==> ByWorker(actions[k]) && actions[k].w == w
  }

  /** The first job that is due once exhausted ones are swept. */
  ghost predicate IsNext(spec: Spec, s: State, now: Clock, j: JobId) {
    IsLeast(DueJobs(spec, SweptJobs(spec, s.db.jobs, now), now), j)
  }

  lemma ClaimStep(spec: Spec, s: State, w: WorkerId, now: Clock, token: Token, j: JobId)
    requires Inv(spec, s) && w in s.workers && s.workers[w].phase.Idle? && token !in s.issued
    requires j in s.db.jobs && IsNext(spec, s, now, j)
    ensures var t := Apply(spec, s, Claim(w, now, token));
            && At(spec, t, w, Reading(ClaimOf(j, s.db.jobs[j], token)))
            && t.db.facts == s.db.facts && t.db.vectors == s.db.vectors
  {
    var swept := SweptJobs(spec, s.db.jobs, now);
    assert Least(DueJobs(spec, swept, now)) == j;
    assert swept[j] == s.db.jobs[j] by { assert Due(spec, swept[j], now); }
    StepKeepsInv(spec, s, Claim(w, now, token));
    hide Inv, Due;
    ClaimIsSweepThenGrant(spec, s, w, now, token);
  }

  lemma ReadStep(spec: Spec, s: State, w: WorkerId, c: ClaimedJob)
    requires At(spec, s, w, Reading(c))
    ensures var t := Apply(spec, s, Read(w));
            && t.db == s.db
            && At(spec, t, w, if ActiveIn(s.db.facts, c.factId) then Embedding(c, s.db.facts[c.factId].content) else Settling(c))
  {
    StepKeepsInv(spec, s, Read(w));
    hide Inv;
  }

  lemma ReturnStep(spec: Spec, s: State, w: WorkerId, c: ClaimedJob, content: string, blob: Blob)
    requires At(spec, s, w, Embedding(c, content)) && |blob| == spec.dimensions
    ensures var t := Apply(spec, s, Return(w, Some(blob)));
            t.db == s.db && At(spec, t, w, Prepared(c, content, blob))
  {
    StepKeepsInv(spec, s, Return(w, Some(blob)));
    hide Inv;
  }

  lemma CommitStep(spec: Spec, s: State, w: WorkerId, c: ClaimedJob, content: string, blob: Blob, now: Clock)
    requires At(spec, s, w, Prepared(c, content, blob)) && |blob| == spec.dimensions
    requires ActiveIn(s.db.facts, c.factId) && s.db.facts[c.factId].content == content
    ensures var t := Apply(spec, s, Commit(w, now));
            && c.jobId in t.db.jobs && t.db.jobs[c.jobId].status.Completed?
            && c.factId in t.db.vectors && t.db.vectors[c.factId] == Vector(spec.dimensions, blob) && Fresh(t, c.factId)
  {
    assert OfSpec(spec, s.db.jobs[c.jobId]);
    hide Inv;
  }

  lemma SettleStep(spec: Spec, s: State, w: WorkerId, c: ClaimedJob, now: Clock)
    requires At(spec, s, w, Settling(c)) && !ActiveIn(s.db.facts, c.factId)
    ensures var t := Apply(spec, s, Settle(w, now));
            c.jobId in t.db.jobs && t.db.jobs[c.jobId].status.Completed? && t.db.vectors == s.db.vectors
  {
    hide Inv;
  }

  /** The job is over, and an active fact has this answer for its content stored. */
  ghost predicate Ended(spec: Spec, s: State, t: State, j: JobId, f: FactId, blob: Blob) {
    && j in t.db.jobs && t.db.jobs[j].status.Completed?
    && (if ActiveIn(s.db.facts, f) then f in t.db.vectors && t.db.vectors[f] == Vector(spec.dimensions, blob) && Fresh(t, f)
        else t.db.vectors == s.db.vectors)
  }

  /** From reading the fact to the end of the job. */
  lemma ReadEnds(spec: Spec, s: State, w: WorkerId, later: Clock, c: ClaimedJob, blob: Blob) returns (actions: seq<Action>)
    requires At(spec, s, w, Reading(c)) && |blob| == spec.dimensions
    ensures ByOne(actions, w)
    ensures Ended(spec, s, Run(spec, s, actions), c.jobId, c.factId, blob)
  {
    hide Inv, Apply, Fresh, At, Run;
    ReadStep(spec, s, w, c);
    var s2 := Apply(spec, s, Read(w));
    if ActiveIn(s.db.facts, c.factId) {
      var content := s.db.facts[c.factId].content;
      ReturnStep(spec, s2, w, c, content, blob);
      var s3 := Apply(spec, s2, Return(w, Some(blob)));
      CommitStep(spec, s3, w, c, content, blob, later);
      OneAction(spec, s3, Commit(w, later));
      OneStep(spec, s2, Return(w, Some(blob)), [Commit(w, later)]);
      OneStep(spec, s, Read(w), [Return(w, Some(blob))] + [Commit(w, later)]);
      actions := [Read(w)] + ([Return(w, Some(blob))] + [Commit(w, later)]);
    } else {
      SettleStep(spec, s2, w, c, later);
      OneAction(spec, s2, Settle(w, later));
      OneStep(spec, s, Read(w), [Settle(w, later)]);
      actions := [Read(w)] + [Settle(w, later)];
    }
  }

  /** Whatever happened before, also a crash between any two transactions: an
      idle worker that runs alone ends the next due job. An active fact has the
      model's answer for its current content stored; for any other fact no
      vector changes. */
  lemma UndisturbedWorkerEmbeds(spec: Spec, s: State, w: WorkerId, now: Clock, later: Clock, token: Token, j: JobId, blob: Blob)
    returns (actions: seq<Action>)
    requires Reachable(spec, s) && w in s.workers && s.workers[w].phase.Idle? && token !in s.issued
    requires j in s.db.jobs && IsNext(spec, s, now, j) && |blob| == spec.dimensions
    ensures ByOne(actions, w)
    ensures Ended(spec, s, Run(spec, s, actions), j, s.db.jobs[j].factId, blob)
  {
    ReachableInv(spec, s);
    hide Inv, Apply, IsNext, Reachable, Fresh, Run, At, ActiveIn;
    ClaimStep(spec, s, w, now, token, j);
    var s1 := Apply(spec, s, Claim(w, now, token));
    var rest := ReadEnds(spec, s1, w, later, ClaimOf(j, s.db.jobs[j], token), blob);
    OneStep(spec, s, Claim(w, now, token), rest);
    actions := [Claim(w, now, token)] + rest;
    hide *;
    ByOneMore(Claim(w, now, token), rest, w);
  }

  lemma ByOneMore(a: Action, rest: seq<Action>, w: WorkerId)
    requires ByWorker(a) && a.w == w && ByOne(rest, w)
    ensures ByOne([a] + rest, w)
  {
  }

  lemma OneStep(spec: Spec, s: State, a: Action, rest: seq<Action>)
    ensures Run(spec, s, [a] + rest) == Run(spec, Apply(spec, s, a), rest)
  {
    assert ([a] + rest)[1..] == rest;
  }
}
