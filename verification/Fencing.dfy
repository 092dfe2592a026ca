/** What the fencing token buys, whatever the schedule: every message may be lost or delivered again,
    every run may stall for any time, and the done-orphan sweep may do its worst. */
module Fencing {
  import opened Wrappers
  import opened GuideEdit
  import opened PinFingerprint
  import opened Rows
  import opened Tx
  import opened System
  import opened Steps

  // ---------- Rows move one way ----------

  /** Everything that can happen to a job row in one event (heartbeat, error text and times apart): a
      claim, a retry reset, a resume within budget, the done-stamp, or a failure. */
  predicate RowMoves(job: Job, job': Job) {
    && job'.kind == job.kind && job'.ownerId == job.ownerId
    && (|| (job'.status == job.status && job'.token == job.token && job'.resets == job.resets
            && job'.resumes == job.resumes)
        || (job.status == Pending && job'.status == Running && job'.token == job.token + 1
            && job'.resets == job.resets && job'.resumes == job.resumes)
        || (job.status == Running && job'.status == Pending && job'.token == job.token
            && job'.resets == job.resets + 1 && job'.resumes == job.resumes)
        || (job.status == Running && job'.status == Pending && job'.token == job.token
            && job'.resets == job.resets && job'.resumes == job.resumes + 1 && job.resumes < ResumeBudget(job.kind))
        || (job.status == Running && job'.status == Done && job'.token == job.token
            && job'.resets == job.resets && job'.resumes == job.resumes)
        || (job.status != JobStatus.Failed && job'.status == JobStatus.Failed && job'.token == job.token
            && job'.resets == job.resets && job'.resumes == job.resumes))
  }

  lemma FailMoves(db: Db, j: nat, from: JobStatus, fence: Option<nat>, now: nat, k: nat)
    requires k in db.jobs && from in {Pending, Running}
    ensures k in Fail(db, j, from, fence, now).jobs && RowMoves(db.jobs[k], Fail(db, j, from, fence, now).jobs[k])
  {
  }

  lemma ErrorMoves(s: Sys, e: Event, j: nat)
    requires Enabled(s, e) && j in s.db.jobs
    requires e.PreclaimError? || e.ReadBackError? || e.BodyFails? || e.Shutdown?
    ensures j in DbAfter(s, e).jobs && RowMoves(s.db.jobs[j], DbAfter(s, e).jobs[j])
  {
    if e.PreclaimError? || e.ReadBackError? { PreclaimMoves(s, e, j); } else { BodyErrorMoves(s, e, j); }
  }

  lemma PreclaimMoves(s: Sys, e: Event, j: nat)
    requires Enabled(s, e) && j in s.db.jobs && (e.PreclaimError? || e.ReadBackError?)
    ensures j in DbAfter(s, e).jobs && RowMoves(s.db.jobs[j], DbAfter(s, e).jobs[j])
  {
    FailMoves(s.db, s.runs[e.i].job, Pending, None, s.clock, j);
  }

  lemma BodyErrorMoves(s: Sys, e: Event, j: nat)
    requires Enabled(s, e) && j in s.db.jobs && (e.BodyFails? || e.Shutdown?)
    ensures j in DbAfter(s, e).jobs && RowMoves(s.db.jobs[j], DbAfter(s, e).jobs[j])
  {
    FailMoves(s.db, s.runs[e.i].job, Running, Some(s.runs[e.i].tok), s.clock, j);
  }

  lemma SendMoves(s: Sys, e: Event, j: nat)
    requires Enabled(s, e) && j in s.db.jobs && e.SendFails?
    ensures j in DbAfter(s, e).jobs && RowMoves(s.db.jobs[j], DbAfter(s, e).jobs[j])
  {
    var r := s.runs[e.i];
    match r.phase.origin
    case FromRouter => FailMoves(s.db, r.job, Pending, None, s.clock, j);
    case FromReaper =>
    case FromRetry(fence) => FailMoves(s.db, r.job, Pending, fence, s.clock, j);
    case FromEnrich(_) =>
  }

  lemma ReaperMoves(s: Sys, e: Event, j: nat)
    requires Enabled(s, e) && j in s.db.jobs && (e.Reap? || e.SweepOrphan?)
    ensures j in DbAfter(s, e).jobs && RowMoves(s.db.jobs[j], DbAfter(s, e).jobs[j])
  {
  }

  /** A row moves by these steps only: each claim raises the token by one and nothing else touches it,
      failed is terminal, and a done row is never live again, so it is stamped done at most once. */
  lemma RowsMoveOneWay(s: Sys, e: Event, j: nat)
    requires Enabled(s, e) && j in s.db.jobs
    ensures j in DbAfter(s, e).jobs && RowMoves(s.db.jobs[j], DbAfter(s, e).jobs[j])
  {
    if e.PreclaimError? || e.ReadBackError? || e.BodyFails? || e.Shutdown? {
      ErrorMoves(s, e, j);
    } else if e.SendFails? {
      SendMoves(s, e, j);
    } else if e.Reap? || e.SweepOrphan? {
      ReaperMoves(s, e, j);
    }
  }

  // ---------- Tokens identify claims ----------

  /** A run's own claim lies behind it; the token it read back is at least its own. */
  predicate TokenOk(s: Sys, r: Run) {
    && r.job in s.db.jobs
    && (r.Active() ==> 1 <= r.claimTok <= s.db.jobs[r.job].token)
    && (r.Holder() ==> r.claimTok <= r.tok <= s.db.jobs[r.job].token)
  }

  ghost predicate TokenInv(s: Sys) {
    && (forall i | 0 <= i < |s.runs| :: TokenOk(s, s.runs[i]))
    && (forall i, k | 0 <= i < k < |s.runs| && s.runs[i].Active() && s.runs[k].Active()
        && s.runs[i].job == s.runs[k].job
          :: s.runs[i].claimTok != s.runs[k].claimTok)
  }

  /** Only a claim makes a run active, and it gives it the row's new token. */
  lemma ActingPhase(s: Sys, e: Event, i: nat)
    requires Enabled(s, e) && Actor(e) == Some(i)
    ensures
      var r, r' := s.runs[i], RunAfter(s, i, e);
      && r'.job == r.job
      && (r'.Active() ==>
            || (e.ReadBack? && r.Active() && r' == r.(phase := Owned, tok := s.db.jobs[r.job].token))
            || (r.Active() && r'.Holder() == r.Holder() && r'.claimTok == r.claimTok && r'.tok == r.tok)
            || (e.ClaimJob? && Matches(s.db, r.job, Pending, None)
                && r' == r.(phase := Claimed, claimTok := s.db.jobs[r.job].token + 1)))
  {
    if Ending(e) { EndingPhase(s, e, i); } else { GoingOnPhase(s, e, i); }
  }

  lemma EndingPhase(s: Sys, e: Event, i: nat)
    requires Enabled(s, e) && Actor(e) == Some(i) && Ending(e)
    ensures RunAfter(s, i, e).job == s.runs[i].job && !RunAfter(s, i, e).Active()
  {
    EndingRun(s, e, i);
  }

  lemma GoingOnPhase(s: Sys, e: Event, i: nat)
    requires Enabled(s, e) && Actor(e) == Some(i) && !Ending(e)
    ensures
      var r, r' := s.runs[i], RunAfter(s, i, e);
      && r'.job == r.job
      && (r'.Active() ==>
            || (e.ReadBack? && r.Active() && r' == r.(phase := Owned, tok := s.db.jobs[r.job].token))
            || (r.Active() && r'.Holder() == r.Holder() && r'.claimTok == r.claimTok && r'.tok == r.tok)
            || (e.ClaimJob? && Matches(s.db, r.job, Pending, None)
                && r' == r.(phase := Claimed, claimTok := s.db.jobs[r.job].token + 1)))
  {
    if InBody(e) { BodyRun(s, e, i); } else { StartingPhase(s, e, i); }
  }

  lemma StartingPhase(s: Sys, e: Event, i: nat)
    requires Enabled(s, e) && Actor(e) == Some(i) && !Ending(e) && !InBody(e)
    ensures
      var r, r' := s.runs[i], RunAfter(s, i, e);
      && r'.job == r.job
      && (r'.Active() ==>
            || (e.ReadBack? && r.Active() && r' == r.(phase := Owned, tok := s.db.jobs[r.job].token))
            || (r.Active() && r'.Holder() == r.Holder() && r'.claimTok == r.claimTok && r'.tok == r.tok)
            || (e.ClaimJob? && Matches(s.db, r.job, Pending, None)
                && r' == r.(phase := Claimed, claimTok := s.db.jobs[r.job].token + 1)))
  {
  }

  lemma ActingRun(s: Sys, e: Event, i: nat)
    requires Enabled(s, e) && Actor(e) == Some(i) && TokenOk(s, s.runs[i])
    ensures TokenOk(Next(s, e), RunAfter(s, i, e))
  {
    RowsMoveOneWay(s, e, s.runs[i].job);
    ActingPhase(s, e, i);
  }

  lemma NewRecord(s: Sys, e: Event)
    requires Enabled(s, e) && Spawned(s, e).Some?
    ensures TokenOk(Next(s, e), Spawned(s, e).value) && !Spawned(s, e).value.Active()
  {
    if e.Redeliver? { RowsMoveOneWay(s, e, s.runs[e.i].job); }
    if e.Reap? { RowsMoveOneWay(s, e, e.job); }
  }

  lemma ActingAll(s: Sys, e: Event, i: nat)
    requires TokenInv(s) && Enabled(s, e) && Actor(e) == Some(i)
    ensures TokenOk(Next(s, e), RunAfter(s, i, e)) && RunAfter(s, i, e).job == s.runs[i].job
    ensures RunAfter(s, i, e).Active() ==>
              || (s.runs[i].Active() && RunAfter(s, i, e).claimTok == s.runs[i].claimTok)
              || RunAfter(s, i, e).claimTok == s.db.jobs[s.runs[i].job].token + 1
  {
    assert TokenOk(s, s.runs[i]) by { assert 0 <= i < |s.runs|; }
    ActingRun(s, e, i);
    ActingPhase(s, e, i);
  }

  lemma TokenStep(s: Sys, e: Event)
    requires TokenInv(s) && Enabled(s, e)
    ensures TokenInv(Next(s, e))
  {
    var t := Next(s, e);
    if Spawned(s, e).Some? { NewRecord(s, e); }
    if Actor(e).Some? { ActingAll(s, e, Actor(e).value); }
    forall i | 0 <= i < |t.runs|
      ensures TokenOk(t, t.runs[i])
    {
      if i < |s.runs| {
        assert TokenOk(s, s.runs[i]);
        RowsMoveOneWay(s, e, s.runs[i].job);
      }
    }
    forall i, k | 0 <= i < k < |t.runs| && t.runs[i].Active() && t.runs[k].Active() && t.runs[i].job == t.runs[k].job
      ensures t.runs[i].claimTok != t.runs[k].claimTok
    {
      ClaimsStayApart(s, e, i, k);
    }
  }

  lemma ClaimsStayApart(s: Sys, e: Event, i: nat, k: nat)
    requires TokenInv(s) && Enabled(s, e) && i < k < |Next(s, e).runs|
    requires Next(s, e).runs[i].Active() && Next(s, e).runs[k].Active()
    requires Next(s, e).runs[i].job == Next(s, e).runs[k].job
    ensures Next(s, e).runs[i].claimTok != Next(s, e).runs[k].claimTok
  {
    if Spawned(s, e).Some? { NewRecord(s, e); }
    if Actor(e).Some? { ActingAll(s, e, Actor(e).value); }
    assert k < |s.runs|;
    assert TokenOk(s, s.runs[i]) && TokenOk(s, s.runs[k]);
  }

  lemma {:induction false} TokensIdentifyClaims(s: Sys, es: seq<Event>)
    requires TokenInv(s) && Possible(s, es)
    ensures TokenInv(After(s, es))
    decreases |es|
  {
    if es != [] {
      TokenStep(s, es[0]);
      TokensIdentifyClaims(Next(s, es[0]), es[1..]);
    }
  }

  /** No two runs of a Job hold one token. */
  ghost predicate TokensDistinct(s: Sys) {
    forall i, k | 0 <= i < k < |s.runs| && s.runs[i].Holder() && s.runs[k].Holder() && s.runs[i].job == s.runs[k].job
      :: s.runs[i].tok != s.runs[k].tok
  }

  /** A run reads back the token that another live run of its Job holds already. */
  ghost predicate ReadsAnothersToken(s: Sys, e: Event)
    requires Enabled(s, e)
  {
    e.ReadBack? && exists k :: 0 <= k < |s.runs| && k != e.i && s.runs[k].Holder() && s.runs[k].job == s.runs[e.i].job
                               && s.runs[k].tok == JobOf(s, e.i).token
  }

  /** Where a held token comes from. */
  lemma HoldersAfter(s: Sys, e: Event, i: nat)
    requires Enabled(s, e) && i < |Next(s, e).runs| && Next(s, e).runs[i].Holder()
    ensures i < |s.runs| && Next(s, e).runs[i].job == s.runs[i].job
    ensures (s.runs[i].Holder() && Next(s, e).runs[i].tok == s.runs[i].tok)
            || (e == ReadBack(i) && Next(s, e).runs[i].tok == JobOf(s, i).token)
  {
    if i < |s.runs| && Actor(e) == Some(i) { ActingPhase(s, e, i); }
  }

  lemma SharingReadBack(s: Sys, e: Event)
    requires Enabled(s, e) && ReadsAnothersToken(s, e)
    ensures !TokensDistinct(Next(s, e))
  {
    var t := Next(s, e);
    var k :| 0 <= k < |s.runs| && k != e.i && s.runs[k].Holder() && s.runs[k].job == s.runs[e.i].job
             && s.runs[k].tok == JobOf(s, e.i).token;
    assert t.runs[k] == s.runs[k] && t.runs[e.i].Holder() && t.runs[e.i].tok == t.runs[k].tok;
  }

  /** Exactly one step makes two runs hold one token: the read-back that finds the row still carrying the
      token another live run holds. */
  lemma TokensStayDistinctIff(s: Sys, e: Event)
    requires TokensDistinct(s) && Enabled(s, e)
    ensures TokensDistinct(Next(s, e)) <==> !ReadsAnothersToken(s, e)
  {
    if ReadsAnothersToken(s, e) {
      SharingReadBack(s, e);
    } else {
      forall i, k | 0 <= i < k < |Next(s, e).runs| && Next(s, e).runs[i].Holder() && Next(s, e).runs[k].Holder()
                    && Next(s, e).runs[i].job == Next(s, e).runs[k].job
        ensures Next(s, e).runs[i].tok != Next(s, e).runs[k].tok
      {
        HoldersAfter(s, e, i);
        HoldersAfter(s, e, k);
      }
    }
  }

  ghost predicate NoSharedReadBack(s: Sys, es: seq<Event>)
    requires Possible(s, es)
    decreases |es|
  {
    es == [] || (!ReadsAnothersToken(s, es[0]) && NoSharedReadBack(Next(s, es[0]), es[1..]))
  }

  /** Hence over whole runs: without such a read-back, at most one run of a Job ever passes the fence. */
  lemma {:induction false} OneRunPassesTheFence(s: Sys, es: seq<Event>)
    requires TokensDistinct(s) && Possible(s, es) && NoSharedReadBack(s, es)
    ensures
      var t := After(s, es);
      && TokensDistinct(t)
      && (forall i, k | 0 <= i < |t.runs| && 0 <= k < |t.runs| && t.runs[i].Holder() && t.runs[k].Holder()
            && t.runs[i].job == t.runs[k].job && Lands(t, i) && Lands(t, k) :: i == k)
    decreases |es|
  {
    if es != [] {
      TokensStayDistinctIff(s, es[0]);
      OneRunPassesTheFence(Next(s, es[0]), es[1..]);
    }
  }

  /** Two runs can hold one token only if at least one of them read its token back after a later claim. */
  lemma SharedTokenMeansLateReadBack(s: Sys, i: nat, k: nat)
    requires TokenInv(s) && i < |s.runs| && k < |s.runs| && i != k
    requires s.runs[i].job == s.runs[k].job && s.runs[i].Holder() && s.runs[k].Holder()
    ensures s.runs[i].tok == s.runs[k].tok ==> s.runs[i].tok > s.runs[i].claimTok || s.runs[k].tok > s.runs[k].claimTok
    ensures Lands(s, i) && Lands(s, k) ==> s.runs[i].tok == s.runs[k].tok
  {
    assert TokenOk(s, s.runs[i]) && TokenOk(s, s.runs[k]);
    if i < k {
      assert s.runs[i].claimTok != s.runs[k].claimTok;
    } else {
      assert s.runs[k].claimTok != s.runs[i].claimTok;
    }
  }

  // ---------- A superseded run is harmless ----------

  /** No Job row changed but for `updated_at`, and no owner's status changed. */
  ghost predicate StatusesKept(db: Db, db': Db) {
    && db'.jobs.Keys == db.jobs.Keys && db'.reels == db.reels && db'.cuts.Keys == db.cuts.Keys
    && (forall j | j in db.jobs :: db'.jobs[j] == db.jobs[j].(touched := db'.jobs[j].touched))
    && (forall c | c in db.cuts :: db'.cuts[c].status == db.cuts[c].status)
  }

  /** On every path of a run whose token is behind the row (heartbeat, lock, done-stamp, retry reset,
      failure, shutdown), no job status, claim, resume count, error or owner status changes, and no
      retry message is scheduled. */
  lemma SupersededRunIsHarmless(s: Sys, e: Event, i: nat)
    requires Enabled(s, e) && Actor(e) == Some(i)
    requires s.runs[i].Holder() && s.runs[i].tok != JobOf(s, i).token
    ensures StatusesKept(s.db, DbAfter(s, e))
    ensures !RunAfter(s, i, e).phase.Sending?
    ensures Spawned(s, e).None?
  {
    if Ending(e) { SupersededEndIsHarmless(s, e, i); } else { SupersededBodyIsHarmless(s, e, i); }
  }

  lemma SupersededEndIsHarmless(s: Sys, e: Event, i: nat)
    requires Enabled(s, e) && Actor(e) == Some(i) && Ending(e)
    requires s.runs[i].Holder() && s.runs[i].tok != JobOf(s, i).token
    ensures DbAfter(s, e) == s.db && RunAfter(s, i, e).phase.Ended? && Spawned(s, e).None?
  {
  }

  lemma SupersededBodyIsHarmless(s: Sys, e: Event, i: nat)
    requires Enabled(s, e) && Actor(e) == Some(i) && !Ending(e)
    requires s.runs[i].Holder() && s.runs[i].tok != JobOf(s, i).token
    ensures StatusesKept(s.db, DbAfter(s, e)) && RunAfter(s, i, e).Holder() && Spawned(s, e).None?
  {
    if InBody(e) {
      BodyRun(s, e, i);
      SupersededRowsInBody(s, e, i);
    }
  }

  lemma SupersededRowsInBody(s: Sys, e: Event, i: nat)
    requires Enabled(s, e) && Actor(e) == Some(i) && InBody(e)
    requires s.runs[i].tok != JobOf(s, i).token
    ensures StatusesKept(s.db, DbAfter(s, e)) && Spawned(s, e).None?
  {
  }

  /** Superseded, or already over. */
  predicate Behind(s: Sys, i: nat) {
    IsRun(s, i) && (s.runs[i].phase.Ended? || (s.runs[i].Holder() && s.runs[i].tok != JobOf(s, i).token))
  }

  /** The same over a whole stretch: whatever a superseded run still does until it ends. */
  lemma {:induction false} SupersededStretchIsHarmless(s: Sys, es: seq<Event>, i: nat)
    requires Possible(s, es) && Behind(s, i)
    requires forall e | e in es :: Actor(e) == Some(i)
    ensures StatusesKept(s.db, After(s, es).db)
    ensures Behind(After(s, es), i) && |After(s, es).runs| == |s.runs|
    decreases |es|
  {
    if es != [] {
      var t := Next(s, es[0]);
      assert Actor(es[0]) == Some(i) by { assert es[0] in es; }
      StillBehind(s, es[0], i);
      SupersededStretchIsHarmless(t, es[1..], i);
    }
  }

  lemma StillBehind(s: Sys, e: Event, i: nat)
    requires Enabled(s, e) && Actor(e) == Some(i) && Behind(s, i)
    ensures StatusesKept(s.db, DbAfter(s, e)) && Behind(Next(s, e), i) && |Next(s, e).runs| == |s.runs|
  {
    ActingPhase(s, e, i);
    if s.runs[i].Holder() { SupersededRunIsHarmless(s, e, i); }
  }

  /** The rejected retry of an owned run carries the fence too. */
  lemma SupersededRejectIsHarmless(s: Sys, e: Event)
    requires Enabled(s, e) && e.SendFails?
    requires s.runs[e.i].phase.origin.FromRetry? && s.runs[e.i].phase.origin.fence.Some?
    requires s.runs[e.i].phase.origin.fence.value != JobOf(s, e.i).token
    ensures DbAfter(s, e) == s.db
  {
  }

  /** Once a claim has overtaken a run's token the run stays locked out for good. */
  lemma {:induction false} OvertakenForGood(s: Sys, es: seq<Event>, j: nat, tok: nat)
    requires Possible(s, es) && j in s.db.jobs && tok < s.db.jobs[j].token
    ensures j in After(s, es).db.jobs && tok < After(s, es).db.jobs[j].token
    ensures !Matches(After(s, es).db, j, Running, Some(tok))
    decreases |es|
  {
    if es != [] {
      RowsMoveOneWay(s, es[0], j);
      OvertakenForGood(Next(s, es[0]), es[1..], j, tok);
    }
  }

  /** A failed Job stays failed, and a Job that has ended is never claimed, resumed or retried again. */
  lemma {:induction false} EndedForGood(s: Sys, es: seq<Event>, j: nat)
    requires Possible(s, es) && j in s.db.jobs && !s.db.jobs[j].Live()
    ensures j in After(s, es).db.jobs && !After(s, es).db.jobs[j].Live()
    ensures After(s, es).db.jobs[j].token == s.db.jobs[j].token
    ensures s.db.jobs[j].status == JobStatus.Failed ==> After(s, es).db.jobs[j].status == JobStatus.Failed
    decreases |es|
  {
    if es != [] {
      RowsMoveOneWay(s, es[0], j);
      EndedForGood(Next(s, es[0]), es[1..], j);
    }
  }
}
