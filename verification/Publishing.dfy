/** Publishing, whatever the schedule: stalled workers, redelivered messages and sweeps included.

    An upload cannot be taken back, so a publish Job is claimed at most once and uploads at most once,
    and a recorded post closes the cut for good. What does not hold without the timing premise is that
    the recorded id stays the same (`Counterexamples.PostIsOverwritten`; `GateSoundness.PostsAreWrittenOnce`
    for when it does). */
module Publishing {
  import opened Wrappers
  import opened GuideEdit
  import opened PinFingerprint
  import opened Rows
  import opened Tx
  import opened System
  import opened Steps
  import opened Fencing
  import opened Claims

  // ---------- One claim, one upload ----------

  /** A publish row is never reset or resumed: one claim, and pending only before it. */
  predicate PublishRow(job: Job) {
    && job.resets == 0 && job.resumes == 0 && job.token <= 1
    && (job.status == Pending ==> job.token == 0)
  }

  /** This record has claimed the job (and keeps the token it wrote). */
  predicate HasClaimed(r: Run, j: nat) {
    r.job == j && r.claimTok >= 1
  }

  /** Only a record that has claimed is active or has uploaded. */
  predicate ClaimsFirst(r: Run) {
    r.uploaded || r.Active() ==> r.claimTok >= 1
  }

  /** At most one record has ever claimed the job, and only if the row says so. */
  ghost predicate ClaimedOnce(s: Sys, j: nat) {
    && (forall i | 0 <= i < |s.runs| :: ClaimsFirst(s.runs[i]))
    && (forall i | 0 <= i < |s.runs| && HasClaimed(s.runs[i], j) :: j in s.db.jobs && s.db.jobs[j].token >= 1)
    && (forall i, k | 0 <= i < |s.runs| && 0 <= k < |s.runs| && HasClaimed(s.runs[i], j)
        && HasClaimed(s.runs[k], j) :: i == k)
  }

  ghost predicate PublishInv(s: Sys, j: nat) {
    && (j in s.db.jobs && s.db.jobs[j].kind == Publish ==> PublishRow(s.db.jobs[j]) && ClaimedOnce(s, j))
    && (forall i | 0 <= i < |s.runs| :: ClaimsFirst(s.runs[i]))
    && (forall r | r in s.runs :: r.job in s.db.jobs)
  }

  lemma PublishRowStep(s: Sys, e: Event, j: nat)
    requires Enabled(s, e) && j in s.db.jobs && s.db.jobs[j].kind == Publish && PublishRow(s.db.jobs[j])
    ensures j in DbAfter(s, e).jobs && PublishRow(DbAfter(s, e).jobs[j]) && DbAfter(s, e).jobs[j].kind == Publish
    ensures DbAfter(s, e).jobs[j].token >= s.db.jobs[j].token
  {
    RowsMoveOneWay(s, e, j);
    if e.BodyFails? { NoRetryForPublish(s, e, j); } else { OnlyFailuresReset(s, e, j); }
  }

  lemma NoRetryForPublish(s: Sys, e: Event, j: nat)
    requires Enabled(s, e) && e.BodyFails? && j in s.db.jobs && s.db.jobs[j].kind == Publish
    ensures j in DbAfter(s, e).jobs && DbAfter(s, e).jobs[j].resets == s.db.jobs[j].resets
  {
  }

  /** What acting does to a record's claim: a claim needs a pending row, an upload needs a claim. */
  lemma ActingClaim(s: Sys, e: Event, i: nat)
    requires Enabled(s, e) && Actor(e) == Some(i)
    ensures
      var r, r' := s.runs[i], RunAfter(s, i, e);
      && r'.job == r.job
      && (r'.claimTok >= 1 ==> r.claimTok >= 1 || (e.ClaimJob? && JobOf(s, i).status == Pending))
      && (ClaimsFirst(r) ==> ClaimsFirst(r'))
  {
    if Ending(e) { EndingClaim(s, e, i); } else { GoingOnClaim(s, e, i); }
  }

  lemma EndingClaim(s: Sys, e: Event, i: nat)
    requires Enabled(s, e) && Actor(e) == Some(i) && Ending(e)
    ensures RunAfter(s, i, e).job == s.runs[i].job
    ensures RunAfter(s, i, e).claimTok in {0, s.runs[i].claimTok}
            && (ClaimsFirst(s.runs[i]) ==> ClaimsFirst(RunAfter(s, i, e)))
  {
    EndingRun(s, e, i);
  }

  lemma GoingOnClaim(s: Sys, e: Event, i: nat)
    requires Enabled(s, e) && Actor(e) == Some(i) && !Ending(e)
    ensures
      var r, r' := s.runs[i], RunAfter(s, i, e);
      && r'.job == r.job
      && (r'.claimTok >= 1 ==> r.claimTok >= 1 || (e.ClaimJob? && JobOf(s, i).status == Pending))
      && (ClaimsFirst(r) ==> ClaimsFirst(r'))
  {
    if InBody(e) { BodyRun(s, e, i); } else { StartingClaim(s, e, i); }
  }

  lemma StartingClaim(s: Sys, e: Event, i: nat)
    requires Enabled(s, e) && Actor(e) == Some(i) && !Ending(e) && !InBody(e)
    ensures
      var r, r' := s.runs[i], RunAfter(s, i, e);
      && r'.job == r.job
      && (r'.claimTok >= 1 ==> r.claimTok >= 1 || (e.ClaimJob? && JobOf(s, i).status == Pending))
      && (ClaimsFirst(r) ==> ClaimsFirst(r'))
  {
  }

  /** The records that have claimed the job afterwards had claimed it before, or just did. */
  lemma WhoHasClaimed(s: Sys, e: Event, j: nat, i: nat)
    requires Enabled(s, e) && i < |Next(s, e).runs| && HasClaimed(Next(s, e).runs[i], j)
    ensures i < |s.runs|
    ensures HasClaimed(s.runs[i], j) || (e == ClaimJob(i) && s.runs[i].job == j && JobOf(s, i).status == Pending)
  {
    if i < |s.runs| && Actor(e) == Some(i) { ActingClaim(s, e, i); }
  }

  lemma ClaimsFirstStep(s: Sys, e: Event)
    requires Enabled(s, e) && forall i | 0 <= i < |s.runs| :: ClaimsFirst(s.runs[i])
    ensures forall i | 0 <= i < |Next(s, e).runs| :: ClaimsFirst(Next(s, e).runs[i])
  {
    if Actor(e).Some? { ActingClaim(s, e, Actor(e).value); }
  }

  lemma ClaimedOnceStep(s: Sys, e: Event, j: nat)
    requires PublishInv(s, j) && Enabled(s, e) && j in s.db.jobs && s.db.jobs[j].kind == Publish
    ensures ClaimedOnce(Next(s, e), j)
  {
    var t := Next(s, e);
    ClaimsFirstStep(s, e);
    RowsMoveOneWay(s, e, j);
    PublishRowStep(s, e, j);
    forall i | 0 <= i < |t.runs| && HasClaimed(t.runs[i], j)
      ensures t.db.jobs[j].token >= 1
    {
      WhoHasClaimed(s, e, j, i);
    }
    forall i, k | 0 <= i < |t.runs| && 0 <= k < |t.runs| && HasClaimed(t.runs[i], j) && HasClaimed(t.runs[k], j)
      ensures i == k
    {
      WhoHasClaimed(s, e, j, i);
      WhoHasClaimed(s, e, j, k);
    }
  }

  lemma PublishStep(s: Sys, e: Event, j: nat)
    requires PublishInv(s, j) && Enabled(s, e)
    ensures PublishInv(Next(s, e), j)
  {
    var t := Next(s, e);
    RunsStayKnown(s, e);
    ClaimsFirstStep(s, e);
    if j in s.db.jobs {
      RowsMoveOneWay(s, e, j);
      if s.db.jobs[j].kind == Publish {
        PublishRowStep(s, e, j);
        ClaimedOnceStep(s, e, j);
      }
    } else if j in t.db.jobs {
      NewRows(s, e, j);
      FirstMessage(s, e, j);
    }
  }

  lemma FirstMessage(s: Sys, e: Event, j: nat)
    requires PublishInv(s, j) && Enabled(s, e) && j !in s.db.jobs
    ensures ClaimedOnce(Next(s, e), j)
  {
    var t := Next(s, e);
    ClaimsFirstStep(s, e);
    assert forall i | 0 <= i < |s.runs| :: s.runs[i].job != j;
    forall i | 0 <= i < |t.runs|
      ensures !HasClaimed(t.runs[i], j)
    {
      if HasClaimed(t.runs[i], j) {
        WhoHasClaimed(s, e, j, i);
        assert false;
      }
    }
  }

  lemma {:induction false} PublishRunsKeepInv(s: Sys, es: seq<Event>, j: nat)
    requires PublishInv(s, j) && Possible(s, es)
    ensures PublishInv(After(s, es), j)
    decreases |es|
  {
    if es != [] {
      PublishStep(s, es[0], j);
      PublishRunsKeepInv(Next(s, es[0]), es[1..], j);
    }
  }

  /** Main result: under arbitrary redelivery a publish Job is claimed at most once, is never pending
      again after that, and at most one of its runs ever uploads. */
  lemma PublishHappensAtMostOnce(es: seq<Event>, j: nat)
    requires Possible(INIT, es)
    ensures
      var s := After(INIT, es);
      j in s.db.jobs && s.db.jobs[j].kind == Publish ==>
        && s.db.jobs[j].token <= 1
        && (s.db.jobs[j].token == 1 ==> s.db.jobs[j].status != Pending)
        && (forall i, k | 0 <= i < |s.runs| && 0 <= k < |s.runs| && s.runs[i].job == j && s.runs[k].job == j
              && s.runs[i].uploaded && s.runs[k].uploaded :: i == k)
  {
    PublishRunsKeepInv(INIT, es, j);
    var s := After(INIT, es);
    if j in s.db.jobs && s.db.jobs[j].kind == Publish {
      forall i | 0 <= i < |s.runs| && s.runs[i].job == j && s.runs[i].uploaded
        ensures HasClaimed(s.runs[i], j)
      {
        assert ClaimsFirst(s.runs[i]);
      }
    }
  }

  // ---------- A recorded post closes the cut ----------

  lemma FailKeepsPost(db: Db, j: nat, from: JobStatus, fence: Option<nat>, now: nat, c: nat)
    requires c in db.cuts
    ensures c in Fail(db, j, from, fence, now).cuts && Fail(db, j, from, fence, now).cuts[c].postId == db.cuts[c].postId
  {
  }

  lemma FailuresKeepPost(s: Sys, e: Event, c: nat)
    requires Enabled(s, e) && c in s.db.cuts
    requires e.SendFails? || e.PreclaimError? || e.ReadBackError? || e.BodyFails? || e.Shutdown?
    ensures c in DbAfter(s, e).cuts && DbAfter(s, e).cuts[c].postId == s.db.cuts[c].postId
  {
    var r := s.runs[e.i];
    if e.SendFails? {
      RefusedSendKeepsPost(s, e, c);
    } else if e.BodyFails? || e.Shutdown? {
      FailKeepsPost(s.db, r.job, Running, Some(r.tok), s.clock, c);
    } else {
      FailKeepsPost(s.db, r.job, Pending, None, s.clock, c);
      FailKeepsPost(Claim(s.db, r.job, s.clock), r.job, Pending, None, s.clock, c);
    }
  }

  lemma RefusedSendKeepsPost(s: Sys, e: Event, c: nat)
    requires Enabled(s, e) && c in s.db.cuts && e.SendFails?
    ensures c in DbAfter(s, e).cuts && DbAfter(s, e).cuts[c].postId == s.db.cuts[c].postId
  {
  }

  /** A run of this cut records a post. */
  predicate Records(s: Sys, e: Event, c: nat) {
    e.RecordPost? && IsRun(s, e.i) && JobOf(s, e.i).ownerId == c
  }

  /** Nothing but such a record ever touches `platform_post_id`. */
  lemma OnlyRecordsWritePosts(s: Sys, e: Event, c: nat)
    requires Enabled(s, e) && c in s.db.cuts && !Records(s, e, c)
    ensures c in DbAfter(s, e).cuts && DbAfter(s, e).cuts[c].postId == s.db.cuts[c].postId
  {
    if e.SendFails? || e.PreclaimError? || e.ReadBackError? || e.BodyFails? || e.Shutdown? {
      FailuresKeepPost(s, e, c);
    } else if Ending(e) {
      FinishesKeepPost(s, e, c);
    } else {
      OthersKeepPost(s, e, c);
    }
  }

  lemma FinishesKeepPost(s: Sys, e: Event, c: nat)
    requires Enabled(s, e) && c in s.db.cuts
    requires e.Crash? || e.FinishEnrich? || e.FinishGenerate? || e.FinishRender? || e.FinishPublish?
    ensures c in DbAfter(s, e).cuts && DbAfter(s, e).cuts[c].postId == s.db.cuts[c].postId
  {
  }

  lemma OthersKeepPost(s: Sys, e: Event, c: nat)
    requires Enabled(s, e) && c in s.db.cuts && !Ending(e) && !Records(s, e, c)
    ensures c in DbAfter(s, e).cuts && DbAfter(s, e).cuts[c].postId == s.db.cuts[c].postId
  {
  }

  /** No event clears `platform_post_id`. */
  lemma PostStays(s: Sys, e: Event, c: nat)
    requires Enabled(s, e) && c in s.db.cuts && s.db.cuts[c].postId.Some?
    ensures c in DbAfter(s, e).cuts && DbAfter(s, e).cuts[c].postId.Some?
  {
    if !Records(s, e, c) { OnlyRecordsWritePosts(s, e, c); }
  }

  /** A publish run that loaded an already posted cut never gets to upload. */
  ghost predicate LoadedPostedNeverUploads(s: Sys) {
    forall i | 0 <= i < |s.runs| ::
      && (s.runs[i].view.CutView? && s.runs[i].view.cut.postId.Some? ==> !s.runs[i].gated && !s.runs[i].uploaded)
      && (s.runs[i].uploaded ==> s.runs[i].gated)
      && (s.runs[i].gated ==> s.runs[i].phase.Working? || s.runs[i].phase.Ended?)
  }

  lemma LoadedStep(s: Sys, e: Event)
    requires LoadedPostedNeverUploads(s) && Enabled(s, e)
    ensures LoadedPostedNeverUploads(Next(s, e))
  {
    if Actor(e).Some? { LoadedActor(s, e, Actor(e).value); }
  }

  lemma LoadedActor(s: Sys, e: Event, i: nat)
    requires LoadedPostedNeverUploads(s) && Enabled(s, e) && Actor(e) == Some(i)
    ensures
      var r := RunAfter(s, i, e);
      && (r.view.CutView? && r.view.cut.postId.Some? ==> !r.gated && !r.uploaded)
      && (r.uploaded ==> r.gated)
      && (r.gated ==> r.phase.Working? || r.phase.Ended?)
  {
    assert 0 <= i < |s.runs|;
    if Ending(e) { EndingRun(s, e, i); } else { LoadedGoesOn(s, e, i); }
  }

  lemma LoadedGoesOn(s: Sys, e: Event, i: nat)
    requires LoadedPostedNeverUploads(s) && Enabled(s, e) && Actor(e) == Some(i) && !Ending(e)
    ensures
      var r := RunAfter(s, i, e);
      && (r.view.CutView? && r.view.cut.postId.Some? ==> !r.gated && !r.uploaded)
      && (r.uploaded ==> r.gated)
      && (r.gated ==> r.phase.Working?)
  {
    assert 0 <= i < |s.runs|;
  }

  /** The cut is posted, and nothing renders or uploads it any more but runs that loaded it before. */
  ghost predicate IsPosted(s: Sys, c: nat) {
    && c in s.db.cuts && s.db.cuts[c].postId.Some? && LoadedPostedNeverUploads(s)
    && (forall j :: !Enabled(s, TriggerRender(c, j)))
    && (forall i | IsRun(s, i) && JobOf(s, i).kind == Render && JobOf(s, i).ownerId == c :: RenderRefused(s, i))
    && (forall i | IsRun(s, i) && JobOf(s, i).kind == Publish && JobOf(s, i).ownerId == c :: LoadOnlyFinalizes(s, i))
  }

  ghost predicate RenderRefused(s: Sys, i: nat) {
    !Enabled(s, Load(i)) && !Enabled(s, RefreshCut(i))
  }

  ghost predicate LoadOnlyFinalizes(s: Sys, i: nat) {
    Enabled(s, Load(i)) ==>
      var r := RunAfter(s, i, Load(i)); r.view.CutView? && r.view.cut.postId.Some? && !r.uploaded
  }

  lemma PostedNow(s: Sys, c: nat)
    requires c in s.db.cuts && s.db.cuts[c].postId.Some? && LoadedPostedNeverUploads(s)
    ensures IsPosted(s, c)
  {
    forall i | IsRun(s, i) && JobOf(s, i).kind == Render && JobOf(s, i).ownerId == c
      ensures RenderRefused(s, i)
    {
      PostedRefusesRender(s, i);
    }
    forall i | IsRun(s, i) && JobOf(s, i).kind == Publish && JobOf(s, i).ownerId == c
      ensures LoadOnlyFinalizes(s, i)
    {
      PostedLoads(s, i);
    }
  }

  lemma PostedRefusesRender(s: Sys, i: nat)
    requires IsRun(s, i) && JobOf(s, i).kind == Render && JobOf(s, i).ownerId in s.db.cuts && CutOf(s, i).postId.Some?
    ensures RenderRefused(s, i)
  {
  }

  lemma PostedLoads(s: Sys, i: nat)
    requires IsRun(s, i) && JobOf(s, i).kind == Publish && JobOf(s, i).ownerId in s.db.cuts && CutOf(s, i).postId.Some?
    requires LoadedPostedNeverUploads(s)
    ensures LoadOnlyFinalizes(s, i)
  {
  }

  /** Main result: once a post id is committed it stays, no later render is accepted (neither the
      request, nor the worker's load, nor its final refresh), and no publish run that loads the cut
      from then on uploads. */
  lemma {:induction false} PostedForGood(s: Sys, es: seq<Event>, c: nat)
    requires Possible(s, es) && c in s.db.cuts && s.db.cuts[c].postId.Some? && LoadedPostedNeverUploads(s)
    ensures IsPosted(After(s, es), c)
    decreases |es|
  {
    PostedNow(s, c);
    if es != [] {
      PostStays(s, es[0], c);
      LoadedStep(s, es[0]);
      PostedForGood(Next(s, es[0]), es[1..], c);
    }
  }

  lemma {:induction false} LoadedPostedInAnyRun(s: Sys, es: seq<Event>)
    requires Possible(s, es) && LoadedPostedNeverUploads(s)
    ensures LoadedPostedNeverUploads(After(s, es))
    decreases |es|
  {
    if es != [] {
      LoadedStep(s, es[0]);
      LoadedPostedInAnyRun(Next(s, es[0]), es[1..]);
    }
  }

  /** Main result, for every run of the system: a recorded id is replaced by exactly one kind of step,
      another post recorded by a run of this cut; and such a run loaded the cut when it was not posted
      yet, so it was already at work when the first id was recorded. */
  lemma PostIsReplacedIff(es: seq<Event>, e: Event, c: nat)
    requires Possible(INIT, es) && Enabled(After(INIT, es), e)
    requires c in After(INIT, es).db.cuts && After(INIT, es).db.cuts[c].postId.Some?
    ensures
      var s := After(INIT, es);
      && c in DbAfter(s, e).cuts
      && (DbAfter(s, e).cuts[c].postId != s.db.cuts[c].postId
          <==> Records(s, e, c) && Some(e.post) != s.db.cuts[c].postId)
      && (Records(s, e, c) ==> s.runs[e.i].view.CutView? && s.runs[e.i].view.cut.postId.None?)
  {
    var s := After(INIT, es);
    LoadedPostedInAnyRun(INIT, es);
    if Records(s, e, c) { assert 0 <= e.i < |s.runs|; } else { OnlyRecordsWritePosts(s, e, c); }
  }
}
