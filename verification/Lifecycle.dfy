/** The statuses of cuts and reels over whole runs: which event moves which status where, that only a cut in
    review is edited, and that no video goes out that was not approved. */
module Lifecycle {
  import opened Wrappers
  import opened GuideEdit
  import opened PinFingerprint
  import opened Rows
  import opened Tx
  import opened System
  import opened Steps
  import opened Fencing
  import opened Correspondence
  import opened GateSoundness

  // ---------- Cuts ----------

  /** A status is left by these steps only. */
  ghost predicate CutMoves(s: Sys, e: Event, c: nat, from: CutStatus, to: CutStatus)
    requires Enabled(s, e)
  {
    || to == from
    || (from in {CutDraft, CutInReview, CutFailed} && to == CutRendering && e.TriggerRender? && e.cut == c)
    || (from == CutRendering && to == CutInReview && LandsOn(s, e, c) && e.FinishRender?)
    || (from == CutInReview && to == CutApproved && e == Approve(c))
    || (from in {CutApproved, CutScheduled, CutFailed} && to == CutPublishing && e.TriggerPublish? && e.cut == c)
    || (from == CutPublishing && to == CutPublished && LandsOn(s, e, c) && e.FinishPublish?)
    || (from in {CutRendering, CutPublishing} && to == CutFailed && IsFailure(e))
  }

  /** The last write of a render or publish of this cut that still holds its Job. */
  ghost predicate LandsOn(s: Sys, e: Event, c: nat)
    requires Enabled(s, e)
  {
    (e.FinishRender? || e.FinishPublish?) && Lands(s, e.i) && JobOf(s, e.i).ownerId == c
  }

  lemma CutMovesOnly(s: Sys, e: Event, c: nat)
    requires Inv(WatchCut(c), s) && Enabled(s, e) && c in s.db.cuts
    ensures c in DbAfter(s, e).cuts && CutMoves(s, e, c, s.db.cuts[c].status, DbAfter(s, e).cuts[c].status)
  {
    if IsFailure(e) {
      FailuresMoveCut(s, e, c);
    } else if Finishes(e) {
      FinishesMoveCut(s, e, c);
    } else {
      RequestsMoveCut(s, e, c);
    }
  }

  lemma FailMovesCut(db: Db, j: nat, from: JobStatus, fence: Option<nat>, now: nat, c: nat)
    requires c in db.cuts
    ensures
      var a, cuts := db.cuts[c].status, Fail(db, j, from, fence, now).cuts;
      c in cuts && (cuts[c].status == a || (a in {CutRendering, CutPublishing} && cuts[c].status == CutFailed))
  {
  }

  /** What a failure can do to a cut. */
  ghost predicate OnlyFails(a: Cut, b: Cut) {
    b.status == a.status || (a.status in {CutRendering, CutPublishing} && b.status == CutFailed)
  }

  lemma FailuresMoveCut(s: Sys, e: Event, c: nat)
    requires Enabled(s, e) && c in s.db.cuts && IsFailure(e)
    ensures c in DbAfter(s, e).cuts && OnlyFails(s.db.cuts[c], DbAfter(s, e).cuts[c])
  {
    if e.Reap? {
      FailMovesCut(s.db, e.job, s.db.jobs[e.job].status, None, s.clock, c);
    } else if e.SweepOrphan? {
      FailMovesCut(s.db, e.job, Done, None, s.clock, c);
    } else if e.SendFails? {
      RefusalsMoveCut(s, e, c);
    } else if e.PreclaimError? || e.ReadBackError? {
      FailMovesCut(s.db, s.runs[e.i].job, Pending, None, s.clock, c);
      FailMovesCut(Claim(s.db, s.runs[e.i].job, s.clock), s.runs[e.i].job, Pending, None, s.clock, c);
    } else {
      FailMovesCut(s.db, s.runs[e.i].job, Running, Some(s.runs[e.i].tok), s.clock, c);
    }
  }

  lemma RefusalsMoveCut(s: Sys, e: Event, c: nat)
    requires Enabled(s, e) && c in s.db.cuts && e.SendFails?
    ensures c in DbAfter(s, e).cuts && OnlyFails(s.db.cuts[c], DbAfter(s, e).cuts[c])
  {
    match s.runs[e.i].phase.origin
    case FromRouter => FailMovesCut(s.db, s.runs[e.i].job, Pending, None, s.clock, c);
    case FromReaper =>
    case FromRetry(fence) => FailMovesCut(s.db, s.runs[e.i].job, Pending, fence, s.clock, c);
    case FromEnrich(_) =>
  }

  lemma FinishesMoveCut(s: Sys, e: Event, c: nat)
    requires Inv(WatchCut(c), s) && Enabled(s, e) && c in s.db.cuts && Finishes(e)
    ensures c in DbAfter(s, e).cuts && CutMoves(s, e, c, s.db.cuts[c].status, DbAfter(s, e).cuts[c].status)
  {
    FinishWrites(s, e, c);
    if LandsOn(s, e, c) { LandsFromItsState(s, e, c); }
  }

  lemma LandsFromItsState(s: Sys, e: Event, c: nat)
    requires Inv(WatchCut(c), s) && Enabled(s, e) && c in s.db.cuts && LandsOn(s, e, c)
    ensures s.db.cuts[c].status == if e.FinishRender? then CutRendering else CutPublishing
  {
    HoldsCut(s, e.i, c);
  }

  /** A run that holds a Job of the cut has the cut in its kind's state. */
  lemma HoldsCut(s: Sys, i: nat, c: nat)
    requires Inv(WatchCut(c), s) && IsRun(s, i) && Lands(s, i) && JobOf(s, i).Owner() == OfCut(c) && c in s.db.cuts
    ensures CutFlight(s.db.cuts[c].status) == Some(JobOf(s, i).kind)
  {
    assert Flight(s.db, JobOf(s, i).Owner()) == Some(JobOf(s, i).kind);
  }

  /** What the last write of a body does to a cut's status, in any state. */
  lemma FinishWrites(s: Sys, e: Event, c: nat)
    requires Enabled(s, e) && c in s.db.cuts && Finishes(e)
    ensures c in DbAfter(s, e).cuts
    ensures DbAfter(s, e).cuts[c].status
            == if !LandsOn(s, e, c) then s.db.cuts[c].status else if e.FinishRender? then CutInReview else CutPublished
  {
  }

  lemma RequestsMoveCut(s: Sys, e: Event, c: nat)
    requires Enabled(s, e) && c in s.db.cuts && !IsFailure(e) && !Finishes(e)
    ensures c in DbAfter(s, e).cuts && CutMoves(s, e, c, s.db.cuts[c].status, DbAfter(s, e).cuts[c].status)
  {
  }

  /** What a request that is served leaves: the cut on its way, a pending Job of it with nothing used up, and
      its first message. */
  ghost predicate Requested(s: Sys, t: Sys, c: nat, status: CutStatus, newJob: nat, kind: JobKind) {
    && c in s.db.cuts && newJob in t.db.jobs
    && t.db.reels == s.db.reels && t.db.cuts == s.db.cuts[c := s.db.cuts[c].(status := status)]
    && t.db.jobs == s.db.jobs[newJob := t.db.jobs[newJob]]
    && (var job := t.db.jobs[newJob];
        && job.kind == kind && job.ownerId == c && job.status == Pending && !job.error
        && job.resumes == 0 && job.resets == 0 && job.touched == s.clock)
    && t.runs == s.runs + [NewRun(newJob, 0, Sending(FromRouter))]
  }

  /** What the operator can ask for in each status, and what becomes of it: a cut with a guide that was not
      posted is rendered from draft, review or failure; one with a video is published once approved, or again
      after a failure; one in review is approved. */
  lemma RequestsAreServed(s: Sys, c: nat, newJob: nat)
    requires c in s.db.cuts && newJob !in s.db.jobs
    ensures
      var cut, e := s.db.cuts[c], TriggerRender(c, newJob);
      if cut.guide.Some? && cut.postId.None? && cut.status in {CutDraft, CutInReview, CutFailed}
      then Enabled(s, e) && Requested(s, Next(s, e), c, CutRendering, newJob, Render) else !Enabled(s, e)
    ensures
      var cut, e := s.db.cuts[c], TriggerPublish(c, newJob);
      if cut.recorded.Some? && cut.status in {CutApproved, CutScheduled, CutFailed}
      then Enabled(s, e) && Requested(s, Next(s, e), c, CutPublishing, newJob, Publish) else !Enabled(s, e)
    ensures
      var cut, e := s.db.cuts[c], Approve(c);
      if cut.status == CutInReview
      then Enabled(s, e) && Next(s, e) == s.(db := s.db.(cuts := s.db.cuts[c := cut.(status := CutApproved)]))
      else !Enabled(s, e)
  {
  }

  /** A message takes its Job exactly when the row is still pending: the row turns running under the next
      token with a beat of now, and the run knows that token as its claim. Otherwise the message is over and
      nothing is written. */
  lemma ClaimTakesPending(s: Sys, i: nat)
    requires Enabled(s, ClaimJob(i))
    ensures
      var j, job, r' := s.runs[i].job, JobOf(s, i), RunAfter(s, i, ClaimJob(i));
      if job.status == Pending then
        && DbAfter(s, ClaimJob(i))
           == s.db.(jobs := s.db.jobs[j := job.(status := Running, token := job.token + 1, beat := Some(s.clock),
                                                touched := s.clock)])
        && r' == s.runs[i].(phase := Claimed, claimTok := job.token + 1)
      else DbAfter(s, ClaimJob(i)) == s.db && r'.phase.Ended?
  {
  }

  /** What a read of a run leaves in it. */
  ghost predicate Saw(s: Sys, e: Event, r: Run)
    requires Enabled(s, e) && Actor(e).Some? && IsRun(s, Actor(e).value)
  {
    match e
    case ReadBack(i) => r.tok == JobOf(s, i).token
    case Load(i) =>
      if JobOf(s, i).kind in {Enrich, Generate} then r.view == ReelView(s.db.reels[JobOf(s, i).ownerId].status)
      else r.view == CutView(CutOf(s, i))
    case RefreshCut(i) => r.refreshed == Some(CutOf(s, i))
    case SnapPins(i) => r.pinsSeen == Some(CutOf(s, i).pins)
    case _ => true
  }

  /** Each read of a run sees the row as it is at that moment, keeps what it saw, and writes nothing. */
  lemma ReadsSeeTheRows(s: Sys, e: Event)
    requires Enabled(s, e) && (e.ReadBack? || e.Load? || e.RefreshCut? || e.SnapPins?)
    ensures DbAfter(s, e) == s.db && Saw(s, e, RunAfter(s, e.i, e))
  {
  }

  /** The last write of a body: all of it lands when the run still holds its Job, and none otherwise. The Job
      is done without an error, a render's cut is in review with its video and both fingerprints, a publish's
      cut is published, and other cuts stay. */
  lemma LandingsWrite(s: Sys, e: Event)
    requires Enabled(s, e) && (e.FinishRender? || e.FinishPublish?)
    ensures
      var r, db' := s.runs[e.i], DbAfter(s, e);
      var job := JobOf(s, e.i);
      if job.status != Running || job.token != r.tok then db' == s.db
      else
        && db'.reels == s.db.reels
        && db'.jobs
           == s.db.jobs[r.job := job.(status := Done, error := false, beat := Some(s.clock), touched := s.clock)]
        && db'.cuts
           == s.db.cuts[job.ownerId :=
                          if e.FinishPublish? then s.db.cuts[job.ownerId].(status := CutPublished)
                          else s.db.cuts[job.ownerId].(
                               status := CutInReview,
                               recorded := Some(Recording(r.view.cut.guide.value, r.builtPins)),
                               pinsFp := Some(PinsFingerprint(r.pinsSeen.value)),
                               guideFp := Some(GuideFp(r.refreshed.value.guide.value)))]
  {
  }

  /** A guide, once there, changes only by an edit of a cut in review. */
  lemma GuidesChangeInReview(s: Sys, e: Event, c: nat)
    requires Inv(WatchReels, s) && Enabled(s, e) && c in s.db.cuts && s.db.cuts[c].guide.Some?
    ensures c in DbAfter(s, e).cuts
    ensures DbAfter(s, e).cuts[c].guide != s.db.cuts[c].guide ==>
              e.EditGuide? && e.cut == c && s.db.cuts[c].status == CutInReview
  {
    if IsFailure(e) {
      FailuresKeepContent(s, e, c);
    } else if e.FinishGenerate? {
      GenerateTouchesFreshCuts(WatchReels, s, e, c);
    } else {
      OthersKeepGuides(s, e, c);
    }
  }

  lemma OthersKeepGuides(s: Sys, e: Event, c: nat)
    requires Enabled(s, e) && c in s.db.cuts && !IsFailure(e) && !e.FinishGenerate?
    ensures c in DbAfter(s, e).cuts
    ensures DbAfter(s, e).cuts[c].guide != s.db.cuts[c].guide ==>
              e.EditGuide? && e.cut == c && s.db.cuts[c].status == CutInReview
  {
  }

  // ---------- Reels ----------

  /** A reel is enriched, then generates, then has its guides; it fails only on the way. */
  ghost predicate ReelMoves(e: Event, from: ReelStatus, to: ReelStatus) {
    || to == from
    || (from == ReelEnriching && to == ReelGenerating && e.FinishEnrich?)
    || (from == ReelGenerating && to == ReelGuideReady && e.FinishGenerate?)
    || (from in {ReelEnriching, ReelGenerating} && to == ReelFailed && IsFailure(e))
  }

  lemma ReelMovesOnly(s: Sys, e: Event, r: nat)
    requires Inv(WatchReels, s) && Enabled(s, e) && r in s.db.reels
    ensures r in DbAfter(s, e).reels && ReelMoves(e, s.db.reels[r].status, DbAfter(s, e).reels[r].status)
  {
    if IsFailure(e) {
      FailuresMoveReel(s, e, r);
    } else if e.FinishEnrich? || e.FinishGenerate? {
      FinishesMoveReel(s, e, r);
    } else {
      OthersKeepReels(s, e, r);
    }
  }

  lemma FinishesMoveReel(s: Sys, e: Event, r: nat)
    requires Inv(WatchReels, s) && Enabled(s, e) && r in s.db.reels && (e.FinishEnrich? || e.FinishGenerate?)
    ensures r in DbAfter(s, e).reels && ReelMoves(e, s.db.reels[r].status, DbAfter(s, e).reels[r].status)
  {
    if Lands(s, e.i) { assert Flight(s.db, JobOf(s, e.i).Owner()) == Some(JobOf(s, e.i).kind); }
  }

  lemma FailuresMoveReel(s: Sys, e: Event, r: nat)
    requires Enabled(s, e) && r in s.db.reels && IsFailure(e)
    ensures r in DbAfter(s, e).reels && ReelMoves(e, s.db.reels[r].status, DbAfter(s, e).reels[r].status)
  {
    if e.SendFails? { RefusalsMoveReel(s, e, r); } else { ErrorsMoveReel(s, e, r); }
  }

  lemma RefusalsMoveReel(s: Sys, e: Event, r: nat)
    requires Enabled(s, e) && r in s.db.reels && e.SendFails?
    ensures r in DbAfter(s, e).reels && ReelMoves(e, s.db.reels[r].status, DbAfter(s, e).reels[r].status)
  {
  }

  lemma ErrorsMoveReel(s: Sys, e: Event, r: nat)
    requires Enabled(s, e) && r in s.db.reels && IsFailure(e) && !e.SendFails?
    ensures r in DbAfter(s, e).reels && ReelMoves(e, s.db.reels[r].status, DbAfter(s, e).reels[r].status)
  {
  }

  lemma OthersKeepReels(s: Sys, e: Event, r: nat)
    requires Enabled(s, e) && r in s.db.reels && !IsFailure(e) && !e.FinishEnrich? && !e.FinishGenerate?
    ensures r in DbAfter(s, e).reels && DbAfter(s, e).reels[r] == s.db.reels[r]
  {
  }

  // ---------- Nothing goes out unapproved ----------

  /** Rendered, and on no way to a publish but through an approval or a failure. */
  predicate Unapproved(status: CutStatus) {
    status in {CutRendering, CutInReview, CutPublished}
  }

  /** The step neither approves the cut nor leaves it failed. */
  ghost predicate NeitherApprovesNorFails(s: Sys, e: Event, c: nat)
    requires Enabled(s, e)
  {
    e != Approve(c) && (c in DbAfter(s, e).cuts ==> DbAfter(s, e).cuts[c].status != CutFailed)
  }

  ghost predicate NeverApprovesNorFails(s: Sys, es: seq<Event>, c: nat)
    requires Possible(s, es)
    decreases |es|
  {
    es == [] || (NeitherApprovesNorFails(s, es[0], c) && NeverApprovesNorFails(Next(s, es[0]), es[1..], c))
  }

  lemma StaysUnapproved(s: Sys, e: Event, c: nat)
    requires Enabled(s, e) && c in s.db.cuts && Unapproved(s.db.cuts[c].status) && NeitherApprovesNorFails(s, e, c)
    ensures c in DbAfter(s, e).cuts && Unapproved(DbAfter(s, e).cuts[c].status)
  {
    if IsFailure(e) {
      FailuresMoveCut(s, e, c);
    } else if Finishes(e) {
      FinishWrites(s, e, c);
    } else {
      RequestsMoveCut(s, e, c);
    }
  }

  lemma {:induction false} UnapprovedUntil(s: Sys, es: seq<Event>, c: nat)
    requires Possible(s, es) && c in s.db.cuts && Unapproved(s.db.cuts[c].status) && NeverApprovesNorFails(s, es, c)
    ensures c in After(s, es).db.cuts && Unapproved(After(s, es).db.cuts[c].status)
    decreases |es|
  {
    if es != [] {
      StaysUnapproved(s, es[0], c);
      UnapprovedUntil(Next(s, es[0]), es[1..], c);
    }
  }

  /** Main result, in every run of the system: after a render of the cut has landed, no publish of it can be
      requested before somebody approves it or it fails. */
  lemma RenderedNeedsApproval(s: Sys, i: nat, c: nat, t: Sys, es: seq<Event>, newJob: nat)
    requires RendersTo(s, i, c, t) && Possible(t, es) && NeverApprovesNorFails(t, es, c)
    ensures !Enabled(After(t, es), TriggerPublish(c, newJob))
  {
    FinishWrites(s, FinishRender(i), c);
    UnapprovedUntil(t, es, c);
    UnapprovedIsRefused(After(t, es), c, newJob);
  }

  /** A render of the cut lands and the system is `t` afterwards. */
  ghost predicate RendersTo(s: Sys, i: nat, c: nat, t: Sys) {
    c in s.db.cuts && Enabled(s, FinishRender(i)) && LandsOn(s, FinishRender(i), c) && t == Next(s, FinishRender(i))
  }

  lemma UnapprovedIsRefused(s: Sys, c: nat, newJob: nat)
    requires c in s.db.cuts && Unapproved(s.db.cuts[c].status)
    ensures !Enabled(s, TriggerPublish(c, newJob))
  {
  }

  // ---------- Whole runs without a failure of the cut ----------

  ghost predicate NeverFails(s: Sys, es: seq<Event>, c: nat)
    requires Possible(s, es)
    decreases |es|
  {
    && (c in s.db.cuts ==> s.db.cuts[c].status != CutFailed)
    && (es == [] || NeverFails(Next(s, es[0]), es[1..], c))
  }

  /** No render of the cut lands. */
  ghost predicate NoRenderLands(s: Sys, es: seq<Event>, c: nat)
    requires Possible(s, es)
    decreases |es|
  {
    es == [] || (!(es[0].FinishRender? && LandsOn(s, es[0], c)) && NoRenderLands(Next(s, es[0]), es[1..], c))
  }

  /** Somebody approved the cut, and no render of it has landed since. */
  ghost predicate ApprovedSinceRender(s: Sys, es: seq<Event>, c: nat)
    requires Possible(s, es)
    decreases |es|
  {
    && es != []
    && (|| (es[0] == Approve(c) && NoRenderLands(Next(s, es[0]), es[1..], c))
        || ApprovedSinceRender(Next(s, es[0]), es[1..], c))
  }

  /** The cut's approval covers its video, or it is not approved; and it has publish Jobs only when it is on
      its way out. */
  ghost predicate Covered(s: Sys, c: nat, approved: bool) {
    && Inv(WatchCut(c), s)
    && (c in s.db.cuts && s.db.cuts[c].status in {CutApproved, CutScheduled, CutPublishing, CutPublished} ==> approved)
    && (forall j | OnCut(s.db, j, c) && s.db.jobs[j].kind == Publish ::
          c in s.db.cuts && s.db.cuts[c].status in {CutPublishing, CutPublished})
  }

  function ApprovedAfter(e: Event, lands: bool, c: nat, approved: bool): bool {
    e == Approve(c) || (approved && !lands)
  }

  ghost predicate RenderLands(s: Sys, e: Event, c: nat)
    requires Enabled(s, e)
  {
    e.FinishRender? && LandsOn(s, e, c)
  }

  lemma CoveredStep(s: Sys, e: Event, c: nat, approved: bool)
    requires Covered(s, c, approved) && Enabled(s, e)
    requires c in s.db.cuts ==> s.db.cuts[c].status != CutFailed
    requires c in DbAfter(s, e).cuts ==> DbAfter(s, e).cuts[c].status != CutFailed
    ensures Covered(Next(s, e), c, ApprovedAfter(e, RenderLands(s, e, c), c, approved))
  {
    NoSweepOfIt(s, e, c);
    Step(WatchCut(c), s, e);
    if
      && c in DbAfter(s, e).cuts
      && DbAfter(s, e).cuts[c].status in {CutApproved, CutScheduled, CutPublishing, CutPublished}
    {
      CoverStays(s, e, c, approved);
    }
    forall j | OnCut(DbAfter(s, e), j, c) && DbAfter(s, e).jobs[j].kind == Publish
      ensures c in DbAfter(s, e).cuts && DbAfter(s, e).cuts[c].status in {CutPublishing, CutPublished}
    {
      PublishJobOfIt(s, e, c, j);
      if OnCut(s.db, j, c) && s.db.jobs[j].kind == Publish { CutMovesOnly(s, e, c); }
    }
  }

  lemma CoverStays(s: Sys, e: Event, c: nat, approved: bool)
    requires Covered(s, c, approved) && Enabled(s, e) && c in DbAfter(s, e).cuts
    requires c in s.db.cuts ==> s.db.cuts[c].status != CutFailed
    requires DbAfter(s, e).cuts[c].status in {CutApproved, CutScheduled, CutPublishing, CutPublished}
    ensures ApprovedAfter(e, RenderLands(s, e, c), c, approved)
  {
    if c in s.db.cuts {
      CutMovesOnly(s, e, c);
      if RenderLands(s, e, c) { FinishWrites(s, e, c); }
    } else {
      NewCutIsDraft(s, e, c);
    }
  }

  lemma NoSweepOfIt(s: Sys, e: Event, c: nat)
    requires Inv(WatchCut(c), s) && Enabled(s, e)
    requires c in DbAfter(s, e).cuts ==> DbAfter(s, e).cuts[c].status != CutFailed
    ensures !HarmfulSweep(WatchCut(c), s, e)
  {
  }

  lemma NewCutIsDraft(s: Sys, e: Event, c: nat)
    requires Enabled(s, e) && c !in s.db.cuts && c in DbAfter(s, e).cuts
    ensures DbAfter(s, e).cuts[c].status == CutDraft
  {
    if IsFailure(e) { FailureCutKeys(s, e); }
  }

  /** A publish Job of the cut was there before, or the event put the cut into publishing with it. */
  lemma PublishJobOfIt(s: Sys, e: Event, c: nat, j: nat)
    requires Enabled(s, e) && OnCut(DbAfter(s, e), j, c) && DbAfter(s, e).jobs[j].kind == Publish
    ensures (OnCut(s.db, j, c) && s.db.jobs[j].kind == Publish)
            || (c in DbAfter(s, e).cuts && DbAfter(s, e).cuts[c].status == CutPublishing)
  {
    if j in s.db.jobs { RowsMoveOneWay(s, e, j); } else { NewPublishJob(s, e, c, j); }
  }

  lemma NewPublishJob(s: Sys, e: Event, c: nat, j: nat)
    requires Enabled(s, e) && j !in s.db.jobs && OnCut(DbAfter(s, e), j, c) && DbAfter(s, e).jobs[j].kind == Publish
    ensures c in DbAfter(s, e).cuts && DbAfter(s, e).cuts[c].status == CutPublishing
  {
    if IsFailure(e) {
      FailuresAddNoJobs(s, e);
    } else if Actor(e).Some? {
      RunsAddNoPublish(s, e, j);
    }
  }

  lemma FailuresAddNoJobs(s: Sys, e: Event)
    requires Enabled(s, e) && IsFailure(e)
    ensures DbAfter(s, e).jobs.Keys == s.db.jobs.Keys
  {
    if e.SendFails? { RefusalsAddNoJobs(s, e); } else { ErrorsAddNoJobs(s, e); }
  }

  lemma RefusalsAddNoJobs(s: Sys, e: Event)
    requires Enabled(s, e) && e.SendFails?
    ensures DbAfter(s, e).jobs.Keys == s.db.jobs.Keys
  {
  }

  lemma ErrorsAddNoJobs(s: Sys, e: Event)
    requires Enabled(s, e) && IsFailure(e) && !e.SendFails?
    ensures DbAfter(s, e).jobs.Keys == s.db.jobs.Keys
  {
  }

  lemma RunsAddNoPublish(s: Sys, e: Event, j: nat)
    requires Enabled(s, e) && !IsFailure(e) && Actor(e).Some? && j !in s.db.jobs && j in DbAfter(s, e).jobs
    ensures DbAfter(s, e).jobs[j].kind == Generate
  {
  }

  lemma {:induction false} CoveredRuns(s: Sys, es: seq<Event>, c: nat, approved: bool)
    requires Covered(s, c, approved) && Possible(s, es) && NeverFails(s, es, c)
    ensures Covered(After(s, es), c, ApprovedSinceRender(s, es, c) || (approved && NoRenderLands(s, es, c)))
    decreases |es|
  {
    if es != [] {
      CoveredStep(s, es[0], c, approved);
      CoveredRuns(Next(s, es[0]), es[1..], c, ApprovedAfter(es[0], RenderLands(s, es[0], c), c, approved));
    }
  }

  /** Main result: in a run in which the cut never fails, whenever an upload of it may begin somebody has
      approved it since its last render. */
  lemma UploadsAreApproved(es: seq<Event>, i: nat, c: nat)
    requires Possible(INIT, es) && NeverFails(INIT, es, c)
    requires Enabled(After(INIT, es), Upload(i)) && JobOf(After(INIT, es), i).ownerId == c
    ensures ApprovedSinceRender(INIT, es, c)
  {
    InitInv(WatchCut(c));
    CoveredRuns(INIT, es, c, false);
    assert OnCut(After(INIT, es).db, After(INIT, es).runs[i].job, c);
  }
}
