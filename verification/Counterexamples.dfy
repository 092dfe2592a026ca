/** Four promises that are false of the code as it stands, each with a run of the system that breaks
    it (a fifth is in `TwinBeats`). The modules named at each one prove exactly when the promise does hold. */
module Counterexamples {
  import opened Wrappers
  import opened GuideEdit
  import opened PinFingerprint
  import opened Rows
  import opened Tx
  import opened System
  import opened Traces

  // ---------- The sweep fails a cut under a live render (see Correspondence) ----------

  const CUT_RENDERING := DraftCut(Some(SAMPLE)).(status := CutRendering)

  const RENDERING := Sys(
    Db(READY.db.jobs[12 := Job(Render, 1, Running, 1, 0, 0, false, Some(0), 0)], READY.db.reels,
       map[1 := CUT_RENDERING]),
    READY.runs + [NewRun(12, 0, Working).(claimTok := 1, tok := 1, view := CutView(CUT_RENDERING))], map[], 0)

  lemma RenderingIsReachable()
    ensures Reachable(RENDERING)
  {
    ReadyIsReachable(SAMPLE);
    var s := RenderTriggered(READY, 1, 12);
    assert s.db.cuts == map[1 := CUT_RENDERING];
    s := Started(s, 2, CutView(CUT_RENDERING));
    assert s.runs == RENDERING.runs;
    assert s.db.jobs == RENDERING.db.jobs;
  }

  /** All three beats resolved to nothing (black frames), and the cut snapshot. */
  const SNAPPED := RENDERING.(
    runs := READY.runs + [RENDERING.runs[2].(built := 3, refreshed := Some(CUT_RENDERING), pinsSeen := Some({}))])

  lemma SnappedIsReachable()
    ensures Reachable(SNAPPED)
  {
    RenderingIsReachable();
    var s := PinnedNothing(RENDERING, 2);
    s := PinnedNothing(s, 2);
    s := PinnedNothing(s, 2);
    s := Snapped(s, 2, CUT_RENDERING);
    assert s.db.cuts == RENDERING.db.cuts;
    assert s.runs == SNAPPED.runs;
  }

  const CUT_RENDERED := CUT_RENDERING.(
    status := CutInReview, recorded := Some(Recording(SAMPLE, {})), pinsFp := Some(NoPinsBound),
      guideFp := Some(GuideFp(SAMPLE)))

  const RENDERED := Sys(
    Db(RENDERING.db.jobs[12 := Job(Render, 1, Done, 1, 0, 0, false, Some(0), 0)], READY.db.reels,
       map[1 := CUT_RENDERED]),
    READY.runs + [SNAPPED.runs[2].(phase := Ended)], map[], 0)

  lemma RenderedIsReachable()
    ensures Reachable(RENDERED)
  {
    SnappedIsReachable();
    var s := Rendered(SNAPPED, 2);
    assert PinsFingerprint({}) == NoPinsBound;
    assert s.db.cuts == RENDERED.db.cuts;
    assert s.db.jobs == RENDERED.db.jobs;
    assert s.runs == RENDERED.runs;
  }

  lemma RerenderAfterFifteenMinutes() returns (s: Sys)
    ensures Reachable(s) && s.clock == 901 && s.picked == map[]
    ensures s.db.jobs == RENDERED.db.jobs[13 := NewJob(Render, 1, 901)]
    ensures s.db.cuts == map[1 := CUT_RENDERED.(status := CutRendering)]
  {
    RenderedIsReachable();
    s := Waited(RENDERED, 901);
    s := RenderTriggered(s, 1, 13);
  }

  /** A successful render leaves a done Job; fifteen minutes later the operator renders again; the
      reaper takes the old Job for a lost cleanup and fails the cut under the new render. */
  lemma SweepFailsALiveRender()
    ensures exists s: Sys :: Reachable(s) && 1 in s.db.cuts && s.db.cuts[1].status == CutFailed
                             && 13 in s.db.jobs && s.db.jobs[13].kind == Render && s.db.jobs[13].Owner() == OfCut(1)
                                && s.db.jobs[13].Live()
  {
    var s := RerenderAfterFifteenMinutes();
    s := Swept(s, 12);
    assert s.db.cuts[1].status == CutFailed;
  }

  /** The reaper's orphan pass selects a job and sweeps it at once. */
  lemma Swept(s: Sys, j: nat) returns (t: Sys)
    requires Reachable(s) && OrphanCandidate(s.db, j, s.clock)
    ensures Reachable(t) && t.db == ReapOne(s.db, j, Done, s.clock, s.clock)
  {
    t := Go(s, SelectOrphan(j, s.clock));
    t := Go(t, SweepOrphan(j));
  }

  // ---------- Two live runs with one token (see Fencing) ----------

  /** A worker claims, stalls for five minutes before its token read-back, and is resumed underneath. */
  lemma TwoRunsShareAToken()
    ensures exists s: Sys :: Reachable(s) && |s.runs| == 2 && s.runs[0].job == s.runs[1].job
                             && s.runs[0].Holder() && s.runs[1].Holder() && Lands(s, 0) && Lands(s, 1)
  {
    CreatedIsReachable();
    var s := SentAndClaimed(CREATED, 0);
    s := Waited(s, 301);
    s := Reaped(s, 10);
    assert s.runs[1] == NewRun(10, 0, Sending(FromReaper));
    s := SentAndClaimed(s, 1);
    s := ReadBy(s, 1);
    s := ReadBy(s, 0);
    assert Lands(s, 0) && Lands(s, 1);
  }

  // ---------- A recorded post is overwritten (see Publishing) ----------

  const CUT_PUBLISHING := CUT_RENDERED.(status := CutPublishing)

  const UPLOADING_RUN := NewRun(13, 0, Working).(claimTok := 1, tok := 1, view := CutView(CUT_PUBLISHING),
                                                 gated := true, uploaded := true)

  const UPLOADING := Sys(
    Db(RENDERED.db.jobs[13 := Job(Publish, 1, Running, 1, 0, 0, false, Some(0), 0)], READY.db.reels,
       map[1 := CUT_PUBLISHING]),
    RENDERED.runs + [UPLOADING_RUN], map[], 0)

  lemma ApprovedIsReachable() returns (s: Sys)
    ensures Reachable(s) && s == RENDERED.(db := SetCut(RENDERED.db, 1, CUT_RENDERED.(status := CutApproved)))
  {
    RenderedIsReachable();
    s := Go(RENDERED, Approve(1));
    assert s.runs == RENDERED.runs;
  }

  lemma UploadingIsReachable()
    ensures Reachable(UPLOADING)
  {
    var s := ApprovedIsReachable();
    s := PublishTriggered(s, 1, 13);
    assert s.db.cuts == map[1 := CUT_PUBLISHING];
    s := PublishedUpTo(s, 3);
    assert s == UPLOADING by {
      assert s.db.jobs == UPLOADING.db.jobs;
      assert s.runs == UPLOADING.runs;
    }
  }

  /** A publish of the cut is started, passes the gate and uploads. */
  lemma PublishedUpTo(s: Sys, i: nat) returns (t: Sys)
    requires Reachable(s) && IsRun(s, i) && s.runs[i] == NewRun(s.runs[i].job, 0, Sending(FromRouter))
    requires JobOf(s, i).status == Pending && JobOf(s, i).token == 0 && JobOf(s, i).kind == Publish
    requires JobOf(s, i).ownerId == 1
    requires 1 in s.db.cuts && s.db.cuts[1] == CUT_PUBLISHING
    ensures Reachable(t)
    ensures t == s.(db := Claim(s.db, s.runs[i].job, s.clock),
                    runs := s.runs[i := UPLOADING_RUN.(job := s.runs[i].job)])
  {
    t := Started(s, i, CutView(CUT_PUBLISHING));
    GatePassesUnedited();
    t := Uploaded(t, i);
    assert t.runs == s.runs[i := UPLOADING_RUN.(job := s.runs[i].job)];
  }

  lemma GatePassesUnedited()
    ensures GatePasses(CUT_PUBLISHING, CUT_PUBLISHING.pins)
  {
    assert PinsFingerprint({}) == NoPinsBound;
  }

  /** The first publish stalls mid-upload and is failed by the reaper; the operator publishes again. */
  lemma SecondUpload() returns (s: Sys)
    ensures Reachable(s) && |s.runs| == 5 && s.runs[3] == UPLOADING_RUN
    ensures RunIn(s, 4, Publish) && s.runs[4].uploaded && !s.runs[4].posted && JobOf(s, 4).ownerId == 1
            && s.runs[4].job == 14
    ensures RunIn(s, 3, Publish) && JobOf(s, 3).ownerId == 1 && s.db.cuts[1].postId.None?
  {
    UploadingIsReachable();
    s := Waited(UPLOADING, 301);
    s := ReapedWhileUploading(s);
    s := PublishTriggered(s, 1, 14);
    assert s.db.cuts[1] == CUT_PUBLISHING;
    s := PublishedUpTo(s, 4);
  }

  lemma ReapedWhileUploading(s: Sys) returns (t: Sys)
    requires Reachable(s) && s == UPLOADING.(clock := 301)
    ensures Reachable(t) && t.runs == s.runs && t.db.jobs.Keys == s.db.jobs.Keys && t.db.jobs[13].kind == Publish
            && t.db.jobs[13].ownerId == 1
    ensures t.db.cuts == map[1 := CUT_PUBLISHING.(status := CutFailed)]
  {
    t := Reaped(s, 13);
  }

  /** Both uploads go out, and the stalled run's unfenced commit replaces the recorded post id. */
  lemma PostIsOverwritten()
    ensures exists s: Sys, t: Sys ::
            Reachable(s) && Reachable(t) && (exists e: Event :: Enabled(s, e) && t == Next(s, e))
                                     && 1 in s.db.cuts && 1 in t.db.cuts
                                     && s.db.cuts[1].postId == Some(200) && t.db.cuts[1].postId == Some(100)
  {
    var s := SecondUpload();
    s := PostRecorded(s, 4, 200);
    var e := RecordPost(3, 100);
    var t := Go(s, e);
    assert t.db.cuts[1].postId == Some(100);
    assert Enabled(s, e) && t == Next(s, e);
  }

  // ---------- The gate passes a video built from other assets (see GateSoundness) ----------

  const PIN_OLD := Pin(0, 0, 7)
  const PIN_NEW := Pin(0, 0, 8)

  /** The render is resumed while its first worker is still resolving beat 0. */
  lemma ResumedRender() returns (s: Sys)
    ensures Reachable(s) && |s.runs| == 4 && s.db.cuts == map[1 := CUT_RENDERING] && s.db.jobs.Keys == {10, 11, 12}
    ensures s.db.jobs[12].kind == Render && s.db.jobs[12].ownerId == 1
    ensures s.runs[2] == RENDERING.runs[2].(resolving := true)
    ensures s.runs[3] == NewRun(12, 0, Working).(claimTok := 2, tok := 2, view := CutView(CUT_RENDERING)) && Lands(s, 3)
  {
    RenderingIsReachable();
    s := Resolving(RENDERING, 2);
    s := Waited(s, 301);
    s := Reaped(s, 12);
    assert s.runs[3] == NewRun(12, 0, Sending(FromReaper));
    s := Started(s, 3, CutView(CUT_RENDERING));
  }

  const CUT_REPINNED := CUT_RENDERING.(pins := {PIN_NEW}, resolvedFrom := map[PIN_NEW := SAMPLE.beats[0].direction])

  lemma PinnedByBoth() returns (s: Sys)
    ensures Reachable(s) && |s.runs| == 4 && s.db.cuts == map[1 := CUT_REPINNED]
    ensures Renders(s, 3) && Lands(s, 3) && JobOf(s, 3).ownerId == 1
    ensures s.runs[3].view == CutView(CUT_RENDERING) && s.runs[3].built == 3 && s.runs[3].builtPins == {PIN_OLD}
    ensures s.runs[3].refreshed.None? && s.runs[3].pinsSeen.None?
  {
    s := ResumedRender();
    s := FirstPinned(s);
    s := PinnedOver(s);
    s := PinnedRest(s);
  }

  const CUT_PINNED := CUT_RENDERING.(pins := {PIN_OLD}, resolvedFrom := map[PIN_OLD := SAMPLE.beats[0].direction])

  /** The second worker resolves beat 0 and pins what it found. */
  lemma FirstPinned(s: Sys) returns (t: Sys)
    requires Reachable(s) && |s.runs| == 4 && s.db.cuts == map[1 := CUT_RENDERING] && s.db.jobs.Keys == {10, 11, 12}
    requires s.db.jobs[12].kind == Render && s.db.jobs[12].ownerId == 1
    requires s.runs[2] == RENDERING.runs[2].(resolving := true)
    requires s.runs[3] == NewRun(12, 0, Working).(claimTok := 2, tok := 2, view := CutView(CUT_RENDERING))
    requires Lands(s, 3)
    ensures Reachable(t) && t.db.jobs == s.db.jobs && t.db.cuts == map[1 := CUT_PINNED]
    ensures t.runs == s.runs[3 := BeatDone(s.runs[3], {PIN_OLD})]
  {
    t := Pinned(s, 3, {PIN_OLD});
    assert t.db.cuts[1].pins == {PIN_OLD};
    assert t.db.cuts[1].resolvedFrom == CUT_PINNED.resolvedFrom;
  }

  /** The first worker, which found nothing to reuse before, pins what it found over it. */
  lemma PinnedOver(s: Sys) returns (t: Sys)
    requires Reachable(s) && |s.runs| == 4 && s.db.cuts == map[1 := CUT_PINNED] && s.db.jobs.Keys == {10, 11, 12}
    requires s.db.jobs[12].kind == Render && s.db.jobs[12].ownerId == 1
    requires s.runs[2] == RENDERING.runs[2].(resolving := true)
    ensures Reachable(t) && |t.runs| == 4 && t.db.jobs == s.db.jobs && t.db.cuts == map[1 := CUT_REPINNED]
    ensures t.runs[3] == s.runs[3]
  {
    t := Repinned(s, 2, {PIN_NEW});
    assert t.db.cuts[1].pins == {PIN_NEW};
    assert t.db.cuts[1].resolvedFrom == CUT_REPINNED.resolvedFrom;
  }

  lemma PinnedRest(s: Sys) returns (t: Sys)
    requires Reachable(s) && |s.runs| == 4 && Renders(s, 3) && Lands(s, 3) && JobOf(s, 3).ownerId == 1
    requires s.db.cuts == map[1 := CUT_REPINNED]
    requires s.runs[3].view == CutView(CUT_RENDERING) && s.runs[3].built == 1 && s.runs[3].builtPins == {PIN_OLD}
    requires !s.runs[3].resolving && s.runs[3].refreshed.None? && s.runs[3].pinsSeen.None?
    ensures Reachable(t) && |t.runs| == 4 && Renders(t, 3) && Lands(t, 3) && JobOf(t, 3).ownerId == 1
    ensures t.db.cuts == map[1 := CUT_REPINNED]
    ensures t.runs[3].view == CutView(CUT_RENDERING) && t.runs[3].built == 3 && t.runs[3].builtPins == {PIN_OLD}
    ensures t.runs[3].refreshed.None? && t.runs[3].pinsSeen.None?
  {
    t := PinnedNothing(s, 3);
    t := PinnedNothing(t, 3);
  }

  /** A beat without pins finds nothing, and the ledger stays as it was. */
  lemma PinnedNothing(s: Sys, i: nat) returns (t: Sys)
    requires Reachable(s) && MustResolve(s, i)
    requires PinsOfBeat(s.db.cuts[JobOf(s, i).ownerId].pins, NextBeat(s.runs[i])) == {}
    ensures Reachable(t) && t == s.(runs := s.runs[i := s.runs[i].(built := s.runs[i].built + 1)])
  {
    var c, r := JobOf(s, i).ownerId, s.runs[i];
    t := Pinned(s, i, {});
    assert Repin(s.db.cuts[c].pins, NextBeat(r), {}) == s.db.cuts[c].pins;
    assert RepinCut(s.db.cuts[c], NextBeat(r), NextDirection(r), {}) == s.db.cuts[c];
    assert t.db.cuts == s.db.cuts;
    assert BeatDone(r, {}) == r.(built := r.built + 1);
  }

  /** A superseded render re-pins a beat between its successor's build and snapshot: the recorded
      fingerprint is that of the current pins, and the video was built from others. */
  lemma SupersededRepinDefeatsTheGate()
    ensures exists s: Sys :: Reachable(s) && 1 in s.db.cuts
                             && s.db.cuts[1].recorded.Some?
                                && s.db.cuts[1].pinsFp == Some(PinsFingerprint(s.db.cuts[1].pins))
                             && s.db.cuts[1].recorded.value.pins != s.db.cuts[1].pins
  {
    var s := PinnedByBoth();
    s := Snapped(s, 3, CUT_REPINNED);
    s := Rendered(s, 3);
    assert PIN_OLD != PIN_NEW && PIN_OLD in s.db.cuts[1].recorded.value.pins && PIN_OLD !in s.db.cuts[1].pins;
  }
}
