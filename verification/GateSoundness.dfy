/** The staleness gate, over whole runs of edit, render, failed render and retried publish.

    Everything is about one cut, and so are the premises: the timing premise of `TimedExclusion` for the
    Jobs of this cut (so no superseded render is still re-pinning it) and no harmful sweep of it. Whatever
    goes wrong elsewhere in the system does not matter. `Counterexamples.SupersededRepinDefeatsTheGate`
    shows that the first is needed. The claim is about the rows: a stalled render overwriting the video
    file itself is outside the model. */
module GateSoundness {
  import opened Wrappers
  import opened GuideEdit
  import opened PinFingerprint
  import opened Rows
  import opened Tx
  import opened System
  import opened Steps
  import opened Correspondence
  import opened Fencing
  import opened TimedExclusion

  /** The fingerprint columns tell the truth about the recorded video (about its pins, when beats of its
      guide that share an index share their direction), and pins belong to the guide. */
  ghost predicate CutOk(cut: Cut) {
    && (cut.guideFp.Some? ==> cut.recorded.Some? && cut.guideFp.value == GuideFp(cut.recorded.value.guide))
    && (cut.pinsFp.Some? ==> cut.recorded.Some?)
    && (cut.pinsFp.Some? && OneDirectionPerIndex(cut.recorded.value.guide) ==>
          cut.pinsFp.value == PinsFingerprint(cut.recorded.value.pins))
    && (cut.guide.Some? ==> forall p | p in cut.pins :: p.beat in BeatIndices(cut.guide.value))
  }

  /** What the render has built is what is pinned for the beats it has done; those pins are current, and
      while it resolves a beat that beat has no pins to reuse. */
  ghost predicate BuildIsPinned(r: Run, cut: Cut, g: Guide)
    requires r.built <= |g.beats|
  {
    && r.builtPins == (set p | p in cut.pins && p.beat in FirstIndices(g, r.built))
    && (forall k | 0 <= k < r.built :: UpToDate(cut, g.beats[k].index, g.beats[k].direction))
    && (r.resolving ==> r.built < |g.beats| && !Reuses(cut, g.beats[r.built].index, g.beats[r.built].direction))
  }

  /** A render in progress works from the cut's present guide, and what it has built is what is pinned. */
  ghost predicate RenderOk(r: Run, cut: Cut) {
    && r.view.CutView? && r.view.cut.guide.Some? && r.view.cut.guide == cut.guide
    && r.built <= |cut.guide.value.beats|
    && (OneDirectionPerIndex(cut.guide.value) ==> BuildIsPinned(r, cut, cut.guide.value))
    && (r.refreshed.Some? ==> r.refreshed.value.guide == cut.guide && r.built == |cut.guide.value.beats|)
    && (r.pinsSeen.Some? ==> r.refreshed.Some? && r.pinsSeen.value == cut.pins)
  }

  /** A publish in progress has loaded the cut as it still is. */
  ghost predicate PublishOk(r: Run, cut: Cut) {
    && r.view.CutView? && r.view.cut.guide == cut.guide && r.view.cut.recorded == cut.recorded
    && r.view.cut.guideFp == cut.guideFp && r.view.cut.pinsFp == cut.pinsFp
    && (r.view.cut.postId.None? && !r.posted ==> cut.postId.None?)
    && (r.uploaded ==> r.gated)
    && (r.gated ==> r.view.cut.postId.None? && GatePasses(cut, cut.pins))
  }

  ghost predicate RunMatchesCut(s: Sys, r: Run) {
    r.phase.Working? && r.job in s.db.jobs ==>
      var job := s.db.jobs[r.job];
      && (job.kind == Render ==> job.ownerId in s.db.cuts && RenderOk(r, s.db.cuts[job.ownerId]))
      && (job.kind == Publish ==> job.ownerId in s.db.cuts && PublishOk(r, s.db.cuts[job.ownerId]))
  }

  /** A run that has not loaded its owner has done nothing yet. */
  predicate Blank(r: Run) {
    !r.phase.Working? && !r.phase.Ended? ==>
      && !r.gated && !r.uploaded && !r.posted
      && r.builtPins == {} && r.built == 0 && !r.resolving && r.refreshed.None? && r.pinsSeen.None?
  }

  /** A Job that works on this cut. */
  predicate OnCut(db: Db, j: nat, c: nat) {
    j in db.jobs && db.jobs[j].Owner() == OfCut(c)
  }

  ghost predicate CutTimed(s: Sys, c: nat) {
    TokenInv(s) && forall j | OnCut(s.db, j, c) :: TimedInv(s, j)
  }

  /** The timing premise, for the Jobs of this cut. */
  ghost predicate CutTimely(s: Sys, c: nat) {
    forall j | OnCut(s.db, j, c) :: Timely(s, j)
  }

  ghost predicate GateInv(s: Sys, c: nat) {
    && Inv(WatchCut(c), s) && CutTimed(s, c)
    && (c in s.db.cuts ==> CutOk(s.db.cuts[c]))
    && (forall i | 0 <= i < |s.runs| ::
        (OnCut(s.db, s.runs[i].job, c) ==> RunMatchesCut(s, s.runs[i])) && Blank(s.runs[i]))
  }

  // ---------- A live run is alone on its cut ----------

  lemma SoleRun(s: Sys, c: nat, i: nat, k: nat)
    requires Inv(WatchCut(c), s) && CutTimed(s, c) && i < |s.runs| && k < |s.runs| && s.runs[i].Active()
    requires s.runs[k].Active()
    requires OnCut(s.db, s.runs[i].job, c) && OnCut(s.db, s.runs[k].job, c)
    ensures i == k
  {
    assert TimedInv(s, s.runs[i].job) && TimedInv(s, s.runs[k].job);
    assert HoldsJob(s, s.runs[i]) && HoldsJob(s, s.runs[k]);
    OneRunPerJob(s, i, k);
  }

  /** While a run is alive its cut is in the state of its kind. */
  lemma LiveRunsCut(s: Sys, c: nat, i: nat)
    requires Inv(WatchCut(c), s) && CutTimed(s, c) && i < |s.runs| && s.runs[i].Active()
    requires OnCut(s.db, s.runs[i].job, c)
    ensures JobOf(s, i).status == Running && Flight(s.db, OfCut(c)) == Some(JobOf(s, i).kind) && c in s.db.cuts
  {
    assert TimedInv(s, s.runs[i].job);
    assert HoldsJob(s, s.runs[i]);
  }

  /** What the gate looks at did not change. */
  predicate SameContent(a: Cut, b: Cut) {
    && a.guide == b.guide && a.pins == b.pins && a.resolvedFrom == b.resolvedFrom && a.recorded == b.recorded
    && a.guideFp == b.guideFp && a.pinsFp == b.pinsFp && a.postId == b.postId
  }

  lemma FailKeepsContent(db: Db, j: nat, from: JobStatus, fence: Option<nat>, now: nat, c: nat)
    requires c in db.cuts
    ensures c in Fail(db, j, from, fence, now).cuts && SameContent(db.cuts[c], Fail(db, j, from, fence, now).cuts[c])
  {
  }

  predicate IsFailure(e: Event) {
    e.SendFails? || e.PreclaimError? || e.ReadBackError? || e.BodyFails? || e.Shutdown? || e.Reap? || e.SweepOrphan?
  }

  /** Failures, the reaper and the sweep write nothing of a cut but its status. */
  lemma FailuresKeepContent(s: Sys, e: Event, c: nat)
    requires Enabled(s, e) && c in s.db.cuts && IsFailure(e)
    ensures c in DbAfter(s, e).cuts && SameContent(s.db.cuts[c], DbAfter(s, e).cuts[c])
  {
    if e.Reap? {
      FailKeepsContent(s.db, e.job, s.db.jobs[e.job].status, None, s.clock, c);
    } else if e.SweepOrphan? {
      FailKeepsContent(s.db, e.job, Done, None, s.clock, c);
    } else if e.SendFails? {
      RefusedSendKeepsContent(s, e, c);
    } else if e.PreclaimError? || e.ReadBackError? {
      FailKeepsContent(s.db, s.runs[e.i].job, Pending, None, s.clock, c);
      FailKeepsContent(Claim(s.db, s.runs[e.i].job, s.clock), s.runs[e.i].job, Pending, None, s.clock, c);
    } else {
      FailKeepsContent(s.db, s.runs[e.i].job, Running, Some(s.runs[e.i].tok), s.clock, c);
    }
  }

  lemma RefusedSendKeepsContent(s: Sys, e: Event, c: nat)
    requires Enabled(s, e) && c in s.db.cuts && e.SendFails?
    ensures c in DbAfter(s, e).cuts && SameContent(s.db.cuts[c], DbAfter(s, e).cuts[c])
  {
    match s.runs[e.i].phase.origin
    case FromRouter => FailKeepsContent(s.db, s.runs[e.i].job, Pending, None, s.clock, c);
    case FromReaper =>
    case FromRetry(fence) => FailKeepsContent(s.db, s.runs[e.i].job, Pending, fence, s.clock, c);
    case FromEnrich(_) =>
  }

  /** The guide is frozen, and so are pins, video and fingerprints, while somebody else's run is alive
      on the cut. */
  lemma CutIsFrozen(s: Sys, c: nat, e: Event, i: nat)
    requires GateInv(s, c) && Enabled(s, e) && i < |s.runs| && s.runs[i].Active() && Actor(e) != Some(i)
    requires OnCut(s.db, s.runs[i].job, c)
    ensures c in s.db.cuts && c in DbAfter(s, e).cuts && SameContent(s.db.cuts[c], DbAfter(s, e).cuts[c])
  {
    LiveRunsCut(s, c, i);
    if IsFailure(e) {
      FailuresKeepContent(s, e, c);
    } else if e.FinishGenerate? {
      assert TellsStory(WatchCut(c), s.db, JobOf(s, i));
      GenerateTouchesFreshCuts(WatchCut(c), s, e, c);
    } else {
      if Actor(e).Some? && s.runs[Actor(e).value].Active() && JobOf(s, Actor(e).value).Owner() == OfCut(c) {
        SoleRun(s, c, i, Actor(e).value);
      }
      OtherEventsLeaveCut(s, e, c);
    }
  }

  /** A guide is only ever persisted onto cuts that have none: whatever the timing, a run that lands its
      done-stamp leaves a generating reel, and the cuts of one have no guide. */
  lemma GenerateTouchesFreshCuts(w: Watch, s: Sys, e: Event, c: nat)
    requires Inv(w, s) && Enabled(s, e) && e.FinishGenerate? && c in s.db.cuts
    ensures c in DbAfter(s, e).cuts
    ensures s.db.cuts[c].guide.Some? ==> DbAfter(s, e).cuts[c] == s.db.cuts[c]
    ensures DbAfter(s, e).cuts[c] == s.db.cuts[c]
            || DbAfter(s, e).cuts[c] == s.db.cuts[c].(guide := DbAfter(s, e).cuts[c].guide)
    ensures DbAfter(s, e).cuts[c] != s.db.cuts[c] ==> s.db.cuts[c].pins == {}
  {
    assert FreshCut(s.db, s.db.cuts[c]);
    if Lands(s, e.i) {
      assert Flight(s.db, JobOf(s, e.i).Owner()) == Some(Generate);
    }
  }

  lemma OtherEventsLeaveCut(s: Sys, e: Event, c: nat)
    requires Enabled(s, e) && c in s.db.cuts && s.db.cuts[c].status != CutInReview
    requires Actor(e).Some? && s.runs[Actor(e).value].Active() ==> JobOf(s, Actor(e).value).Owner() != OfCut(c)
    requires !IsFailure(e) && !e.FinishGenerate?
    ensures c in DbAfter(s, e).cuts && SameContent(s.db.cuts[c], DbAfter(s, e).cuts[c])
  {
    if InBody(e) { BodiesLeaveCut(s, e, c); } else { RequestsLeaveCut(s, e, c); }
  }

  lemma BodiesLeaveCut(s: Sys, e: Event, c: nat)
    requires Enabled(s, e) && c in s.db.cuts && InBody(e) && JobOf(s, Actor(e).value).Owner() != OfCut(c)
    ensures c in DbAfter(s, e).cuts && SameContent(s.db.cuts[c], DbAfter(s, e).cuts[c])
  {
    if !e.PinBeat? && !e.RecordPost? { ReadsLeaveCuts(s, e); }
  }

  lemma ReadsLeaveCuts(s: Sys, e: Event)
    requires Enabled(s, e) && InBody(e) && !e.PinBeat? && !e.RecordPost?
    ensures DbAfter(s, e).cuts == s.db.cuts
  {
  }

  lemma RequestsLeaveCut(s: Sys, e: Event, c: nat)
    requires Enabled(s, e) && c in s.db.cuts && s.db.cuts[c].status != CutInReview
    requires Actor(e).Some? && s.runs[Actor(e).value].Active() ==> JobOf(s, Actor(e).value).Owner() != OfCut(c)
    requires !IsFailure(e) && !e.FinishGenerate? && !InBody(e)
    ensures c in DbAfter(s, e).cuts && SameContent(s.db.cuts[c], DbAfter(s, e).cuts[c])
  {
  }

  // ---------- Cuts stay truthful ----------

  lemma SameBeatsSameIndices(g: Guide, h: Guide)
    requires SameBeats(g, h)
    ensures BeatIndices(g) == BeatIndices(h)
  {
    forall x | x in BeatIndices(g)
      ensures x in BeatIndices(h)
    {
      var k :| 0 <= k < |g.beats| && g.beats[k].index == x;
      assert h.beats[k] in h.beats;
    }
    forall x | x in BeatIndices(h)
      ensures x in BeatIndices(g)
    {
      var k :| 0 <= k < |h.beats| && h.beats[k].index == x;
      assert g.beats[k] in g.beats;
    }
  }

  lemma AllIndicesAreFirst(g: Guide)
    ensures FirstIndices(g, |g.beats|) == BeatIndices(g)
  {
    forall x | x in BeatIndices(g)
      ensures x in FirstIndices(g, |g.beats|)
    {
      var k :| 0 <= k < |g.beats| && g.beats[k].index == x;
    }
  }

  /** A finished render records exactly what it built from. */
  lemma FinishedRenderIsTruthful(s: Sys, c: nat, e: Event)
    requires GateInv(s, c) && Enabled(s, e) && e.FinishRender? && Lands(s, e.i) && OnCut(s.db, s.runs[e.i].job, c)
    ensures
      var r, cut := s.runs[e.i], CutOf(s, e.i);
      && cut.guide.Some? && (OneDirectionPerIndex(cut.guide.value) ==> r.builtPins == cut.pins)
         && r.pinsSeen == Some(cut.pins)
      && r.view.cut.guide == cut.guide && r.refreshed.value.guide == cut.guide
  {
    var r, cut := s.runs[e.i], CutOf(s, e.i);
    assert RunMatchesCut(s, r) && CutOk(cut);
    AllIndicesAreFirst(cut.guide.value);
  }

  lemma CutStaysOk(s: Sys, c: nat, e: Event)
    requires GateInv(s, c) && Enabled(s, e) && c in s.db.cuts && c in DbAfter(s, e).cuts
    ensures CutOk(DbAfter(s, e).cuts[c])
  {
    assert CutOk(s.db.cuts[c]);
    if e.FinishRender? {
      if Lands(s, e.i) && OnCut(s.db, s.runs[e.i].job, c) { FinishedRenderIsTruthful(s, c, e); }
    } else if e.EditGuide? || e.PinBeat? {
      EditsKeepCutOk(s, c, e);
    } else if e.FinishGenerate? {
      GenerateTouchesFreshCuts(WatchCut(c), s, e, c);
    } else if IsFailure(e) {
      FailuresKeepContent(s, e, c);
    } else {
      OnlyStatusMoves(s, e, c);
    }
  }

  lemma EditsKeepCutOk(s: Sys, c: nat, e: Event)
    requires GateInv(s, c) && Enabled(s, e) && (e.EditGuide? || e.PinBeat?) && c in s.db.cuts && c in DbAfter(s, e).cuts
    ensures CutOk(DbAfter(s, e).cuts[c])
  {
    if e.EditGuide? {
      SameBeatsSameIndices(s.db.cuts[e.cut].guide.value, e.edited);
    } else {
      RepinKeepsCutOk(s, c, e.i, e.pins);
    }
  }

  lemma RepinKeepsCutOk(s: Sys, c: nat, i: nat, pins: set<Pin>)
    requires GateInv(s, c) && Enabled(s, PinBeat(i, pins)) && c in s.db.cuts
    ensures c in DbAfter(s, PinBeat(i, pins)).cuts && CutOk(DbAfter(s, PinBeat(i, pins)).cuts[c])
  {
    if JobOf(s, i).ownerId == c {
      assert RenderOk(s.runs[i], CutOf(s, i)) by {
        assert OnCut(s.db, s.runs[i].job, c);
        assert RunMatchesCut(s, s.runs[i]);
      }
      RepinnedCutOk(s.runs[i], CutOf(s, i), pins);
    }
  }

  lemma RepinnedCutOk(r: Run, cut: Cut, pins: set<Pin>)
    requires CutOk(cut) && RenderOk(r, cut) && HasNextBeat(r) && BeatPins(pins, NextBeat(r))
    ensures CutOk(RepinCut(cut, NextBeat(r), NextDirection(r), pins))
  {
    assert cut.guide.value.beats[r.built] in cut.guide.value.beats;
  }

  lemma OnlyStatusMoves(s: Sys, e: Event, c: nat)
    requires Enabled(s, e) && c in s.db.cuts && c in DbAfter(s, e).cuts
    requires !e.FinishRender? && !e.EditGuide? && !e.PinBeat? && !e.FinishGenerate? && !IsFailure(e)
    ensures var a, b := s.db.cuts[c], DbAfter(s, e).cuts[c];
            a.guide == b.guide && a.pins == b.pins && a.recorded == b.recorded && a.guideFp == b.guideFp
              && a.pinsFp == b.pinsFp
  {
  }

  // ---------- Runs stay matched to their cut ----------

  lemma MatchCarriesOver(s: Sys, t: Sys, r: Run)
    requires RunMatchesCut(s, r) && r.job in s.db.jobs && r.job in t.db.jobs
    requires t.db.jobs[r.job].kind == s.db.jobs[r.job].kind && t.db.jobs[r.job].ownerId == s.db.jobs[r.job].ownerId
    requires r.phase.Working? && s.db.jobs[r.job].Owner().OfCut? ==>
               var c := s.db.jobs[r.job].ownerId;
               c in s.db.cuts && c in t.db.cuts && SameContent(s.db.cuts[c], t.db.cuts[c])
    ensures RunMatchesCut(t, r)
  {
  }

  lemma BystanderMatches(s: Sys, c: nat, e: Event, i: nat)
    requires GateInv(s, c) && Enabled(s, e) && i < |s.runs| && Actor(e) != Some(i) && OnCut(s.db, s.runs[i].job, c)
    ensures RunMatchesCut(Next(s, e), s.runs[i])
  {
    var r := s.runs[i];
    RowsMoveOneWay(s, e, r.job);
    if r.phase.Working? {
      assert RunMatchesCut(s, r);
      CutIsFrozen(s, c, e, i);
      MatchCarriesOver(s, Next(s, e), r);
    }
  }

  /** A run's own events keep it matched. */
  lemma ActorMatches(s: Sys, c: nat, e: Event, i: nat)
    requires GateInv(s, c) && Enabled(s, e) && Actor(e) == Some(i) && OnCut(s.db, s.runs[i].job, c)
    ensures RunMatchesCut(Next(s, e), RunAfter(s, i, e))
  {
    if RunAfter(s, i, e).phase.Working? {
      if e.Load? {
        assert Blank(s.runs[i]);
        LoadMatches(s, e);
      } else if e.ReadPins? || e.PinBeat? || e.RefreshCut? || e.SnapPins? {
        RenderMatches(s, c, e, i);
      } else if e.RecordPost? || e.PassGate? || e.Upload? {
        PublishMatches(s, c, e);
      } else {
        OtherMatches(s, c, e, i);
      }
    }
  }

  lemma LoadMatches(s: Sys, e: Event)
    requires Enabled(s, e) && e.Load? && Blank(s.runs[e.i])
    ensures RunMatchesCut(Next(s, e), RunAfter(s, e.i, e))
  {
  }

  lemma RenderMatches(s: Sys, c: nat, e: Event, i: nat)
    requires GateInv(s, c) && Enabled(s, e) && Actor(e) == Some(i) && OnCut(s.db, s.runs[i].job, c)
    requires e.ReadPins? || e.PinBeat? || e.RefreshCut? || e.SnapPins?
    ensures RunMatchesCut(Next(s, e), RunAfter(s, i, e))
  {
    assert RenderOk(s.runs[i], CutOf(s, i)) by { assert RunMatchesCut(s, s.runs[i]); }
    if e.PinBeat? {
      PinBeatMatches(s, i, e.pins);
    } else if e.ReadPins? {
      ReadPinsMatches(s, i);
    } else {
      ReadingMatches(s, e);
    }
  }

  lemma PinBeatMatches(s: Sys, i: nat, pins: set<Pin>)
    requires Enabled(s, PinBeat(i, pins)) && RenderOk(s.runs[i], CutOf(s, i))
    ensures RunMatchesCut(Next(s, PinBeat(i, pins)), RunAfter(s, i, PinBeat(i, pins)))
  {
    PinningMatches(s.runs[i], CutOf(s, i), pins);
  }

  lemma ReadingMatches(s: Sys, e: Event)
    requires Enabled(s, e) && (e.RefreshCut? || e.SnapPins?) && RenderOk(s.runs[e.i], CutOf(s, e.i))
    ensures RunMatchesCut(Next(s, e), RunAfter(s, e.i, e))
  {
  }

  lemma ReadPinsMatches(s: Sys, i: nat)
    requires Enabled(s, ReadPins(i)) && RenderOk(s.runs[i], CutOf(s, i))
    ensures RunMatchesCut(Next(s, ReadPins(i)), RunAfter(s, i, ReadPins(i)))
  {
    var r := s.runs[i];
    if Reuses(CutOf(s, i), NextBeat(r), NextDirection(r)) { ReusingMatches(r, CutOf(s, i)); }
  }

  /** A run that has done its next beat with these pins. */
  function WithBeat(r: Run, pins: set<Pin>): Run {
    r.(built := r.built + 1, builtPins := r.builtPins + pins, resolving := false)
  }

  /** Reusing adds what is pinned to what is built. */
  lemma ReusingMatches(r: Run, cut: Cut)
    requires RenderOk(r, cut) && HasNextBeat(r) && r.refreshed.None? && !r.resolving
    requires Reuses(cut, NextBeat(r), NextDirection(r))
    ensures RenderOk(WithBeat(r, PinsOfBeat(cut.pins, NextBeat(r))), cut)
  {
    var g := cut.guide.value;
    assert FirstIndices(g, r.built + 1) == FirstIndices(g, r.built) + {NextBeat(r)};
  }

  /** A re-pin puts what is built into the ledger. If an earlier beat has the same index and so the same
      direction, it found nothing either: its pins would have been reused. */
  lemma PinningMatches(r: Run, cut: Cut, pins: set<Pin>)
    requires RenderOk(r, cut) && HasNextBeat(r) && BeatPins(pins, NextBeat(r)) && r.refreshed.None? && r.resolving
    ensures RenderOk(WithBeat(r, pins), RepinCut(cut, NextBeat(r), NextDirection(r), pins))
  {
    var g := cut.guide.value;
    if OneDirectionPerIndex(g) {
      EarlierTwinIsBare(r, cut);
      RepinnedIsPinned(r, cut, pins);
    }
  }

  lemma EarlierTwinIsBare(r: Run, cut: Cut)
    requires RenderOk(r, cut) && HasNextBeat(r) && r.resolving && OneDirectionPerIndex(cut.guide.value)
    ensures NextBeat(r) in FirstIndices(cut.guide.value, r.built) ==> PinsOfBeat(cut.pins, NextBeat(r)) == {}
  {
    var g := cut.guide.value;
    if NextBeat(r) in FirstIndices(g, r.built) {
      var k :| 0 <= k < r.built && g.beats[k].index == NextBeat(r);
      assert UpToDate(cut, g.beats[k].index, g.beats[k].direction);
    }
  }

  lemma RepinnedIsPinned(r: Run, cut: Cut, pins: set<Pin>)
    requires RenderOk(r, cut) && HasNextBeat(r) && BeatPins(pins, NextBeat(r)) && OneDirectionPerIndex(cut.guide.value)
    requires NextBeat(r) in FirstIndices(cut.guide.value, r.built) ==> PinsOfBeat(cut.pins, NextBeat(r)) == {}
    ensures BuildIsPinned(WithBeat(r, pins), RepinCut(cut, NextBeat(r), NextDirection(r), pins), cut.guide.value)
  {
    var g, beat := cut.guide.value, NextBeat(r);
    var cut' := RepinCut(cut, beat, NextDirection(r), pins);
    assert FirstIndices(g, r.built + 1) == FirstIndices(g, r.built) + {beat};
    assert r.builtPins + pins == (set p | p in cut'.pins && p.beat in FirstIndices(g, r.built + 1));
    forall k | 0 <= k < r.built + 1
      ensures UpToDate(cut', g.beats[k].index, g.beats[k].direction)
    {
      if k < r.built { assert UpToDate(cut, g.beats[k].index, g.beats[k].direction); }
    }
  }

  lemma PublishMatches(s: Sys, c: nat, e: Event)
    requires GateInv(s, c) && Enabled(s, e) && (e.RecordPost? || e.PassGate? || e.Upload?)
             && OnCut(s.db, s.runs[e.i].job, c)
    ensures RunMatchesCut(Next(s, e), RunAfter(s, e.i, e))
  {
    assert RunMatchesCut(s, s.runs[e.i]);
    if e.RecordPost? { RecordingMatches(s, e); } else { PublishingMatches(s, e); }
  }

  lemma RecordingMatches(s: Sys, e: Event)
    requires Enabled(s, e) && e.RecordPost? && PublishOk(s.runs[e.i], CutOf(s, e.i))
    ensures RunMatchesCut(Next(s, e), RunAfter(s, e.i, e))
  {
  }

  lemma PublishingMatches(s: Sys, e: Event)
    requires Enabled(s, e) && (e.PassGate? || e.Upload?) && PublishOk(s.runs[e.i], CutOf(s, e.i))
    ensures RunMatchesCut(Next(s, e), RunAfter(s, e.i, e))
  {
  }

  lemma OtherMatches(s: Sys, c: nat, e: Event, i: nat)
    requires GateInv(s, c) && Enabled(s, e) && Actor(e) == Some(i) && RunAfter(s, i, e).phase.Working?
    requires OnCut(s.db, s.runs[i].job, c)
    requires !e.Load? && !e.ReadPins? && !e.PinBeat? && !e.RefreshCut? && !e.SnapPins? && !e.RecordPost?
    requires !e.PassGate? && !e.Upload?
    ensures RunMatchesCut(Next(s, e), RunAfter(s, i, e))
  {
    assert RunMatchesCut(s, s.runs[i]);
    assert RunAfter(s, i, e) == s.runs[i] && DbAfter(s, e).cuts == s.db.cuts;
    RowsMoveOneWay(s, e, s.runs[i].job);
    MatchCarriesOver(s, Next(s, e), s.runs[i]);
  }

  // ---------- Whole runs ----------

  lemma GateStep(s: Sys, c: nat, e: Event)
    requires GateInv(s, c) && CutTimely(s, c) && Enabled(s, e) && !HarmfulSweep(WatchCut(c), s, e)
    ensures GateInv(Next(s, e), c)
  {
    var t := Next(s, e);
    Step(WatchCut(c), s, e);
    TimedStays(s, c, e);
    if c in t.db.cuts {
      if c in s.db.cuts { CutStaysOk(s, c, e); } else { NewCutsAreEmpty(s, e, c); }
    }
    forall i | 0 <= i < |t.runs|
      ensures (OnCut(t.db, t.runs[i].job, c) ==> RunMatchesCut(t, t.runs[i])) && Blank(t.runs[i])
    {
      RunStaysMatched(s, c, e, i);
    }
  }

  lemma TimedStays(s: Sys, c: nat, e: Event)
    requires CutTimed(s, c) && CutTimely(s, c) && Enabled(s, e)
    ensures CutTimed(Next(s, e), c)
  {
    TokenStep(s, e);
    forall j | OnCut(Next(s, e).db, j, c)
      ensures TimedInv(Next(s, e), j)
    {
      if j in s.db.jobs {
        RowsMoveOneWay(s, e, j);
        assert OnCut(s.db, j, c);
        TimedStep(s, e, j);
      } else {
        NewJobIsTimed(s, e, j);
      }
    }
  }

  /** Nobody works on a Job that has just appeared. */
  lemma NewJobIsTimed(s: Sys, e: Event, j: nat)
    requires TokenInv(s) && Enabled(s, e) && j !in s.db.jobs
    ensures TimedInv(Next(s, e), j)
  {
    var t := Next(s, e);
    TokenStep(s, e);
    forall i | 0 <= i < |t.runs| && t.runs[i].job == j
      ensures HoldsJob(t, t.runs[i])
    {
      if i < |s.runs| {
        assert TokenOk(s, s.runs[i]);
        if Actor(e) == Some(i) { ActingPhase(s, e, i); }
      } else {
        NewRecord(s, e);
      }
    }
  }

  lemma NewCutsAreEmpty(s: Sys, e: Event, c: nat)
    requires Enabled(s, e) && c !in s.db.cuts && c in DbAfter(s, e).cuts
    ensures CutOk(DbAfter(s, e).cuts[c])
  {
    if IsFailure(e) { assert DbAfter(s, e).cuts.Keys == s.db.cuts.Keys by { FailureCutKeys(s, e); } }
  }

  lemma FailureCutKeys(s: Sys, e: Event)
    requires Enabled(s, e) && IsFailure(e)
    ensures DbAfter(s, e).cuts.Keys == s.db.cuts.Keys
  {
  }

  lemma RunStaysMatched(s: Sys, c: nat, e: Event, i: nat)
    requires GateInv(s, c) && Enabled(s, e) && i < |Next(s, e).runs|
    ensures OnCut(Next(s, e).db, Next(s, e).runs[i].job, c) ==> RunMatchesCut(Next(s, e), Next(s, e).runs[i])
    ensures Blank(Next(s, e).runs[i])
  {
    if i >= |s.runs| {
      NewRecord(s, e);
    } else {
      assert RunOk(s, s.runs[i]);
      RowsMoveOneWay(s, e, s.runs[i].job);
      if Actor(e) == Some(i) {
        ActingPhase(s, e, i);
        BlankUntilLoaded(s, e, i);
        if OnCut(s.db, s.runs[i].job, c) { ActorMatches(s, c, e, i); }
      } else if OnCut(s.db, s.runs[i].job, c) {
        BystanderMatches(s, c, e, i);
      }
    }
  }

  lemma BlankUntilLoaded(s: Sys, e: Event, i: nat)
    requires Enabled(s, e) && Actor(e) == Some(i) && Blank(s.runs[i])
    ensures Blank(RunAfter(s, i, e))
  {
  }

  /** At every step: heartbeats in time for the Jobs of this cut, and no harmful sweep of it. */
  ghost predicate Healthy(s: Sys, c: nat, es: seq<Event>)
    requires Possible(s, es)
    decreases |es|
  {
    es == [] || (CutTimely(s, c) && !HarmfulSweep(WatchCut(c), s, es[0]) && Healthy(Next(s, es[0]), c, es[1..]))
  }

  lemma {:induction false} HealthyRunsKeepGateInv(s: Sys, c: nat, es: seq<Event>)
    requires GateInv(s, c) && Possible(s, es) && Healthy(s, c, es)
    ensures GateInv(After(s, es), c)
    decreases |es|
  {
    if es != [] {
      GateStep(s, c, es[0]);
      HealthyRunsKeepGateInv(Next(s, es[0]), c, es[1..]);
    }
  }

  lemma InitGate(c: nat)
    ensures GateInv(INIT, c)
  {
    InitInv(WatchCut(c));
  }

  /** Every recorded fingerprint vouches for its half of the video: what it was built from is what the cut
      holds now. */
  predicate Vouched(cut: Cut) {
    && (cut.guideFp.Some? ==> cut.recorded.Some? && cut.guide == Some(cut.recorded.value.guide))
    && (cut.pinsFp.Some? ==> cut.recorded.Some?)
    && (cut.pinsFp.Some? && OneDirectionPerIndex(cut.recorded.value.guide) ==> cut.pins == cut.recorded.value.pins)
  }

  /** Main result: at the end of any run that was healthy for this cut, if the checks let a publish of it
      through, or it is about to upload, every recorded fingerprint vouches for its half of the video:
      what the video was built from is what the cut holds now. The pins' half needs a guide in which beats
      of one index have one direction (`TwinBeats` says that it needs exactly that). */
  lemma GateIsSound(c: nat, es: seq<Event>, e: Event)
    requires Possible(INIT, es) && Healthy(INIT, c, es) && Enabled(After(INIT, es), e) && (e.PassGate? || e.Upload?)
    requires JobOf(After(INIT, es), e.i).ownerId == c
    ensures Vouched(After(INIT, es).db.cuts[c])
  {
    InitGate(c);
    HealthyRunsKeepGateInv(INIT, c, es);
    GateVouches(After(INIT, es), c, e.i);
  }

  lemma GateVouches(s: Sys, c: nat, i: nat)
    requires GateInv(s, c) && RunIn(s, i, Publish) && JobOf(s, i).ownerId == c
    requires s.runs[i].gated || GatePasses(s.runs[i].view.cut, s.db.cuts[c].pins)
    ensures Vouched(s.db.cuts[c])
  {
    var cut := s.db.cuts[c];
    assert CutOk(cut);
    assert PublishOk(s.runs[i], cut) by { assert RunMatchesCut(s, s.runs[i]); }
    if cut.pinsFp.Some? && OneDirectionPerIndex(cut.recorded.value.guide) {
      EqualFingerprintsEqualPins(cut.recorded.value.pins, cut.pins);
    }
  }

  /** The gate neither lets a stale video through nor stops a faithful one: it passes exactly when every
      fingerprint the last render recorded (none, for a video from before the columns existed) belongs to
      what the cut holds; for the pins, from a guide with one direction per index. */
  lemma GateIsExact(s: Sys, c: nat, i: nat)
    requires GateInv(s, c) && RunIn(s, i, Publish) && JobOf(s, i).ownerId == c
    requires s.db.cuts[c].pinsFp.Some? ==>
               s.db.cuts[c].recorded.Some? && OneDirectionPerIndex(s.db.cuts[c].recorded.value.guide)
    ensures
      var cut := s.db.cuts[c];
      GatePasses(s.runs[i].view.cut, cut.pins)
      <==> (&& (cut.guideFp.Some? ==> cut.recorded.Some? && cut.guide == Some(cut.recorded.value.guide))
            && (cut.pinsFp.Some? ==> cut.pins == cut.recorded.value.pins))
  {
    assert PublishOk(s.runs[i], s.db.cuts[c]) by { assert RunMatchesCut(s, s.runs[i]); }
    PassesIff(s.runs[i].view.cut, s.db.cuts[c]);
  }

  lemma PassesIff(loaded: Cut, cut: Cut)
    requires loaded.guide == cut.guide && loaded.guideFp == cut.guideFp && loaded.pinsFp == cut.pinsFp
    requires CutOk(cut) && (cut.pinsFp.Some? ==> OneDirectionPerIndex(cut.recorded.value.guide))
    ensures GatePasses(loaded, cut.pins)
            <==> (&& (cut.guideFp.Some? ==> cut.recorded.Some? && cut.guide == Some(cut.recorded.value.guide))
                  && (cut.pinsFp.Some? ==> cut.pins == cut.recorded.value.pins))
  {
    if cut.pinsFp.Some? && PinsFingerprint(cut.recorded.value.pins) == PinsFingerprint(cut.pins) {
      EqualFingerprintsEqualPins(cut.recorded.value.pins, cut.pins);
    }
  }

  /** And a recorded post is never replaced: in a run that was healthy for the cut a post id is only
      written where there is none (`Publishing.PostIsReplacedIff` covers the others). */
  lemma PostsAreWrittenOnce(c: nat, es: seq<Event>, e: Event)
    requires Possible(INIT, es) && Healthy(INIT, c, es) && Enabled(After(INIT, es), e) && e.RecordPost?
    requires JobOf(After(INIT, es), e.i).ownerId == c
    ensures After(INIT, es).db.cuts[c].postId.None?
  {
    var s := After(INIT, es);
    InitGate(c);
    HealthyRunsKeepGateInv(INIT, c, es);
    assert PublishOk(s.runs[e.i], s.db.cuts[c]) by { assert RunMatchesCut(s, s.runs[e.i]); }
  }
}
