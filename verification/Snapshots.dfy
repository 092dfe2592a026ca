/** What a render records about its pins, in every run of the system, healthy or not.

    A render does its beats one by one and snapshots the ledger at the end. Until then other runs of the
    same cut (it takes a superseded render) may re-pin beats it has done, and so may a later beat of its own
    that shares an index. The fingerprint it records is the truth about its video exactly when, for every
    index, the last pins put there are the ones it built from. */
module Snapshots {
  import opened Wrappers
  import opened GuideEdit
  import opened PinFingerprint
  import opened Rows
  import opened Tx
  import opened System
  import opened Correspondence
  import opened Fencing
  import opened TimedExclusion
  import opened GateSoundness

  // ---------- Pins belong to the guide ----------

  /** A loaded guide has the beats of the cut's guide. */
  ghost predicate ViewOk(db: Db, r: Run) {
    r.view.CutView? && r.view.cut.guide.Some? && r.job in db.jobs && db.jobs[r.job].Owner().OfCut? ==>
      var c := db.jobs[r.job].ownerId;
      c in db.cuts && db.cuts[c].guide.Some?
        && BeatIndices(db.cuts[c].guide.value) == BeatIndices(r.view.cut.guide.value)
  }

  ghost predicate PinsOk(cut: Cut) {
    cut.guide.Some? ==> forall p | p in cut.pins :: p.beat in BeatIndices(cut.guide.value)
  }

  ghost predicate PinsInGuides(s: Sys) {
    && (forall c | c in s.db.cuts :: PinsOk(s.db.cuts[c]))
    && (forall i | 0 <= i < |s.runs| :: ViewOk(s.db, s.runs[i]))
  }

  /** A guide, once there, keeps its beats. */
  ghost predicate KeepsBeats(cut: Cut, cut': Cut) {
    cut.guide.Some? ==> cut'.guide.Some? && BeatIndices(cut'.guide.value) == BeatIndices(cut.guide.value)
  }

  lemma GuideKeepsBeats(s: Sys, e: Event, c: nat)
    requires Inv(WatchReels, s) && Enabled(s, e) && c in s.db.cuts
    ensures c in DbAfter(s, e).cuts && KeepsBeats(s.db.cuts[c], DbAfter(s, e).cuts[c])
  {
    if IsFailure(e) {
      FailuresKeepContent(s, e, c);
    } else if e.FinishGenerate? {
      GenerateTouchesFreshCuts(WatchReels, s, e, c);
    } else if e.EditGuide? {
      SameBeatsSameIndices(s.db.cuts[e.cut].guide.value, e.edited);
    } else {
      OthersKeepGuide(s, e, c);
    }
  }

  lemma OthersKeepGuide(s: Sys, e: Event, c: nat)
    requires Enabled(s, e) && c in s.db.cuts && !IsFailure(e) && !e.FinishGenerate? && !e.EditGuide?
    ensures c in DbAfter(s, e).cuts && DbAfter(s, e).cuts[c].guide == s.db.cuts[c].guide
  {
  }

  /** The pins of a cut change by `PinBeat` only. */
  predicate PinsCut(s: Sys, e: Event, c: nat) {
    e.PinBeat? && IsRun(s, e.i) && JobOf(s, e.i).ownerId == c
  }

  lemma OnlyPinBeatsWritePins(s: Sys, e: Event, c: nat)
    requires Enabled(s, e) && c in s.db.cuts && !PinsCut(s, e, c)
    ensures c in DbAfter(s, e).cuts && DbAfter(s, e).cuts[c].pins == s.db.cuts[c].pins
  {
    if IsFailure(e) {
      FailuresKeepContent(s, e, c);
    } else if Ending(e) {
      FinishesKeepPins(s, e, c);
    } else {
      OthersKeepPins(s, e, c);
    }
  }

  lemma FinishesKeepPins(s: Sys, e: Event, c: nat)
    requires Enabled(s, e) && c in s.db.cuts
    requires e.Crash? || e.FinishEnrich? || e.FinishGenerate? || e.FinishRender? || e.FinishPublish?
    ensures c in DbAfter(s, e).cuts && DbAfter(s, e).cuts[c].pins == s.db.cuts[c].pins
  {
  }

  lemma OthersKeepPins(s: Sys, e: Event, c: nat)
    requires Enabled(s, e) && c in s.db.cuts && !Ending(e) && !IsFailure(e) && !PinsCut(s, e, c)
    ensures c in DbAfter(s, e).cuts && DbAfter(s, e).cuts[c].pins == s.db.cuts[c].pins
  {
  }

  lemma PinsStayOk(s: Sys, e: Event, c: nat)
    requires Inv(WatchReels, s) && PinsInGuides(s) && Enabled(s, e) && c in s.db.cuts
    ensures c in DbAfter(s, e).cuts && PinsOk(DbAfter(s, e).cuts[c])
  {
    GuideKeepsBeats(s, e, c);
    assert PinsOk(s.db.cuts[c]);
    if PinsCut(s, e, c) {
      RepinStaysOk(s, e.i, e.pins);
    } else {
      OnlyPinBeatsWritePins(s, e, c);
      assert FreshCut(s.db, s.db.cuts[c]);
    }
  }

  lemma RepinStaysOk(s: Sys, i: nat, pins: set<Pin>)
    requires PinsInGuides(s) && Enabled(s, PinBeat(i, pins))
    ensures PinsOk(DbAfter(s, PinBeat(i, pins)).cuts[JobOf(s, i).ownerId])
  {
    var c := JobOf(s, i).ownerId;
    assert ViewOk(s.db, s.runs[i]) && PinsOk(s.db.cuts[c]);
    var g := s.runs[i].view.cut.guide.value;
    assert g.beats[s.runs[i].built] in g.beats;
  }

  lemma ViewStaysOk(s: Sys, e: Event, i: nat)
    requires Inv(WatchReels, s) && PinsInGuides(s) && Enabled(s, e) && i < |s.runs|
    ensures ViewOk(DbAfter(s, e), s.runs[i])
  {
    var r := s.runs[i];
    assert ViewOk(s.db, r) && RunOk(s, r);
    RowsMoveOneWay(s, e, r.job);
    if r.view.CutView? && r.view.cut.guide.Some? && s.db.jobs[r.job].Owner().OfCut? {
      GuideKeepsBeats(s, e, s.db.jobs[r.job].ownerId);
    }
  }

  /** What an event can make of the view of the run it acts on. */
  lemma ViewAfter(s: Sys, e: Event, i: nat)
    requires Enabled(s, e) && Actor(e) == Some(i)
    ensures RunAfter(s, i, e).job == s.runs[i].job
    ensures RunAfter(s, i, e).view in {NoView, s.runs[i].view} || e.Load?
    ensures e.Load? && RunAfter(s, i, e).view.CutView? ==>
              JobOf(s, i).ownerId in s.db.cuts && RunAfter(s, i, e).view.cut == CutOf(s, i) && DbAfter(s, e) == s.db
  {
    ActingPhase(s, e, i);
    if Ending(e) { ViewAfterEnding(s, e, i); } else { ViewAfterOthers(s, e, i); }
  }

  lemma ViewAfterEnding(s: Sys, e: Event, i: nat)
    requires Enabled(s, e) && Actor(e) == Some(i) && Ending(e)
    ensures RunAfter(s, i, e).view in {NoView, s.runs[i].view}
  {
  }

  lemma ViewAfterOthers(s: Sys, e: Event, i: nat)
    requires Enabled(s, e) && Actor(e) == Some(i) && !Ending(e)
    ensures RunAfter(s, i, e).view == s.runs[i].view || e.Load?
    ensures e.Load? && RunAfter(s, i, e).view.CutView? ==>
              JobOf(s, i).ownerId in s.db.cuts && RunAfter(s, i, e).view.cut == CutOf(s, i) && DbAfter(s, e) == s.db
  {
  }

  lemma RecordViewOk(s: Sys, e: Event, i: nat)
    requires Inv(WatchReels, s) && PinsInGuides(s) && Enabled(s, e) && i < |Next(s, e).runs|
    ensures ViewOk(Next(s, e).db, Next(s, e).runs[i])
  {
    if i < |s.runs| {
      ViewStaysOk(s, e, i);
      if Actor(e) == Some(i) { ViewAfter(s, e, i); }
    }
  }

  lemma PinsInGuidesStep(s: Sys, e: Event)
    requires Inv(WatchReels, s) && PinsInGuides(s) && Enabled(s, e)
    ensures PinsInGuides(Next(s, e))
  {
    forall c | c in Next(s, e).db.cuts
      ensures PinsOk(Next(s, e).db.cuts[c])
    {
      if c in s.db.cuts { PinsStayOk(s, e, c); } else { NewCutsAreEmpty(s, e, c); }
    }
    forall i | 0 <= i < |Next(s, e).runs|
      ensures ViewOk(Next(s, e).db, Next(s, e).runs[i])
    {
      RecordViewOk(s, e, i);
    }
  }

  /** In every run of the system pins belong to beats of their cut's guide, and a loaded guide has the
      beats of the cut's. */
  lemma {:induction false} PinsBelongToGuides(s: Sys, es: seq<Event>)
    requires Inv(WatchReels, s) && PinsInGuides(s) && Possible(s, es)
    ensures Inv(WatchReels, After(s, es)) && PinsInGuides(After(s, es))
    decreases |es|
  {
    if es != [] {
      assert !HarmfulSweep(WatchReels, s, es[0]);
      Step(WatchReels, s, es[0]);
      PinsInGuidesStep(s, es[0]);
      PinsBelongToGuides(Next(s, es[0]), es[1..]);
    }
  }

  // ---------- What a render has built, and the ledger ----------

  /** A render of cut `c` at work, not yet at its snapshot. */
  ghost predicate Building(s: Sys, i: nat, c: nat) {
    RunIn(s, i, Render) && JobOf(s, i).ownerId == c && HasBuilt(s.runs[i])
  }

  /** What this asks of the run's local state. */
  predicate HasBuilt(r: Run) {
    && r.view.CutView? && r.view.cut.guide.Some? && r.pinsSeen.None?
    && r.built <= |r.view.cut.guide.value.beats|
    && (r.refreshed.Some? ==> r.built == |r.view.cut.guide.value.beats|)
    && (forall p | p in r.builtPins :: p.beat in BeatIndices(r.view.cut.guide.value))
  }

  /** The event neither ends run `i` nor takes its snapshot. */
  predicate LetsBuild(e: Event, i: nat) {
    Actor(e) == Some(i) ==> !Ending(e) && !e.SnapPins?
  }

  /** What the event adds to what run `i` has built: the pins it reuses, or those it writes. */
  ghost function Took(s: Sys, e: Event, i: nat): set<Pin>
    requires Enabled(s, e)
  {
    if e == ReadPins(i) then
      if Reuses(CutOf(s, i), NextBeat(s.runs[i]), NextDirection(s.runs[i]))
      then PinsOfBeat(CutOf(s, i).pins, NextBeat(s.runs[i])) else {}
    else if e.PinBeat? && e.i == i then e.pins else {}
  }

  /** The pins the event puts at index `x` of the cut, whoever's run it is. */
  ghost function Put(s: Sys, e: Event, c: nat, x: int): Option<set<Pin>>
    requires Enabled(s, e)
  {
    if PinsCut(s, e, c) && NextBeat(s.runs[e.i]) == x then Some(e.pins) else None
  }

  /** How a run goes on building: it takes pins for its next beat, or takes none. */
  predicate GoesOn(r: Run, r': Run, took: set<Pin>) {
    && r' == r.(refreshed := r'.refreshed, built := r'.built, builtPins := r.builtPins + took,
                resolving := r'.resolving)
    && r.view.CutView? && r.view.cut.guide.Some?
    && (r'.refreshed.Some? ==> r'.built == |r.view.cut.guide.value.beats|)
    && (if r'.built == r.built then took == {}
        else r'.built == r.built + 1 && HasNextBeat(r) && forall p | p in took :: p.beat == NextBeat(r))
  }

  lemma BuildingRun(s: Sys, e: Event, i: nat, c: nat)
    requires Building(s, i, c) && Enabled(s, e) && Actor(e) == Some(i) && LetsBuild(e, i)
    ensures GoesOn(s.runs[i], RunAfter(s, i, e), Took(s, e, i))
  {
    if e.ReadPins? || e.PinBeat? { BeatRun(s, e, i, c); } else { IdleRun(s, e, i, c); }
  }

  lemma BeatRun(s: Sys, e: Event, i: nat, c: nat)
    requires Building(s, i, c) && Enabled(s, e) && (e == ReadPins(i) || (e.PinBeat? && e.i == i))
    ensures GoesOn(s.runs[i], RunAfter(s, i, e), Took(s, e, i))
  {
  }

  lemma IdleRun(s: Sys, e: Event, i: nat, c: nat)
    requires Building(s, i, c) && Enabled(s, e) && Actor(e) == Some(i) && LetsBuild(e, i) && !e.ReadPins? && !e.PinBeat?
    ensures GoesOn(s.runs[i], RunAfter(s, i, e), {})
  {
  }

  /** A run that is working stays in its Job's kind and cut as long as it works. */
  lemma StaysAtWork(s: Sys, e: Event, i: nat)
    requires RunIn(s, i, Render) && Enabled(s, e)
    requires Next(s, e).runs[i].phase.Working? && Next(s, e).runs[i].view.CutView?
    ensures RunIn(Next(s, e), i, Render) && JobOf(Next(s, e), i).ownerId == JobOf(s, i).ownerId
    ensures Next(s, e).runs[i].job == s.runs[i].job
  {
    RowsMoveOneWay(s, e, s.runs[i].job);
    CutsStay(s, e);
    if Actor(e) == Some(i) { ActingPhase(s, e, i); }
  }

  lemma BuildStep(s: Sys, e: Event, i: nat, c: nat)
    requires Building(s, i, c) && Enabled(s, e) && LetsBuild(e, i)
    ensures Building(Next(s, e), i, c)
    ensures Actor(e) == Some(i) ==> GoesOn(s.runs[i], Next(s, e).runs[i], Took(s, e, i))
    ensures Actor(e) != Some(i) ==> Next(s, e).runs[i] == s.runs[i] && Took(s, e, i) == {}
  {
    if Actor(e) == Some(i) {
      BuildingRun(s, e, i, c);
      StaysAtWork(s, e, i);
      StillBuilding(s.runs[i], Next(s, e).runs[i], Took(s, e, i));
    } else {
      StaysAtWork(s, e, i);
    }
  }

  lemma StillBuilding(r: Run, r': Run, took: set<Pin>)
    requires HasBuilt(r) && GoesOn(r, r', took)
    ensures HasBuilt(r')
  {
    if HasNextBeat(r) { assert r.view.cut.guide.value.beats[r.built] in r.view.cut.guide.value.beats; }
  }

  /** One event's effect on one index of the ledger. */
  lemma LedgerStep(s: Sys, e: Event, c: nat, x: int)
    requires Enabled(s, e) && c in s.db.cuts
    ensures c in DbAfter(s, e).cuts
    ensures PinsOfBeat(DbAfter(s, e).cuts[c].pins, x)
            == if Put(s, e, c, x).Some? then Put(s, e, c, x).value else PinsOfBeat(s.db.cuts[c].pins, x)
  {
    if PinsCut(s, e, c) {
      var beat := NextBeat(s.runs[e.i]);
      assert DbAfter(s, e).cuts[c].pins == Repin(s.db.cuts[c].pins, beat, e.pins);
    } else {
      OnlyPinBeatsWritePins(s, e, c);
    }
  }

  /** The indices of the beats from the `a`th to the `b`th. */
  function IndicesFrom(g: Guide, a: nat, b: nat): set<int>
    requires a <= b <= |g.beats|
  {
    set k | a <= k < b :: g.beats[k].index
  }

  /** What run `i` took at the index between two of its states, if it took whatever was pinned there. */
  function Taken(r: Run, r': Run, ledger: set<Pin>, x: int): set<Pin>
    requires r.view.CutView? && r.view.cut.guide.Some? && r.built <= r'.built <= |r.view.cut.guide.value.beats|
  {
    if x in IndicesFrom(r.view.cut.guide.value, r.built, r'.built) then PinsOfBeat(ledger, x) else {}
  }

  /** Unless it puts pins at the index, the render takes there what the ledger holds, once it comes to it. */
  lemma TakesWhatIsThere(s: Sys, e: Event, i: nat, c: nat, x: int)
    requires Building(s, i, c) && Enabled(s, e) && LetsBuild(e, i) && Put(s, e, c, x).None?
    requires Building(Next(s, e), i, c) && s.runs[i].built <= Next(s, e).runs[i].built
    requires Next(s, e).runs[i].view == s.runs[i].view
    ensures PinsOfBeat(Took(s, e, i), x) == Taken(s.runs[i], Next(s, e).runs[i], CutOf(s, i).pins, x)
  {
    BuildStep(s, e, i, c);
    if e == ReadPins(i) {
      assert forall p | p in CutOf(s, i).pins && p.beat == x :: p in PinsOfBeat(CutOf(s, i).pins, x);
    }
  }

  // ---------- Over a whole build ----------

  /** The last pins any run put at the index. */
  ghost function LastPut(s: Sys, es: seq<Event>, c: nat, x: int): Option<set<Pin>>
    requires Possible(s, es)
    decreases |es|
  {
    if es == [] then None
    else
      var later := LastPut(Next(s, es[0]), es[1..], c, x);
      if later.Some? then later else Put(s, es[0], c, x)
  }

  /** All the pins run `i` put or reused. */
  ghost function OwnPins(s: Sys, es: seq<Event>, i: nat): set<Pin>
    requires Possible(s, es)
    decreases |es|
  {
    if es == [] then {} else Took(s, es[0], i) + OwnPins(Next(s, es[0]), es[1..], i)
  }

  /** The last pins put at the index, if any were, are those the render put or reused there. */
  ghost predicate LastPutIsOwn(s: Sys, es: seq<Event>, i: nat, c: nat, x: int)
    requires Possible(s, es)
  {
    var last := LastPut(s, es, c, x);
    last.Some? ==> last.value == PinsOfBeat(OwnPins(s, es, i), x)
  }

  lemma {:induction false} LedgerIsLastPut(s: Sys, es: seq<Event>, c: nat, x: int)
    requires Possible(s, es) && c in s.db.cuts
    ensures c in After(s, es).db.cuts
    ensures PinsOfBeat(After(s, es).db.cuts[c].pins, x)
            == if LastPut(s, es, c, x).Some? then LastPut(s, es, c, x).value else PinsOfBeat(s.db.cuts[c].pins, x)
    decreases |es|
  {
    if es != [] {
      LedgerStep(s, es[0], c, x);
      LedgerIsLastPut(Next(s, es[0]), es[1..], c, x);
    }
  }

  /** The run builds on through the whole trace. */
  ghost predicate Builds(s: Sys, es: seq<Event>, i: nat, c: nat)
    requires Building(s, i, c) && Possible(s, es)
  {
    BuildsTo(s, After(s, es), i, c)
  }

  ghost predicate BuildsTo(s: Sys, t: Sys, i: nat, c: nat)
    requires Building(s, i, c)
  {
    Building(t, i, c) && t.runs[i].view == s.runs[i].view && t.runs[i].built >= s.runs[i].built
  }

  lemma StepBuilds(s: Sys, e: Event, i: nat, c: nat)
    requires Building(s, i, c) && Enabled(s, e) && LetsBuild(e, i)
    ensures BuildsTo(s, Next(s, e), i, c)
    ensures Next(s, e).runs[i].builtPins == s.runs[i].builtPins + Took(s, e, i)
  {
    BuildStep(s, e, i, c);
  }

  lemma {:induction false} BuiltIsOwn(s: Sys, es: seq<Event>, i: nat, c: nat)
    requires Building(s, i, c) && Possible(s, es) && forall e | e in es :: LetsBuild(e, i)
    ensures Builds(s, es, i, c)
    ensures After(s, es).runs[i].builtPins == s.runs[i].builtPins + OwnPins(s, es, i)
    decreases |es|
  {
    if es != [] {
      assert LetsBuild(es[0], i) by { assert es[0] in es; }
      StepBuilds(s, es[0], i, c);
      BuiltIsOwn(Next(s, es[0]), es[1..], i, c);
    }
  }

  lemma TakenSplits(a: Run, b: Run, c: Run, ledger: set<Pin>, ledger': set<Pin>, x: int)
    requires a.view.CutView? && a.view.cut.guide.Some? && b.view == a.view
    requires a.built <= b.built <= c.built <= |a.view.cut.guide.value.beats|
    requires PinsOfBeat(ledger, x) == PinsOfBeat(ledger', x)
    ensures Taken(a, c, ledger, x) == Taken(a, b, ledger, x) + Taken(b, c, ledger', x)
  {
    var g := a.view.cut.guide.value;
    assert IndicesFrom(g, a.built, c.built) == IndicesFrom(g, a.built, b.built) + IndicesFrom(g, b.built, c.built);
  }

  /** Where nobody puts any pins, the render takes those that were there. */
  lemma {:induction false} UntouchedIsReused(s: Sys, es: seq<Event>, i: nat, c: nat, x: int)
    requires Building(s, i, c) && Possible(s, es) && forall e | e in es :: LetsBuild(e, i)
    requires LastPut(s, es, c, x).None?
    ensures Builds(s, es, i, c)
    ensures PinsOfBeat(OwnPins(s, es, i), x) == Taken(s.runs[i], After(s, es).runs[i], CutOf(s, i).pins, x)
    decreases |es|
  {
    BuiltIsOwn(s, es, i, c);
    if es != [] {
      var t := Next(s, es[0]);
      assert LetsBuild(es[0], i) by { assert es[0] in es; }
      StepBuilds(s, es[0], i, c);
      LedgerStep(s, es[0], c, x);
      TakesWhatIsThere(s, es[0], i, c, x);
      UntouchedIsReused(t, es[1..], i, c, x);
      TakenSplits(s.runs[i], t.runs[i], After(s, es).runs[i], CutOf(s, i).pins, CutOf(t, i).pins, x);
      TakenThenRest(Took(s, es[0], i), OwnPins(t, es[1..], i), x);
    }
  }

  lemma TakenThenRest(a: set<Pin>, b: set<Pin>, x: int)
    ensures PinsOfBeat(a + b, x) == PinsOfBeat(a, x) + PinsOfBeat(b, x)
  {
  }

  /** A render that has just loaded its cut. */
  ghost predicate JustLoaded(s: Sys, i: nat, c: nat) {
    && RunIn(s, i, Render) && JobOf(s, i).ownerId == c && s.runs[i].view.cut.guide.Some?
    && s.runs[i].built == 0 && s.runs[i].builtPins == {} && s.runs[i].refreshed.None? && s.runs[i].pinsSeen.None?
  }

  /** Over a whole build, what the render built for an index is what the ledger holds there exactly when the
      last pins put there were its own. */
  lemma DriftIff(s: Sys, es: seq<Event>, i: nat, c: nat, x: int)
    requires JustLoaded(s, i, c) && Possible(s, es) && forall e | e in es :: LetsBuild(e, i)
    requires x in BeatIndices(s.runs[i].view.cut.guide.value)
    ensures Building(After(s, es), i, c)
    ensures After(s, es).runs[i].built == |s.runs[i].view.cut.guide.value.beats| ==>
              (PinsOfBeat(After(s, es).runs[i].builtPins, x) == PinsOfBeat(CutOf(After(s, es), i).pins, x)
               <==> LastPutIsOwn(s, es, i, c, x))
  {
    var g := s.runs[i].view.cut.guide.value;
    BuiltIsOwn(s, es, i, c);
    LedgerIsLastPut(s, es, c, x);
    if LastPut(s, es, c, x).None? && After(s, es).runs[i].built == |g.beats| {
      UntouchedIsReused(s, es, i, c, x);
      var k :| 0 <= k < |g.beats| && g.beats[k].index == x;
      assert x in IndicesFrom(g, 0, |g.beats|);
    }
  }

  // ---------- Step by step, for a guide with distinct indices ----------

  /** The indices of the beats still to be done. */
  function Remaining(g: Guide, built: nat): set<int>
    requires built <= |g.beats|
  {
    IndicesFrom(g, built, |g.beats|)
  }

  /** A render of a guide whose beats have distinct indices. */
  ghost predicate Rendering(s: Sys, i: nat, c: nat) {
    && Building(s, i, c) && DistinctBeats(s.runs[i].view.cut.guide.value)
    && (forall p | p in s.runs[i].builtPins :: p.beat !in Remaining(s.runs[i].view.cut.guide.value, s.runs[i].built))
  }

  /** The ledger holds, besides pins of beats the render still has to do, exactly what it has built. */
  ghost predicate Tracks(s: Sys, i: nat, c: nat) {
    && Rendering(s, i, c)
    && s.runs[i].builtPins
       == (set p | p in CutOf(s, i).pins && p.beat !in Remaining(s.runs[i].view.cut.guide.value, s.runs[i].built))
  }

  /** Another run re-pins a beat this render does not have to do any more, with other pins. */
  ghost predicate StrayPin(s: Sys, e: Event, i: nat, c: nat)
    requires Enabled(s, e)
  {
    && Rendering(s, i, c) && PinsCut(s, e, c) && e.i != i
    && NextBeat(s.runs[e.i]) !in Remaining(s.runs[i].view.cut.guide.value, s.runs[i].built)
    && e.pins != PinsOfBeat(CutOf(s, i).pins, NextBeat(s.runs[e.i]))
  }

  lemma NextBeatIsDone(g: Guide, built: nat)
    requires DistinctBeats(g) && built < |g.beats|
    ensures Remaining(g, built) == Remaining(g, built + 1) + {g.beats[built].index}
    ensures g.beats[built].index !in Remaining(g, built + 1)
  {
  }

  /** Going on keeps the render what it was, whatever it takes. */
  lemma RenderingGoesOn(s: Sys, e: Event, i: nat, c: nat)
    requires Rendering(s, i, c) && Enabled(s, e) && LetsBuild(e, i)
    ensures Rendering(Next(s, e), i, c)
  {
    var g := s.runs[i].view.cut.guide.value;
    BuildStep(s, e, i, c);
    if HasNextBeat(s.runs[i]) { NextBeatIsDone(g, s.runs[i].built); }
  }

  /** The render's own beats keep the relation. */
  lemma OwnStepTracks(s: Sys, e: Event, i: nat, c: nat)
    requires Tracks(s, i, c) && Enabled(s, e) && LetsBuild(e, i) && Actor(e) == Some(i)
    ensures Tracks(Next(s, e), i, c)
  {
    var r, ledger := s.runs[i], CutOf(s, i).pins;
    RenderingGoesOn(s, e, i, c);
    BuildStep(s, e, i, c);
    if e.PinBeat? {
      OwnPinAdds(r, ledger, e.pins);
    } else {
      OnlyPinBeatsWritePins(s, e, c);
      if e == ReadPins(i) { OwnReuseAdds(r, ledger); } else { assert Next(s, e).runs[i].built == r.built; }
    }
  }

  lemma OwnPinAdds(r: Run, ledger: set<Pin>, pins: set<Pin>)
    requires HasNextBeat(r) && DistinctBeats(r.view.cut.guide.value) && BeatPins(pins, NextBeat(r))
    ensures
      var g := r.view.cut.guide.value;
      (set p | p in Repin(ledger, NextBeat(r), pins) && p.beat !in Remaining(g, r.built + 1))
      == (set p | p in ledger && p.beat !in Remaining(g, r.built)) + pins
  {
    NextBeatIsDone(r.view.cut.guide.value, r.built);
  }

  lemma OwnReuseAdds(r: Run, ledger: set<Pin>)
    requires HasNextBeat(r) && DistinctBeats(r.view.cut.guide.value)
    ensures
      var g := r.view.cut.guide.value;
      (set p | p in ledger && p.beat !in Remaining(g, r.built + 1))
      == (set p | p in ledger && p.beat !in Remaining(g, r.built)) + PinsOfBeat(ledger, NextBeat(r))
  {
    NextBeatIsDone(r.view.cut.guide.value, r.built);
  }

  lemma OtherPinBreaksIff(ledger: set<Pin>, built: set<Pin>, rest: set<int>, beat: int, pins: set<Pin>)
    requires built == (set p | p in ledger && p.beat !in rest) && BeatPins(pins, beat)
    ensures built == (set p | p in Repin(ledger, beat, pins) && p.beat !in rest)
            <==> beat in rest || pins == PinsOfBeat(ledger, beat)
  {
    if beat !in rest && built == (set p | p in Repin(ledger, beat, pins) && p.beat !in rest) {
      assert forall p | p in pins :: p in built;
      assert forall p | p in PinsOfBeat(ledger, beat) :: p in built;
      assert pins == PinsOfBeat(ledger, beat);
    }
  }

  /** While the ledger tracks the render, a step ends that exactly when it is a stray pin. */
  lemma TracksUntilStray(s: Sys, e: Event, i: nat, c: nat)
    requires Tracks(s, i, c) && Enabled(s, e) && LetsBuild(e, i)
    ensures Rendering(Next(s, e), i, c)
    ensures Tracks(Next(s, e), i, c) <==> !StrayPin(s, e, i, c)
  {
    RenderingGoesOn(s, e, i, c);
    if Actor(e) == Some(i) {
      OwnStepTracks(s, e, i, c);
    } else if PinsCut(s, e, c) {
      OtherPinBreaksIff(CutOf(s, i).pins, s.runs[i].builtPins,
                        Remaining(s.runs[i].view.cut.guide.value, s.runs[i].built),
                        NextBeat(s.runs[e.i]), e.pins);
    } else {
      OnlyPinBeatsWritePins(s, e, c);
    }
  }

  // ---------- What a render records ----------

  /** After its snapshot a run keeps what it built and what it saw. */
  lemma SnapshotStep(s: Sys, e: Event, i: nat)
    requires RunIn(s, i, Render) && s.runs[i].refreshed.Some? && s.runs[i].pinsSeen.Some?
    requires Enabled(s, e) && (Actor(e) == Some(i) ==> !Ending(e))
    ensures RunIn(Next(s, e), i, Render) && Next(s, e).runs[i] == s.runs[i]
            && JobOf(Next(s, e), i).ownerId == JobOf(s, i).ownerId
  {
    RowsMoveOneWay(s, e, s.runs[i].job);
    CutsStay(s, e);
    if Actor(e) == Some(i) { IdleAfterSnapshot(s, e, i); }
  }

  lemma CutsStay(s: Sys, e: Event)
    requires Enabled(s, e)
    ensures s.db.cuts.Keys <= DbAfter(s, e).cuts.Keys
  {
    forall c | c in s.db.cuts
      ensures c in DbAfter(s, e).cuts
    {
      if !PinsCut(s, e, c) { OnlyPinBeatsWritePins(s, e, c); }
    }
  }

  lemma IdleAfterSnapshot(s: Sys, e: Event, i: nat)
    requires RunIn(s, i, Render) && s.runs[i].refreshed.Some? && s.runs[i].pinsSeen.Some?
    requires Enabled(s, e) && Actor(e) == Some(i) && !Ending(e)
    ensures RunAfter(s, i, e) == s.runs[i]
  {
  }

  lemma {:induction false} SnapshotIsKept(s: Sys, es: seq<Event>, i: nat)
    requires RunIn(s, i, Render) && s.runs[i].refreshed.Some? && s.runs[i].pinsSeen.Some?
    requires Possible(s, es) && forall e | e in es :: Actor(e) == Some(i) ==> !Ending(e)
    ensures RunIn(After(s, es), i, Render) && After(s, es).runs[i] == s.runs[i]
    ensures JobOf(After(s, es), i).ownerId == JobOf(s, i).ownerId
    decreases |es|
  {
    if es != [] {
      assert es[0] in es;
      SnapshotStep(s, es[0], i);
      SnapshotIsKept(Next(s, es[0]), es[1..], i);
    }
  }

  /** The fingerprint column tells the truth about the recorded video's pins. */
  ghost predicate PinsTruthful(cut: Cut) {
    cut.recorded.Some? && cut.pinsFp == Some(PinsFingerprint(cut.recorded.value.pins))
  }

  lemma SnapshotDecides(s: Sys, m: Sys, i: nat, c: nat)
    requires Building(m, i, c) && Enabled(m, SnapPins(i)) && Enabled(s, FinishRender(i)) && Lands(s, i)
    requires s.runs[i] == RunAfter(m, i, SnapPins(i)) && JobOf(s, i).ownerId == c
    ensures c in DbAfter(s, FinishRender(i)).cuts
    ensures PinsTruthful(DbAfter(s, FinishRender(i)).cuts[c]) <==> CutOf(m, i).pins == m.runs[i].builtPins
  {
    FinishedRow(s, i, c);
    PinsFingerprintIsCanonical(CutOf(m, i).pins, s.runs[i].builtPins, PinFingerprint.Rows(CutOf(m, i).pins));
  }

  lemma FinishedRow(s: Sys, i: nat, c: nat)
    requires Enabled(s, FinishRender(i)) && Lands(s, i) && JobOf(s, i).ownerId == c
    ensures
      var cuts := DbAfter(s, FinishRender(i)).cuts;
      && c in cuts && cuts[c].recorded.Some? && cuts[c].recorded.value.pins == s.runs[i].builtPins
      && cuts[c].pinsFp == Some(PinsFingerprint(s.runs[i].pinsSeen.value))
  {
  }

  /** Two sets of pins of a guide are equal exactly when they are at each of its indices. */
  lemma EqualByIndex(g: Guide, a: set<Pin>, b: set<Pin>)
    requires forall p | p in a || p in b :: p.beat in BeatIndices(g)
    ensures a == b <==> forall x | x in BeatIndices(g) :: PinsOfBeat(a, x) == PinsOfBeat(b, x)
  {
    if forall x | x in BeatIndices(g) :: PinsOfBeat(a, x) == PinsOfBeat(b, x) {
      forall p: Pin
        ensures p in a <==> p in b
      {
        if p in a || p in b {
          assert PinsOfBeat(a, p.beat) == PinsOfBeat(b, p.beat);
          assert p in a <==> p in PinsOfBeat(a, p.beat);
          assert p in b <==> p in PinsOfBeat(b, p.beat);
        }
      }
    }
  }

  /** Run `i` builds from `s` until `m`. */
  ghost predicate BuildsUntil(s: Sys, building: seq<Event>, m: Sys, i: nat) {
    Possible(s, building) && m == After(s, building) && forall e | e in building :: LetsBuild(e, i)
  }

  /** It snapshots the pins in `m` and is `n` afterwards. */
  ghost predicate Snaps(m: Sys, n: Sys, i: nat) {
    Enabled(m, SnapPins(i)) && n == Next(m, SnapPins(i))
  }

  /** It does not end until `t`, and lands there. */
  ghost predicate Closes(n: Sys, closing: seq<Event>, t: Sys, i: nat) {
    && Possible(n, closing) && t == After(n, closing) && (forall e | e in closing :: Actor(e) == Some(i) ==> !Ending(e))
    && Enabled(t, FinishRender(i)) && Lands(t, i)
  }

  /** Main result, for every run of the system and every guide: a render records a truthful pins
      fingerprint exactly when, at every beat index, the last pins that any run put there before its
      snapshot are those it put or reused itself. */
  lemma RecordedPinsAreTruthfulIff(before: seq<Event>, s: Sys, building: seq<Event>, m: Sys, n: Sys,
                                   closing: seq<Event>, t: Sys, i: nat, c: nat)
    requires Possible(INIT, before) && s == After(INIT, before) && JustLoaded(s, i, c)
    requires BuildsUntil(s, building, m, i) && Snaps(m, n, i) && Closes(n, closing, t, i)
    ensures c in DbAfter(t, FinishRender(i)).cuts
    ensures PinsTruthful(DbAfter(t, FinishRender(i)).cuts[c])
            <==> forall x | x in BeatIndices(s.runs[i].view.cut.guide.value) :: LastPutIsOwn(s, building, i, c, x)
  {
    BuiltIsOwn(s, building, i, c);
    SnapRun(m, i, c);
    SnapshotIsKept(n, closing, i);
    SnapshotDecides(t, m, i, c);
    BuildEndsOwnIff(before, s, building, m, i, c);
  }

  lemma BuildEndsOwnIff(before: seq<Event>, s: Sys, building: seq<Event>, m: Sys, i: nat, c: nat)
    requires Possible(INIT, before) && s == After(INIT, before) && JustLoaded(s, i, c)
    requires BuildsUntil(s, building, m, i) && Enabled(m, SnapPins(i))
    ensures CutOf(m, i).pins == m.runs[i].builtPins
            <==> forall x | x in BeatIndices(s.runs[i].view.cut.guide.value) :: LastPutIsOwn(s, building, i, c, x)
  {
    var g := s.runs[i].view.cut.guide.value;
    BuiltIsOwn(s, building, i, c);
    PinsAreOfGuide(before, s, building, m, i, c);
    EqualByIndex(g, CutOf(m, i).pins, m.runs[i].builtPins);
    forall x | x in BeatIndices(g)
      ensures PinsOfBeat(CutOf(m, i).pins, x) == PinsOfBeat(m.runs[i].builtPins, x)
              <==> LastPutIsOwn(s, building, i, c, x)
    {
      DriftIff(s, building, i, c, x);
    }
  }

  lemma PinsAreOfGuide(before: seq<Event>, s: Sys, building: seq<Event>, m: Sys, i: nat, c: nat)
    requires Possible(INIT, before) && s == After(INIT, before) && Possible(s, building) && m == After(s, building)
    requires Building(m, i, c)
    ensures forall p | p in CutOf(m, i).pins :: p.beat in BeatIndices(m.runs[i].view.cut.guide.value)
  {
    InitInv(WatchReels);
    PinsBelongToGuides(INIT, before);
    PinsBelongToGuides(s, building);
    assert ViewOk(m.db, m.runs[i]) && PinsOk(m.db.cuts[c]);
  }

  lemma SnapRun(m: Sys, i: nat, c: nat)
    requires Building(m, i, c) && Enabled(m, SnapPins(i))
    ensures var n := Next(m, SnapPins(i));
            RunIn(n, i, Render) && n.runs[i] == RunAfter(m, i, SnapPins(i)) && JobOf(n, i).ownerId == c
            && n.runs[i].refreshed.Some? && n.runs[i].pinsSeen.Some?
  {
  }
}
