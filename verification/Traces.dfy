/** Concrete runs of the system, for the claims that are false as the code stands. */
module Traces {
  import opened Wrappers
  import opened GuideEdit
  import opened PinFingerprint
  import opened Rows
  import opened Tx
  import opened System

  /** This run of the system is possible and ends in this state. */
  ghost predicate Leads(es: seq<Event>, s: Sys) {
    Possible(INIT, es) && After(INIT, es) == s
  }

  /** Some possible run of the system ends in this state; folded. */
  ghost predicate Reachable(s: Sys) {
    forall k {:trigger Open(k)} :: Open(k) ==> exists es: seq<Event> :: Leads(es, s)
  }

  lemma TraceTo(s: Sys) returns (es: seq<Event>)
    requires Reachable(s)
    ensures Possible(INIT, es) && After(INIT, es) == s
  {
    assert Open(0);
    es :| Leads(es, s);
  }

  lemma ReachedBy(s: Sys, es: seq<Event>)
    requires Leads(es, s)
    ensures Reachable(s)
  {
  }

  lemma InitReachable()
    ensures Reachable(INIT)
  {
    var none: seq<Event> := [];
    ReachedBy(INIT, none);
  }

  lemma {:induction false} PossibleExtends(s: Sys, es: seq<Event>, e: Event)
    requires Possible(s, es) && Enabled(After(s, es), e)
    ensures Possible(s, es + [e]) && After(s, es + [e]) == Next(After(s, es), e)
    decreases |es|
  {
    if es == [] {
      assert [e][1..] == [];
    } else {
      assert (es + [e])[1..] == es[1..] + [e];
      PossibleExtends(Next(s, es[0]), es[1..], e);
    }
  }

  lemma Go(s: Sys, e: Event) returns (t: Sys)
    requires Reachable(s) && Enabled(s, e)
    ensures t == Next(s, e) && Reachable(t)
  {
    t := Next(s, e);
    var es := TraceTo(s);
    PossibleExtends(INIT, es, e);
    ReachedBy(t, es + [e]);
  }

  // ---------- Stretches of a run ----------

  lemma Sent(s: Sys, i: nat) returns (t: Sys)
    requires Reachable(s) && IsRun(s, i) && s.runs[i].phase.Sending?
    ensures Reachable(t) && t == s.(runs := s.runs[i := s.runs[i].(phase := Queued)])
  {
    t := Go(s, Send(i));
    assert t.runs == s.runs[i := s.runs[i].(phase := Queued)];
  }

  lemma ClaimRuns(s: Sys, i: nat)
    requires IsRun(s, i) && s.runs[i].phase.Queued? && JobOf(s, i).status == Pending
    ensures RunsAfter(s, ClaimJob(i)) == s.runs[i := s.runs[i].(phase := Claimed, claimTok := JobOf(s, i).token + 1)]
  {
  }

  lemma ClaimedBy(s: Sys, i: nat) returns (t: Sys)
    requires Reachable(s) && IsRun(s, i) && s.runs[i].phase.Queued? && JobOf(s, i).status == Pending
    ensures Reachable(t)
    ensures t == s.(db := Claim(s.db, s.runs[i].job, s.clock),
                    runs := s.runs[i := s.runs[i].(phase := Claimed, claimTok := JobOf(s, i).token + 1)])
  {
    ClaimRuns(s, i);
    t := Go(s, ClaimJob(i));
  }

  lemma ReadBy(s: Sys, i: nat) returns (t: Sys)
    requires Reachable(s) && IsRun(s, i) && s.runs[i].phase.Claimed?
    ensures Reachable(t) && t == s.(runs := s.runs[i := s.runs[i].(phase := Owned, tok := JobOf(s, i).token)])
  {
    t := Go(s, ReadBack(i));
    assert t.runs == s.runs[i := s.runs[i].(phase := Owned, tok := JobOf(s, i).token)];
  }

  /** What `prepare` needs to find, and what it loads. */
  predicate Loads(db: Db, job: Job, view: View) {
    match job.kind
    case Enrich => job.ownerId in db.reels && view == ReelView(db.reels[job.ownerId].status)
    case Generate => job.ownerId in db.reels && view == ReelView(db.reels[job.ownerId].status)
      && view.status == ReelGenerating
    case Render =>
      job.ownerId in db.cuts && view == CutView(db.cuts[job.ownerId]) && view.cut.postId.None? && view.cut.guide.Some?
    case Publish => job.ownerId in db.cuts && view == CutView(db.cuts[job.ownerId])
  }

  lemma LoadedBy(s: Sys, i: nat, view: View) returns (t: Sys)
    requires Reachable(s) && IsRun(s, i) && s.runs[i].phase.Owned? && Loads(s.db, JobOf(s, i), view)
    ensures Reachable(t) && t == s.(runs := s.runs[i := s.runs[i].(phase := Working, view := view)])
  {
    t := Go(s, Load(i));
    assert t.runs == s.runs[i := s.runs[i].(phase := Working, view := view)];
  }

  lemma SentAndClaimed(s: Sys, i: nat) returns (t: Sys)
    requires Reachable(s) && IsRun(s, i) && s.runs[i].phase.Sending? && JobOf(s, i).status == Pending
    ensures Reachable(t)
    ensures t == s.(db := Claim(s.db, s.runs[i].job, s.clock),
                    runs := s.runs[i := s.runs[i].(phase := Claimed, claimTok := JobOf(s, i).token + 1)])
  {
    t := Sent(s, i);
    t := ClaimedBy(t, i);
    assert t.runs == s.runs[i := s.runs[i].(phase := Claimed, claimTok := JobOf(s, i).token + 1)];
  }

  lemma ReadAndLoaded(s: Sys, i: nat, view: View) returns (t: Sys)
    requires Reachable(s) && IsRun(s, i) && s.runs[i].phase.Claimed? && Loads(s.db, JobOf(s, i), view)
    ensures Reachable(t)
    ensures t == s.(runs := s.runs[i := s.runs[i].(phase := Working, tok := JobOf(s, i).token, view := view)])
  {
    t := ReadBy(s, i);
    t := LoadedBy(t, i, view);
    assert t.runs == s.runs[i := s.runs[i].(phase := Working, tok := JobOf(s, i).token, view := view)];
  }

  /** A message is sent, claimed and started with no interruption. */
  lemma Started(s: Sys, i: nat, view: View) returns (t: Sys)
    requires Reachable(s) && IsRun(s, i) && s.runs[i].phase.Sending? && JobOf(s, i).status == Pending
    requires Loads(s.db, JobOf(s, i), view)
    ensures Reachable(t)
    ensures var tok := JobOf(s, i).token + 1;
            t == s.(db := Claim(s.db, s.runs[i].job, s.clock),
                    runs := s.runs[i := s.runs[i].(phase := Working, claimTok := tok, tok := tok, view := view)])
  {
    var tok := JobOf(s, i).token + 1;
    t := SentAndClaimed(s, i);
    t := ReadAndLoaded(t, i, view);
    assert t.runs == s.runs[i := s.runs[i].(phase := Working, claimTok := tok, tok := tok, view := view)];
  }

  // ---------- Stretches of a render ----------

  /** A render run and the cut it works on. */
  predicate Renders(s: Sys, i: nat) {
    RunIn(s, i, Render) && s.runs[i].view.cut.guide.Some?
  }

  /** The render finds no pins to reuse for its next beat and starts resolving it. */
  predicate MustResolve(s: Sys, i: nat) {
    && Renders(s, i) && s.runs[i].refreshed.None? && !s.runs[i].resolving && HasNextBeat(s.runs[i])
    && !Reuses(s.db.cuts[JobOf(s, i).ownerId], NextBeat(s.runs[i]), NextDirection(s.runs[i]))
  }

  lemma Resolving(s: Sys, i: nat) returns (t: Sys)
    requires Reachable(s) && MustResolve(s, i)
    ensures Reachable(t) && t == s.(runs := s.runs[i := s.runs[i].(resolving := true)])
  {
    t := Go(s, ReadPins(i));
    assert t.runs == s.runs[i := s.runs[i].(resolving := true)];
  }

  /** A run that has done its next beat with these pins. */
  function BeatDone(r: Run, pins: set<Pin>): Run {
    r.(built := r.built + 1, builtPins := r.builtPins + pins, resolving := false)
  }

  lemma Repinned(s: Sys, i: nat, pins: set<Pin>) returns (t: Sys)
    requires Reachable(s) && Renders(s, i) && s.runs[i].refreshed.None? && s.runs[i].resolving
    requires HasNextBeat(s.runs[i]) && BeatPins(pins, NextBeat(s.runs[i]))
    ensures Reachable(t)
    ensures
      var c, r := JobOf(s, i).ownerId, s.runs[i];
      t == s.(db := SetCut(s.db, c, RepinCut(s.db.cuts[c], NextBeat(r), NextDirection(r), pins)),
              runs := s.runs[i := BeatDone(r, pins)])
  {
    t := Go(s, PinBeat(i, pins));
    assert t.runs == s.runs[i := BeatDone(s.runs[i], pins)];
  }

  /** A beat is resolved and pinned with no interruption. */
  lemma Pinned(s: Sys, i: nat, pins: set<Pin>) returns (t: Sys)
    requires Reachable(s) && MustResolve(s, i) && BeatPins(pins, NextBeat(s.runs[i]))
    ensures Reachable(t)
    ensures
      var c, r := JobOf(s, i).ownerId, s.runs[i];
      t == s.(db := SetCut(s.db, c, RepinCut(s.db.cuts[c], NextBeat(r), NextDirection(r), pins)),
              runs := s.runs[i := BeatDone(r, pins)])
  {
    t := Resolving(s, i);
    t := Repinned(t, i, pins);
    assert t.runs == s.runs[i := BeatDone(s.runs[i], pins)];
  }

  /** A beat's pins are current and are reused. */
  lemma Reused(s: Sys, i: nat) returns (t: Sys)
    requires Reachable(s) && Renders(s, i) && s.runs[i].refreshed.None? && !s.runs[i].resolving
    requires HasNextBeat(s.runs[i])
    requires Reuses(s.db.cuts[JobOf(s, i).ownerId], NextBeat(s.runs[i]), NextDirection(s.runs[i]))
    ensures Reachable(t)
    ensures
      var r := s.runs[i];
      t == s.(runs := s.runs[i := BeatDone(r, PinsOfBeat(s.db.cuts[JobOf(s, i).ownerId].pins, NextBeat(r)))])
  {
    t := Go(s, ReadPins(i));
    assert t.runs == s.runs[i := BeatDone(s.runs[i],
                                          PinsOfBeat(s.db.cuts[JobOf(s, i).ownerId].pins, NextBeat(s.runs[i])))];
  }

  /** A render that has built every beat snapshots the cut and its pins. */
  lemma Snapped(s: Sys, i: nat, cut: Cut) returns (t: Sys)
    requires Reachable(s) && Renders(s, i) && s.runs[i].refreshed.None? && s.runs[i].pinsSeen.None?
    requires s.runs[i].built == |s.runs[i].view.cut.guide.value.beats|
    requires cut == s.db.cuts[JobOf(s, i).ownerId] && cut.postId.None? && cut.guide.Some?
    ensures Reachable(t)
    ensures t == s.(runs := s.runs[i := s.runs[i].(refreshed := Some(cut), pinsSeen := Some(cut.pins))])
  {
    t := Refreshed(s, i, cut);
    t := PinsRead(t, i, cut);
    assert t.runs == s.runs[i := s.runs[i].(refreshed := Some(cut), pinsSeen := Some(cut.pins))];
  }

  lemma Refreshed(s: Sys, i: nat, cut: Cut) returns (t: Sys)
    requires Reachable(s) && Renders(s, i) && s.runs[i].refreshed.None?
    requires s.runs[i].built == |s.runs[i].view.cut.guide.value.beats|
    requires cut == s.db.cuts[JobOf(s, i).ownerId] && cut.postId.None? && cut.guide.Some?
    ensures Reachable(t) && t == s.(runs := s.runs[i := s.runs[i].(refreshed := Some(cut))])
  {
    t := Go(s, RefreshCut(i));
    assert t.runs == s.runs[i := s.runs[i].(refreshed := Some(cut))];
  }

  lemma PinsRead(s: Sys, i: nat, cut: Cut) returns (t: Sys)
    requires Reachable(s) && RunIn(s, i, Render) && s.runs[i].refreshed.Some? && s.runs[i].pinsSeen.None?
    requires cut == s.db.cuts[JobOf(s, i).ownerId]
    ensures Reachable(t) && t == s.(runs := s.runs[i := s.runs[i].(pinsSeen := Some(cut.pins))])
  {
    t := Go(s, SnapPins(i));
    assert t.runs == s.runs[i := s.runs[i].(pinsSeen := Some(cut.pins))];
  }

  lemma Rendered(s: Sys, i: nat) returns (t: Sys)
    requires Reachable(s) && Renders(s, i) && Lands(s, i) && s.runs[i].pinsSeen.Some?
    requires s.runs[i].refreshed.Some? && s.runs[i].refreshed.value.guide == s.runs[i].view.cut.guide
    requires s.runs[i].refreshed.value.status == CutRendering
    ensures Reachable(t)
    ensures
      var c, g := JobOf(s, i).ownerId, s.runs[i].view.cut.guide.value;
      t == s.(db := SetCut(DoneStamp(s.db, s.runs[i].job, s.clock), c,
                           s.db.cuts[c].(status := CutInReview, recorded := Some(Recording(g, s.runs[i].builtPins)),
                                         pinsFp := Some(PinsFingerprint(s.runs[i].pinsSeen.value)),
                                           guideFp := Some(GuideFp(g)))),
              runs := s.runs[i := s.runs[i].(phase := Ended)])
  {
    t := Go(s, FinishRender(i));
    assert t.runs == s.runs[i := s.runs[i].(phase := Ended)];
  }

  lemma RenderTriggered(s: Sys, c: nat, j: nat) returns (t: Sys)
    requires Reachable(s) && Enabled(s, TriggerRender(c, j))
    ensures Reachable(t)
    ensures t == s.(db := SetCut(SetJob(s.db, j, NewJob(Render, c, s.clock)), c, s.db.cuts[c].(status := CutRendering)),
                    runs := s.runs + [NewRun(j, 0, Sending(FromRouter))])
  {
    t := Go(s, TriggerRender(c, j));
    assert t.runs == s.runs + [NewRun(j, 0, Sending(FromRouter))];
  }

  lemma Waited(s: Sys, seconds: nat) returns (t: Sys)
    requires Reachable(s)
    ensures Reachable(t) && t == s.(clock := s.clock + seconds)
  {
    t := Go(s, Tick(seconds));
    assert t.runs == s.runs;
  }

  lemma Reaped(s: Sys, j: nat) returns (t: Sys)
    requires Reachable(s) && j in s.db.jobs && s.db.jobs[j].status == Running && Stale(s.db.jobs[j], s.clock)
    ensures Reachable(t)
    ensures t.db == ReapOne(s.db, j, Running, s.clock, s.clock) && t.picked == s.picked && t.clock == s.clock
    ensures t.runs == if Resumable(s.db.jobs[j], s.clock) then s.runs + [NewRun(j, 0, Sending(FromReaper))] else s.runs
  {
    t := Go(s, Reap(j, s.clock));
  }

  // ---------- Stretches of a publish ----------

  lemma PublishTriggered(s: Sys, c: nat, j: nat) returns (t: Sys)
    requires Reachable(s) && Enabled(s, TriggerPublish(c, j))
    ensures Reachable(t)
    ensures t == s.(db := SetCut(SetJob(s.db, j, NewJob(Publish, c, s.clock)), c,
                                 s.db.cuts[c].(status := CutPublishing)),
                    runs := s.runs + [NewRun(j, 0, Sending(FromRouter))])
  {
    t := Go(s, TriggerPublish(c, j));
    assert t.runs == s.runs + [NewRun(j, 0, Sending(FromRouter))];
  }

  /** The gate passes and the upload goes out. */
  lemma Uploaded(s: Sys, i: nat) returns (t: Sys)
    requires Reachable(s) && Enabled(s, PassGate(i)) && !s.runs[i].uploaded
    ensures Reachable(t) && t == s.(runs := s.runs[i := s.runs[i].(gated := true, uploaded := true)])
  {
    t := Go(s, PassGate(i));
    assert t.runs == s.runs[i := s.runs[i].(gated := true)];
    t := Go(t, Upload(i));
    assert t.runs == s.runs[i := s.runs[i].(gated := true, uploaded := true)];
  }

  lemma PostRecorded(s: Sys, i: nat, post: nat) returns (t: Sys)
    requires Reachable(s) && RunIn(s, i, Publish) && s.runs[i].uploaded && !s.runs[i].posted
    ensures Reachable(t)
    ensures
      var c := JobOf(s, i).ownerId;
      t == s.(db := SetCut(s.db, c, s.db.cuts[c].(postId := Some(post))),
              runs := s.runs[i := s.runs[i].(posted := true)])
  {
    t := Go(s, RecordPost(i, post));
    assert t.runs == s.runs[i := s.runs[i].(posted := true)];
  }

  // ---------- From enrichment to a guide ----------

  lemma Enriched(s: Sys, i: nat, g: nat) returns (t: Sys)
    requires Reachable(s) && Enabled(s, FinishEnrich(i, g)) && Lands(s, i)
    ensures Reachable(t)
    ensures t == s.(db := SetReel(SetJob(DoneStamp(s.db, s.runs[i].job, s.clock), g,
                                         NewJob(Generate, JobOf(s, i).ownerId, s.clock)),
                                  JobOf(s, i).ownerId, ReelGenerating),
                    runs := s.runs[i := s.runs[i].(phase := Ended)]
                      + [NewRun(g, 0, Sending(FromEnrich(s.runs[i].job)))])
  {
    t := Go(s, FinishEnrich(i, g));
    assert t.runs == s.runs[i := s.runs[i].(phase := Ended)] + [NewRun(g, 0, Sending(FromEnrich(s.runs[i].job)))];
  }

  lemma Generated(s: Sys, i: nat, guides: map<nat, Guide>) returns (t: Sys)
    requires Reachable(s) && Enabled(s, FinishGenerate(i, guides)) && Lands(s, i)
    ensures Reachable(t)
    ensures t == s.(db := WithGuides(SetReel(DoneStamp(s.db, s.runs[i].job, s.clock), JobOf(s, i).ownerId,
                                             ReelGuideReady), guides),
                    runs := s.runs[i := s.runs[i].(phase := Ended)])
  {
    t := Go(s, FinishGenerate(i, guides));
    assert t.runs == s.runs[i := s.runs[i].(phase := Ended)];
  }

  // ---------- A cut with a guide ----------

  const SAMPLE := Guide([Beat(0, Seconds(2.0), "kickoff", "", [], ""), Beat(1, Seconds(5.0), "crowd", "", [], ""),
                         Beat(2, Seconds(3.0), "trophy", "", [], "")], "")

  function DraftCut(g: Option<Guide>): Cut {
    Cut(1, CutDraft, g, {}, map[], None, None, None, None)
  }

  /** Reel 1 has its guide and cut 1 is a draft; two runs have ended. */
  function ReadyWith(g: Guide): Sys {
    Sys(
      Db(map[10 := Job(Enrich, 1, Done, 1, 0, 0, false, Some(0), 0),
             11 := Job(Generate, 1, Done, 1, 0, 0, false, Some(0), 0)],
         map[1 := Reel(ReelGuideReady)], map[1 := DraftCut(Some(g))]),
      [NewRun(10, 0, Ended).(claimTok := 1, tok := 1, view := ReelView(ReelEnriching)),
       NewRun(11, 0, Ended).(claimTok := 1, tok := 1, view := ReelView(ReelGenerating))],
      map[], 0)
  }

  const READY := ReadyWith(SAMPLE)

  const CREATED := Sys(
    Db(map[10 := NewJob(Enrich, 1, 0)], map[1 := Reel(ReelEnriching)], map[1 := DraftCut(None)]),
    [NewRun(10, 0, Sending(FromRouter))], map[], 0)

  const ENRICHING := Sys(
    Db(map[10 := Job(Enrich, 1, Running, 1, 0, 0, false, Some(0), 0)], CREATED.db.reels, CREATED.db.cuts),
    [NewRun(10, 0, Working).(claimTok := 1, tok := 1, view := ReelView(ReelEnriching))], map[], 0)

  const ENRICHED := Sys(
    Db(map[10 := READY.db.jobs[10], 11 := NewJob(Generate, 1, 0)], map[1 := Reel(ReelGenerating)], CREATED.db.cuts),
    [READY.runs[0], NewRun(11, 0, Sending(FromEnrich(10)))], map[], 0)

  const GENERATING := Sys(
    Db(map[10 := READY.db.jobs[10], 11 := Job(Generate, 1, Running, 1, 0, 0, false, Some(0), 0)], ENRICHED.db.reels,
       CREATED.db.cuts),
    [READY.runs[0], NewRun(11, 0, Working).(claimTok := 1, tok := 1, view := ReelView(ReelGenerating))], map[], 0)

  lemma CreatedIsReachable()
    ensures Reachable(CREATED)
  {
    InitReachable();
    var s := Go(INIT, CreateReel(1, {1}, 10));
    assert s.runs == CREATED.runs;
    assert s.db.cuts == CREATED.db.cuts;
  }

  lemma EnrichingIsReachable()
    ensures Reachable(ENRICHING)
  {
    CreatedIsReachable();
    var s := Started(CREATED, 0, ReelView(ReelEnriching));
    assert s == ENRICHING;
  }

  lemma EnrichedIsReachable()
    ensures Reachable(ENRICHED)
  {
    EnrichingIsReachable();
    var s := Enriched(ENRICHING, 0, 11);
    assert s == ENRICHED by {
      assert s.runs == ENRICHED.runs;
      assert s.db.jobs == ENRICHED.db.jobs;
    }
  }

  lemma GeneratingIsReachable()
    ensures Reachable(GENERATING)
  {
    EnrichedIsReachable();
    var s := Started(ENRICHED, 1, ReelView(ReelGenerating));
    assert s.runs == GENERATING.runs;
    assert s.db.jobs == GENERATING.db.jobs;
  }

  lemma ReadyIsReachable(g: Guide)
    ensures Reachable(ReadyWith(g))
  {
    GeneratingIsReachable();
    var s := Generated(GENERATING, 1, map[1 := g]);
    GeneratedRows(g);
    assert s == ReadyWith(g);
  }

  lemma GeneratedRows(g: Guide)
    ensures WithGuides(SetReel(DoneStamp(GENERATING.db, 11, 0), 1, ReelGuideReady), map[1 := g]) == ReadyWith(g).db
    ensures GENERATING.runs[1 := GENERATING.runs[1].(phase := Ended)] == ReadyWith(g).runs
  {
    var db := WithGuides(SetReel(DoneStamp(GENERATING.db, 11, 0), 1, ReelGuideReady), map[1 := g]);
    assert db.jobs == ReadyWith(g).db.jobs;
    assert db.cuts == ReadyWith(g).db.cuts;
  }
}
