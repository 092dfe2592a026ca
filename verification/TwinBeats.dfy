/** Beats that share an index: exactly what the gate's soundness needs of a guide.

    Pins are keyed by beat index, and nothing makes the indices of a guide distinct. Two beats of one index
    and one direction share their pins: the second reuses what the first found. Two of different directions
    evict each other's. For every guide with such a pair there is a run in which no time passes, nothing
    fails and nobody interferes, and at whose end the gate lets a publish through although the video shows
    more than is pinned. */
module TwinBeats {
  import opened Wrappers
  import opened GuideEdit
  import opened PinFingerprint
  import opened Rows
  import opened Tx
  import opened System
  import opened Traces
  import opened Correspondence
  import opened Fencing
  import opened TimedExclusion
  import opened GateSoundness
  import opened Heartbeats

  /** The asset found for one beat of the render; no other beat finds anything. */
  function Found(g: Guide, a: nat): Pin
    requires a < |g.beats|
  {
    Pin(g.beats[a].index, 0, 7)
  }

  /** Beats `a` and `b` share an index but not a direction. */
  predicate Rivals(g: Guide, a: nat, b: nat) {
    a < b < |g.beats| && g.beats[a].index == g.beats[b].index && g.beats[a].direction != g.beats[b].direction
  }

  function Work(g: Guide): Cut {
    DraftCut(Some(g)).(status := CutRendering)
  }

  /** The cut while only pins of beat `a` are in its ledger. */
  function WorkWith(g: Guide, a: nat, pinned: set<Pin>): Cut
    requires a < |g.beats|
  {
    Work(g).(pins := pinned, resolvedFrom := map p | p in pinned :: g.beats[a].direction)
  }

  /** The render has done `n` beats: beat `a` found its asset, and `pinned` says whether it still is pinned. */
  ghost predicate Resolved(s: Sys, g: Guide, a: nat, n: nat, pinned: set<Pin>)
    requires a < |g.beats|
  {
    && Reachable(s) && s.clock == 0 && s.picked == map[] && |s.runs| == 3 && s.db.jobs.Keys == {10, 11, 12}
    && s.db.cuts == map[1 := WorkWith(g, a, pinned)] && pinned <= (if n > a then {Found(g, a)} else {})
    && Renders(s, 2) && Lands(s, 2) && JobOf(s, 2).ownerId == 1 && s.runs[2].view == CutView(Work(g))
    && s.runs[2].built == n <= |g.beats| && s.runs[2].builtPins == (if n > a then {Found(g, a)} else {})
    && !s.runs[2].resolving && s.runs[2].refreshed.None? && s.runs[2].pinsSeen.None?
  }

  lemma RenderStarts(g: Guide, a: nat) returns (s: Sys)
    requires a < |g.beats|
    ensures Resolved(s, g, a, 0, {})
  {
    ReadyIsReachable(g);
    s := RenderTriggered(ReadyWith(g), 1, 12);
    assert s.db.cuts == map[1 := Work(g)];
    s := Started(s, 2, CutView(Work(g)));
    assert WorkWith(g, a, {}) == Work(g);
  }

  lemma ReusesOne(s: Sys, g: Guide, a: nat, n: nat, pinned: set<Pin>) returns (t: Sys)
    requires a < |g.beats| && n < |g.beats| && Resolved(s, g, a, n, pinned)
    requires Reuses(WorkWith(g, a, pinned), g.beats[n].index, g.beats[n].direction)
    ensures Resolved(t, g, a, n + 1, pinned)
    ensures n > a && pinned == {Found(g, a)} && g.beats[n].direction == g.beats[a].direction
  {
    assert Found(g, a) in PinsOfBeat(pinned, g.beats[n].index);
    t := Reused(s, 2);
    assert t.runs[2].builtPins == {Found(g, a)};
  }

  /** Of two things found for one beat the ledger keeps the later. */
  lemma RepinnedWork(g: Guide, a: nat, n: nat, pinned: set<Pin>, pins: set<Pin>)
    requires a < |g.beats| && n < |g.beats| && pinned <= {Found(g, a)} && pins == if n == a then {Found(g, a)} else {}
    ensures RepinCut(WorkWith(g, a, pinned), g.beats[n].index, g.beats[n].direction, pins)
            == WorkWith(g, a, Repin(pinned, g.beats[n].index, pins))
  {
    var was := WorkWith(g, a, pinned).resolvedFrom;
    assert was - PinsOfBeat(pinned, g.beats[n].index) + (map p | p in pins :: g.beats[n].direction)
           == map p | p in Repin(pinned, g.beats[n].index, pins) :: g.beats[a].direction;
  }

  lemma ResolvesOne(s: Sys, g: Guide, a: nat, n: nat, pinned: set<Pin>) returns (t: Sys, after: set<Pin>)
    requires a < |g.beats| && n < |g.beats| && Resolved(s, g, a, n, pinned)
    requires !Reuses(WorkWith(g, a, pinned), g.beats[n].index, g.beats[n].direction)
    ensures Resolved(t, g, a, n + 1, after)
    ensures after == Repin(pinned, g.beats[n].index, if n == a then {Found(g, a)} else {})
  {
    var pins := if n == a then {Found(g, a)} else {};
    after := Repin(pinned, g.beats[n].index, pins);
    RepinnedWork(g, a, n, pinned, pins);
    t := Pinned(s, 2, pins);
    assert t.db.cuts == map[1 := WorkWith(g, a, after)];
    assert t.runs[2].builtPins == s.runs[2].builtPins + pins;
  }

  /** Whatever the beats in between, once the rival has come up nothing is pinned. */
  lemma {:induction false} ResolvesUpTo(g: Guide, a: nat, b: nat, n: nat) returns (s: Sys, pinned: set<Pin>)
    requires Rivals(g, a, b) && n <= |g.beats|
    ensures Resolved(s, g, a, n, pinned)
    ensures n > b ==> pinned == {}
    decreases n
  {
    if n == 0 {
      s := RenderStarts(g, a);
      pinned := {};
    } else {
      var before, was := ResolvesUpTo(g, a, b, n - 1);
      if Reuses(WorkWith(g, a, was), g.beats[n - 1].index, g.beats[n - 1].direction) {
        s := ReusesOne(before, g, a, n - 1, was);
        pinned := was;
      } else {
        s, pinned := ResolvesOne(before, g, a, n - 1, was);
      }
    }
  }

  ghost function RecordedTwin(g: Guide, a: nat): Cut
    requires a < |g.beats|
  {
    Work(g).(recorded := Some(Recording(g, {Found(g, a)})), pinsFp := Some(PinsFingerprint({})),
             guideFp := Some(GuideFp(g)))
  }

  lemma RenderEnds(g: Guide, a: nat, b: nat) returns (s: Sys)
    requires Rivals(g, a, b)
    ensures Reachable(s) && s.clock == 0 && s.picked == map[] && |s.runs| == 3 && s.db.jobs.Keys == {10, 11, 12}
    ensures s.db.cuts == map[1 := RecordedTwin(g, a).(status := CutInReview)]
  {
    var pinned;
    s, pinned := ResolvesUpTo(g, a, b, |g.beats|);
    assert WorkWith(g, a, {}) == Work(g);
    s := Snapped(s, 2, Work(g));
    s := Rendered(s, 2);
    assert s.db.cuts == map[1 := RecordedTwin(g, a).(status := CutInReview)];
  }

  /** The gate lets a publish of cut `c` through, on a video recorded from guide `g` with its pins'
      fingerprint. */
  ghost predicate Passing(s: Sys, g: Guide, c: nat, i: nat) {
    && Enabled(s, PassGate(i)) && JobOf(s, i).ownerId == c && c in s.db.cuts
    && s.db.cuts[c].pinsFp.Some? && s.db.cuts[c].recorded.Some?
    && s.db.cuts[c].recorded.value.guide == g && s.db.cuts[c].guide == Some(g)
  }

  /** What was recorded as shown is what is pinned. */
  ghost predicate ShowsItsPins(s: Sys, c: nat) {
    c in s.db.cuts && s.db.cuts[c].recorded.Some? && s.db.cuts[c].pins == s.db.cuts[c].recorded.value.pins
  }

  lemma PublishStarts(g: Guide, a: nat, s: Sys) returns (t: Sys)
    requires a < |g.beats| && Reachable(s) && s.clock == 0 && s.picked == map[] && |s.runs| == 3
    requires s.db.jobs.Keys == {10, 11, 12}
    requires s.db.cuts == map[1 := RecordedTwin(g, a).(status := CutInReview)]
    ensures Reachable(t) && t.clock == 0 && t.picked == map[] && RunIn(t, 3, Publish) && JobOf(t, 3).ownerId == 1
    ensures t.runs[3].view == CutView(RecordedTwin(g, a).(status := CutPublishing))
    ensures t.db.cuts == map[1 := RecordedTwin(g, a).(status := CutPublishing)]
  {
    t := Go(s, Approve(1));
    assert t.db.cuts == map[1 := RecordedTwin(g, a).(status := CutApproved)];
    t := PublishTriggered(t, 1, 13);
    assert t.db.cuts == map[1 := RecordedTwin(g, a).(status := CutPublishing)];
    t := Started(t, 3, CutView(RecordedTwin(g, a).(status := CutPublishing)));
  }

  lemma TwinPasses(g: Guide, a: nat, t: Sys)
    requires a < |g.beats| && RunIn(t, 3, Publish) && JobOf(t, 3).ownerId == 1
    requires t.runs[3].view == CutView(RecordedTwin(g, a).(status := CutPublishing))
    requires t.db.cuts == map[1 := RecordedTwin(g, a).(status := CutPublishing)]
    ensures Passing(t, g, 1, 3) && !ShowsItsPins(t, 1)
  {
    assert Found(g, a) in t.db.cuts[1].recorded.value.pins;
  }

  /** A run of the system that was healthy for the cut. */
  ghost predicate HealthyRun(c: nat, es: seq<Event>) {
    Possible(INIT, es) && Healthy(INIT, c, es)
  }

  /** Any guide with two beats of one index and different directions defeats the gate. */
  lemma TwinBeatsDefeatTheGate(g: Guide) returns (es: seq<Event>)
    requires !OneDirectionPerIndex(g)
    ensures HealthyRun(1, es) && Passing(After(INIT, es), g, 1, 3) && !ShowsItsPins(After(INIT, es), 1)
  {
    var a: nat, b: nat :|
      a < b < |g.beats| && g.beats[a].index == g.beats[b].index && g.beats[a].direction != g.beats[b].direction;
    var s := RenderEnds(g, a, b);
    s := PublishStarts(g, a, s);
    TwinPasses(g, a, s);
    es := TraceTo(s);
    CalmRunsAreHealthy(INIT, 1, es);
  }

  lemma OneDirectionShowsItsPins(g: Guide, c: nat, es: seq<Event>, i: nat)
    requires OneDirectionPerIndex(g) && HealthyRun(c, es) && Passing(After(INIT, es), g, c, i)
    ensures ShowsItsPins(After(INIT, es), c)
  {
    GateIsSound(c, es, PassGate(i));
  }

  /** Main result: the gate vouches for the pins of every video recorded from a guide exactly when beats of
      the guide that share an index share their direction. */
  lemma GateVouchesForPinsIff(g: Guide)
    ensures OneDirectionPerIndex(g) <==>
            forall c, es, i | HealthyRun(c, es) && Passing(After(INIT, es), g, c, i) :: ShowsItsPins(After(INIT, es), c)
  {
    if OneDirectionPerIndex(g) {
      forall c, es, i | HealthyRun(c, es) && Passing(After(INIT, es), g, c, i)
        ensures ShowsItsPins(After(INIT, es), c)
      {
        OneDirectionShowsItsPins(g, c, es, i);
      }
    } else {
      var es := TwinBeatsDefeatTheGate(g);
    }
  }
}
