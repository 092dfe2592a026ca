/** The timing premise in an operator's terms.

    `TimedExclusion` asks for a fresh heartbeat on the row. Here the premise is about what each run does:
    its token read-back follows its claim, and its own beats follow each other, by no more than STALE. That
    the row is then fresh is a consequence, because a run that is on time is never overtaken and so its
    fenced beats land. */
module Heartbeats {
  import opened Wrappers
  import opened GuideEdit
  import opened PinFingerprint
  import opened Rows
  import opened Tx
  import opened System
  import opened Steps
  import opened Fencing
  import opened TimedExclusion
  import opened Correspondence
  import opened GateSoundness

  // ---------- What happens to the heartbeat column ----------

  /** Any event leaves a row's heartbeat alone or sets it to the present. */
  lemma BeatMoves(s: Sys, e: Event, j: nat)
    requires Enabled(s, e) && j in s.db.jobs
    ensures j in DbAfter(s, e).jobs && DbAfter(s, e).jobs[j].beat in {s.db.jobs[j].beat, Some(s.clock)}
  {
    if e.SendFails? {
      RefusalsKeepBeats(s, e, j);
    } else if Ending(e) {
      EndingsMoveBeats(s, e, j);
    } else {
      OthersMoveBeats(s, e, j);
    }
  }

  lemma RefusalsKeepBeats(s: Sys, e: Event, j: nat)
    requires Enabled(s, e) && j in s.db.jobs && e.SendFails?
    ensures j in DbAfter(s, e).jobs && DbAfter(s, e).jobs[j].beat == s.db.jobs[j].beat
  {
  }

  lemma EndingsMoveBeats(s: Sys, e: Event, j: nat)
    requires Enabled(s, e) && j in s.db.jobs && Ending(e) && !e.SendFails?
    ensures j in DbAfter(s, e).jobs && DbAfter(s, e).jobs[j].beat in {s.db.jobs[j].beat, Some(s.clock)}
  {
    if Finishes(e) { FinishesMoveBeats(s, e, j); } else { FailuresMoveBeats(s, e, j); }
  }

  lemma FinishesMoveBeats(s: Sys, e: Event, j: nat)
    requires Enabled(s, e) && j in s.db.jobs && Finishes(e)
    ensures j in DbAfter(s, e).jobs && DbAfter(s, e).jobs[j].beat in {s.db.jobs[j].beat, Some(s.clock)}
  {
  }

  lemma FailuresMoveBeats(s: Sys, e: Event, j: nat)
    requires Enabled(s, e) && j in s.db.jobs && Ending(e) && !e.SendFails? && !Finishes(e)
    ensures j in DbAfter(s, e).jobs && DbAfter(s, e).jobs[j].beat in {s.db.jobs[j].beat, Some(s.clock)}
  {
  }

  lemma OthersMoveBeats(s: Sys, e: Event, j: nat)
    requires Enabled(s, e) && j in s.db.jobs && !Ending(e)
    ensures j in DbAfter(s, e).jobs && DbAfter(s, e).jobs[j].beat in {s.db.jobs[j].beat, Some(s.clock)}
  {
  }

  lemma OwnBeatLands(s: Sys, e: Event, i: nat)
    requires Enabled(s, e) && (e == ClaimJob(i) || e == BeatJob(i)) && RunAfter(s, i, e).Active()
    requires e == BeatJob(i) ==> Lands(s, i)
    ensures s.runs[i].job in DbAfter(s, e).jobs && DbAfter(s, e).jobs[s.runs[i].job].beat == Some(s.clock)
  {
  }

  // ---------- Runs on time ----------

  /** When each run last showed a sign of life of its own: its claim, or a beat. */
  function LifeAfter(s: Sys, e: Event, life: map<nat, nat>): map<nat, nat> {
    match e
    case ClaimJob(i) => life[i := s.clock]
    case BeatJob(i) => life[i := s.clock]
    case _ => life
  }

  /** Every live run of the Job showed one no more than STALE ago. */
  ghost predicate OnTime(s: Sys, j: nat, life: map<nat, nat>) {
    forall i | 0 <= i < |s.runs| && s.runs[i].Active() && s.runs[i].job == j :: i in life && s.clock <= life[i] + STALE
  }

  /** The premise, in every state of the run but the last. */
  ghost predicate Punctual(s: Sys, es: seq<Event>, j: nat, life: map<nat, nat>)
    requires Possible(s, es)
    decreases |es|
  {
    es == [] || (OnTime(s, j, life) && Punctual(Next(s, es[0]), es[1..], j, LifeAfter(s, es[0], life)))
  }

  /** The row's heartbeat is no older than any live run's own sign of life. */
  ghost predicate RowKeepsUp(s: Sys, j: nat, life: map<nat, nat>) {
    && (forall i | i in life :: life[i] <= s.clock)
    && (forall i | 0 <= i < |s.runs| && s.runs[i].Active() && s.runs[i].job == j && i in life ::
          j in s.db.jobs && s.db.jobs[j].beat.Some? && life[i] <= s.db.jobs[j].beat.value)
  }

  lemma RunKeepsUp(s: Sys, e: Event, j: nat, life: map<nat, nat>, i: nat)
    requires TimedInv(s, j) && RowKeepsUp(s, j, life) && OnTime(s, j, life) && Enabled(s, e) && i < |Next(s, e).runs|
    requires Next(s, e).runs[i].Active() && Next(s, e).runs[i].job == j && i in LifeAfter(s, e, life)
    ensures var t := Next(s, e);
            j in t.db.jobs && t.db.jobs[j].beat.Some? && LifeAfter(s, e, life)[i] <= t.db.jobs[j].beat.value
  {
    if i == |s.runs| {
      NewRecord(s, e);
      assert false;
    }
    if Actor(e) == Some(i) { ActingPhase(s, e, i); }
    assert HoldsJob(s, s.runs[i]);
    if e == ClaimJob(i) || e == BeatJob(i) {
      OwnBeatLands(s, e, i);
    } else {
      BeatMoves(s, e, j);
    }
  }

  lemma KeepsUpStep(s: Sys, e: Event, j: nat, life: map<nat, nat>)
    requires TimedInv(s, j) && RowKeepsUp(s, j, life) && OnTime(s, j, life) && Enabled(s, e)
    ensures RowKeepsUp(Next(s, e), j, LifeAfter(s, e, life))
  {
    var t, later := Next(s, e), LifeAfter(s, e, life);
    forall i | 0 <= i < |t.runs| && t.runs[i].Active() && t.runs[i].job == j && i in later
      ensures j in t.db.jobs && t.db.jobs[j].beat.Some? && later[i] <= t.db.jobs[j].beat.value
    {
      RunKeepsUp(s, e, j, life, i);
    }
  }

  lemma OnTimeIsTimely(s: Sys, j: nat, life: map<nat, nat>)
    requires RowKeepsUp(s, j, life) && OnTime(s, j, life)
    ensures Timely(s, j)
  {
  }

  /** Main result: runs that are on time keep the row fresh. */
  lemma {:induction false} PunctualRunsAreTimely(s: Sys, es: seq<Event>, j: nat, life: map<nat, nat>)
    requires TimedInv(s, j) && RowKeepsUp(s, j, life) && Possible(s, es) && Punctual(s, es, j, life)
    ensures TimelyRun(s, es, j)
    decreases |es|
  {
    if es != [] {
      OnTimeIsTimely(s, j, life);
      TimedStep(s, es[0], j);
      KeepsUpStep(s, es[0], j, life);
      PunctualRunsAreTimely(Next(s, es[0]), es[1..], j, LifeAfter(s, es[0], life));
    }
  }

  /** And so, for any run of the system in which the runs of a Job are on time, no two bodies of it ever
      execute at once. */
  lemma PunctualBodiesExclude(es: seq<Event>, j: nat)
    requires Possible(INIT, es) && Punctual(INIT, es, j, map[])
    ensures
      var t := After(INIT, es);
      forall i, k | 0 <= i < |t.runs| && 0 <= k < |t.runs| && t.runs[i].job == j && t.runs[k].job == j
                    && t.runs[i].Active() && t.runs[k].Active() :: i == k
  {
    InitTimed(j);
    PunctualRunsAreTimely(INIT, es, j, map[]);
    BodiesExclude(INIT, es, j);
  }

  // ---------- The gate, under a premise on the runs of one cut ----------

  /** The runs of every Job of the cut are on time, in every state of the run but the last. */
  ghost predicate CutPunctual(s: Sys, es: seq<Event>, c: nat, life: map<nat, nat>)
    requires Possible(s, es)
    decreases |es|
  {
    es == [] || (&& (forall j | OnCut(s.db, j, c) :: OnTime(s, j, life))
                 && CutPunctual(Next(s, es[0]), es[1..], c, LifeAfter(s, es[0], life)))
  }

  ghost predicate CutKeepsUp(s: Sys, c: nat, life: map<nat, nat>) {
    && (forall i | i in life :: life[i] <= s.clock)
    && (forall j | OnCut(s.db, j, c) :: RowKeepsUp(s, j, life))
  }

  lemma CutIsTimely(s: Sys, c: nat, life: map<nat, nat>)
    requires CutKeepsUp(s, c, life) && forall j | OnCut(s.db, j, c) :: OnTime(s, j, life)
    ensures CutTimely(s, c)
  {
    forall j | OnCut(s.db, j, c)
      ensures Timely(s, j)
    {
      OnTimeIsTimely(s, j, life);
    }
  }

  lemma CutKeepsUpStep(s: Sys, c: nat, e: Event, life: map<nat, nat>)
    requires CutTimed(s, c) && CutKeepsUp(s, c, life) && Enabled(s, e)
    requires forall j | OnCut(s.db, j, c) :: OnTime(s, j, life)
    ensures CutKeepsUp(Next(s, e), c, LifeAfter(s, e, life))
  {
    forall j | OnCut(Next(s, e).db, j, c)
      ensures RowKeepsUp(Next(s, e), j, LifeAfter(s, e, life))
    {
      if j in s.db.jobs {
        RowsMoveOneWay(s, e, j);
        assert OnCut(s.db, j, c);
        KeepsUpStep(s, e, j, life);
      } else {
        NewJobKeepsUp(s, e, j, life);
      }
    }
  }

  lemma NewJobKeepsUp(s: Sys, e: Event, j: nat, life: map<nat, nat>)
    requires TokenInv(s) && Enabled(s, e) && j !in s.db.jobs && forall i | i in life :: life[i] <= s.clock
    ensures RowKeepsUp(Next(s, e), j, LifeAfter(s, e, life))
  {
    var t := Next(s, e);
    forall i | 0 <= i < |t.runs| && t.runs[i].job == j
      ensures !t.runs[i].Active()
    {
      if i < |s.runs| {
        assert TokenOk(s, s.runs[i]);
        if Actor(e) == Some(i) { ActingPhase(s, e, i); }
      } else {
        NewRecord(s, e);
      }
    }
  }

  /** Runs on time, and no harmful sweep of the cut, make it healthy. */
  lemma {:induction false} PunctualCutsAreHealthy(s: Sys, c: nat, es: seq<Event>, life: map<nat, nat>)
    requires CutTimed(s, c) && CutKeepsUp(s, c, life) && Possible(s, es)
    requires CutPunctual(s, es, c, life) && Nominal(WatchCut(c), s, es)
    ensures Healthy(s, c, es)
    decreases |es|
  {
    if es != [] {
      CutIsTimely(s, c, life);
      TimedStays(s, c, es[0]);
      CutKeepsUpStep(s, c, es[0], life);
      PunctualCutsAreHealthy(Next(s, es[0]), c, es[1..], LifeAfter(s, es[0], life));
    }
  }

  /** Main result, from what the runs themselves do: if the runs of this cut's Jobs read their token back
      and beat in time, and no sweep rolls the cut back, its gate vouches for its video. */
  lemma PunctualGateIsSound(c: nat, es: seq<Event>, e: Event)
    requires Possible(INIT, es) && CutPunctual(INIT, es, c, map[]) && Nominal(WatchCut(c), INIT, es)
    requires Enabled(After(INIT, es), e) && (e.PassGate? || e.Upload?) && JobOf(After(INIT, es), e.i).ownerId == c
    ensures Vouched(After(INIT, es).db.cuts[c])
  {
    InitGate(c);
    PunctualCutsAreHealthy(INIT, c, es, map[]);
    GateIsSound(c, es, e);
  }

  // ---------- Runs in which no time passes ----------

  /** Every live run's row has a heartbeat. */
  ghost predicate BeatsSet(s: Sys) {
    forall i | 0 <= i < |s.runs| && s.runs[i].Active() ::
           s.runs[i].job in s.db.jobs && s.db.jobs[s.runs[i].job].beat.Some?
  }

  lemma BeatsStaySet(s: Sys, e: Event)
    requires BeatsSet(s) && Enabled(s, e)
    ensures BeatsSet(Next(s, e))
  {
    var t := Next(s, e);
    forall i | 0 <= i < |t.runs| && t.runs[i].Active()
      ensures t.runs[i].job in t.db.jobs && t.db.jobs[t.runs[i].job].beat.Some?
    {
      LiveRunHasBeat(s, e, i);
    }
  }

  lemma LiveRunHasBeat(s: Sys, e: Event, i: nat)
    requires BeatsSet(s) && Enabled(s, e) && i < |Next(s, e).runs| && Next(s, e).runs[i].Active()
    ensures Next(s, e).runs[i].job in Next(s, e).db.jobs && Next(s, e).db.jobs[Next(s, e).runs[i].job].beat.Some?
  {
    if i == |s.runs| {
      SpawnedIsIdle(s, e);
      assert false;
    }
    if Actor(e) == Some(i) { ActingPhase(s, e, i); }
    if e == ClaimJob(i) { OwnBeatLands(s, e, i); } else { BeatMoves(s, e, s.runs[i].job); }
  }

  lemma SpawnedIsIdle(s: Sys, e: Event)
    requires Enabled(s, e) && Spawned(s, e).Some?
    ensures !Spawned(s, e).value.Active()
  {
  }

  /** A run in which no time passes and no orphan is ever selected is healthy for every cut. */
  lemma {:induction false} CalmRunsAreHealthy(s: Sys, c: nat, es: seq<Event>)
    requires BeatsSet(s) && Possible(s, es) && After(s, es).clock == 0 && After(s, es).picked == map[]
    ensures Healthy(s, c, es)
    decreases |es|
  {
    if es != [] {
      Monotone(s, es);
      BeatsStaySet(s, es[0]);
      CalmRunsAreHealthy(Next(s, es[0]), c, es[1..]);
    }
  }

  lemma {:induction false} Monotone(s: Sys, es: seq<Event>)
    requires Possible(s, es)
    ensures s.clock <= After(s, es).clock && s.picked.Keys <= After(s, es).picked.Keys
    decreases |es|
  {
    if es != [] { Monotone(Next(s, es[0]), es[1..]); }
  }

  /** And in such a run every Job's runs are on time. */
  lemma {:induction false} CalmRunsArePunctual(s: Sys, es: seq<Event>, j: nat, life: map<nat, nat>)
    requires Possible(s, es) && After(s, es).clock == 0
    requires forall i | 0 <= i < |s.runs| && s.runs[i].Active() :: i in life
    ensures Punctual(s, es, j, life)
    decreases |es|
  {
    if es != [] {
      Monotone(s, es);
      var t, later := Next(s, es[0]), LifeAfter(s, es[0], life);
      forall i | 0 <= i < |t.runs| && t.runs[i].Active()
        ensures i in later
      {
        if i == |s.runs| {
          SpawnedIsIdle(s, es[0]);
        } else if Actor(es[0]) == Some(i) {
          ActingPhase(s, es[0], i);
        }
      }
      CalmRunsArePunctual(t, es[1..], j, later);
    }
  }
}
