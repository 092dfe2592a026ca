/** Mutual exclusion of bodies, from the timing premise alone.

    The premise is about the runs of one Job only: while a run of it is alive (claimed and not over),
    the row's heartbeat is never older than STALE. The claim itself writes a heartbeat, so this also
    bounds how late the token may be read back. `Counterexamples.TwoRunsShareAToken` shows what happens
    without it. */
module TimedExclusion {
  import opened Wrappers
  import opened GuideEdit
  import opened PinFingerprint
  import opened Rows
  import opened Tx
  import opened System
  import opened Fencing

  ghost predicate Timely(s: Sys, j: nat) {
    forall i | 0 <= i < |s.runs| && s.runs[i].Active() && s.runs[i].job == j ::
      && s.runs[i].job in s.db.jobs
      && s.db.jobs[s.runs[i].job].beat.Some?
      && s.clock <= s.db.jobs[s.runs[i].job].beat.value + STALE
  }

  /** A live run holds its job: the row is running, under this run's own token. */
  predicate HoldsJob(s: Sys, r: Run) {
    && r.job in s.db.jobs
    && (r.Active() ==> s.db.jobs[r.job].status == Running && s.db.jobs[r.job].token == r.claimTok)
    && (r.Holder() ==> r.tok == r.claimTok)
  }

  ghost predicate TimedInv(s: Sys, j: nat) {
    TokenInv(s) && forall i | 0 <= i < |s.runs| && s.runs[i].job == j :: HoldsJob(s, s.runs[i])
  }

  /** The reaper neither resumes nor fails a job whose run is alive, whenever its pass began. */
  lemma LiveRunIsNeverReaped(s: Sys, i: nat, asOf: nat)
    requires i < |s.runs| && TimedInv(s, s.runs[i].job) && Timely(s, s.runs[i].job) && s.runs[i].Active()
    requires asOf <= s.clock
    ensures ReapOne(s.db, s.runs[i].job, s.db.jobs[s.runs[i].job].status, asOf, s.clock) == s.db
    ensures !Resumable(s.db.jobs[s.runs[i].job], asOf)
  {
    assert HoldsJob(s, s.runs[i]);
  }

  lemma OneRunPerJob(s: Sys, i: nat, k: nat)
    requires i < |s.runs| && k < |s.runs| && s.runs[i].Active() && s.runs[k].Active()
    requires s.runs[i].job == s.runs[k].job && TimedInv(s, s.runs[i].job)
    ensures i == k
  {
    assert HoldsJob(s, s.runs[i]) && HoldsJob(s, s.runs[k]);
  }

  lemma MessageLeavesRunning(s: Sys, e: Event, j: nat)
    requires Enabled(s, e) && j in s.db.jobs && s.db.jobs[j].status == Running
    requires e.SendFails? || e.ClaimJob? || e.PreclaimError? || e.ReadBackError?
    ensures j in DbAfter(s, e).jobs && DbAfter(s, e).jobs[j] == s.db.jobs[j]
  {
  }

  lemma BodyLeavesOthers(s: Sys, e: Event, j: nat)
    requires Enabled(s, e) && j in s.db.jobs && (e.BodyFails? || e.Shutdown?) && s.runs[e.i].job != j
    ensures j in DbAfter(s, e).jobs && DbAfter(s, e).jobs[j] == s.db.jobs[j]
  {
  }

  /** A running row that is not stale is changed by nobody but the live run that holds it. */
  lemma RunningRowIsLeftAlone(s: Sys, e: Event, j: nat)
    requires Enabled(s, e) && j in s.db.jobs && s.db.jobs[j].status == Running
    requires Actor(e).Some? ==> s.runs[Actor(e).value].job != j || !s.runs[Actor(e).value].Active()
    requires e.Reap? && e.job == j ==> ReapOne(s.db, j, Running, e.asOf, s.clock) == s.db
    ensures j in DbAfter(s, e).jobs && DbAfter(s, e).jobs[j] == s.db.jobs[j]
  {
    if e.SendFails? || e.ClaimJob? || e.PreclaimError? || e.ReadBackError? {
      MessageLeavesRunning(s, e, j);
    } else if e.BodyFails? || e.Shutdown? {
      BodyLeavesOthers(s, e, j);
    }
  }

  /** An actor that is still alive afterwards still holds its job. */
  lemma ActorHolds(s: Sys, e: Event, i: nat)
    requires Enabled(s, e) && Actor(e) == Some(i) && TimedInv(s, s.runs[i].job)
    ensures HoldsJob(Next(s, e), RunAfter(s, i, e))
  {
    assert HoldsJob(s, s.runs[i]) by { assert 0 <= i < |s.runs|; }
    ActingPhase(s, e, i);
    RowsMoveOneWay(s, e, s.runs[i].job);
    if RunAfter(s, i, e).Active() { StaysRunning(s, e, i); }
  }

  lemma StaysRunning(s: Sys, e: Event, i: nat)
    requires Enabled(s, e) && Actor(e) == Some(i) && RunAfter(s, i, e).Active()
    requires s.runs[i].Active() ==> JobOf(s, i).status == Running
    ensures s.runs[i].job in DbAfter(s, e).jobs && DbAfter(s, e).jobs[s.runs[i].job].status == Running
    ensures s.runs[i].Active() ==> DbAfter(s, e).jobs[s.runs[i].job].token == JobOf(s, i).token
  {
    if Ending(e) {
      EndingPhase(s, e, i);
      assert false;
    }
  }

  lemma TimedStep(s: Sys, e: Event, j: nat)
    requires TimedInv(s, j) && Timely(s, j) && Enabled(s, e)
    ensures TimedInv(Next(s, e), j)
  {
    TokenStep(s, e);
    var t := Next(s, e);
    if Actor(e).Some? && s.runs[Actor(e).value].job == j { ActorHolds(s, e, Actor(e).value); }
    if Actor(e).Some? { ActingPhase(s, e, Actor(e).value); }
    if Spawned(s, e).Some? { NewRecord(s, e); }
    forall i | 0 <= i < |t.runs| && t.runs[i].job == j
      ensures HoldsJob(t, t.runs[i])
    {
      if i < |s.runs| && Actor(e) != Some(i) { BystanderHolds(s, e, i); }
    }
  }

  lemma BystanderHolds(s: Sys, e: Event, i: nat)
    requires Enabled(s, e) && i < |s.runs| && Actor(e) != Some(i)
    requires TimedInv(s, s.runs[i].job) && Timely(s, s.runs[i].job)
    ensures HoldsJob(Next(s, e), s.runs[i])
  {
    var r := s.runs[i];
    assert HoldsJob(s, r);
    RowsMoveOneWay(s, e, r.job);
    if r.Active() {
      if Actor(e).Some? && s.runs[Actor(e).value].job == r.job && s.runs[Actor(e).value].Active() {
        OneRunPerJob(s, i, Actor(e).value);
      }
      if e.Reap? && e.job == r.job { LiveRunIsNeverReaped(s, i, e.asOf); }
      RunningRowIsLeftAlone(s, e, r.job);
    }
  }

  /** The premise holds in every state of the run but the last. */
  ghost predicate TimelyRun(s: Sys, es: seq<Event>, j: nat)
    requires Possible(s, es)
    decreases |es|
  {
    es == [] || (Timely(s, j) && TimelyRun(Next(s, es[0]), es[1..], j))
  }

  /** Main result: two bodies of one Job never execute at once, and every live run fences with the token
      of its own claim. */
  lemma {:induction false} BodiesExclude(s: Sys, es: seq<Event>, j: nat)
    requires TimedInv(s, j) && Possible(s, es) && TimelyRun(s, es, j)
    ensures TimedInv(After(s, es), j)
    ensures forall i, k | 0 <= i < |After(s, es).runs| && 0 <= k < |After(s, es).runs| && After(s, es).runs[i].job == j
              && After(s, es).runs[k].job == j && After(s, es).runs[i].Active()
                 && After(s, es).runs[k].Active() :: i == k
    decreases |es|
  {
    if es != [] {
      TimedStep(s, es[0], j);
      BodiesExclude(Next(s, es[0]), es[1..], j);
    } else {
      forall i, k | 0 <= i < |s.runs| && 0 <= k < |s.runs| && s.runs[i].job == j && s.runs[k].job == j
             && s.runs[i].Active() && s.runs[k].Active()
        ensures i == k
      {
        OneRunPerJob(s, i, k);
      }
    }
  }

  lemma InitTimed(j: nat)
    ensures TimedInv(INIT, j)
  {
  }
}
