/** How often a Job can be claimed.

    Claims are conserved whatever the schedule: the token counts them, and each entry into pending
    (creation, retry reset, resume) is claimed once or not at all. With every message delivered at
    most once the number is bounded by the budgets. */
module Claims {
  import opened Wrappers
  import opened GuideEdit
  import opened PinFingerprint
  import opened Rows
  import opened Tx
  import opened System
  import opened Steps
  import opened Fencing

  // ---------- Conservation ----------

  /** `token` claims against 1 + resets + resumes entries into pending. */
  predicate Conserved(job: Job) {
    && job.resumes <= ResumeBudget(job.kind)
    && (match job.status
        case Pending => job.token == job.resets + job.resumes
        case Running => job.token == 1 + job.resets + job.resumes
        case Done => job.token == 1 + job.resets + job.resumes
        case Failed => job.resets + job.resumes <= job.token <= 1 + job.resets + job.resumes)
  }

  ghost predicate AllConserved(db: Db) {
    forall j | j in db.jobs :: Conserved(db.jobs[j])
  }

  /** Rows appear pending, unclaimed and with no history. */
  lemma NewRows(s: Sys, e: Event, j: nat)
    requires Enabled(s, e) && j in DbAfter(s, e).jobs && j !in s.db.jobs
    ensures exists kind, ownerId :: DbAfter(s, e).jobs[j] == NewJob(kind, ownerId, s.clock)
    ensures Spawned(s, e).Some? && Spawned(s, e).value.job == j && Spawned(s, e).value.retries == 0
  {
    var job := DbAfter(s, e).jobs[j];
    assert job == NewJob(job.kind, job.ownerId, s.clock);
  }

  /** Main result, for every run of the system: a running or done Job has been claimed exactly once per
      entry into pending, a pending one not yet for the last, and the reaper never exceeds its budget. */
  lemma {:induction false} ClaimsAreConserved(s: Sys, es: seq<Event>)
    requires AllConserved(s.db) && Possible(s, es)
    ensures AllConserved(After(s, es).db)
    decreases |es|
  {
    if es != [] {
      var t := Next(s, es[0]);
      forall j | j in t.db.jobs
        ensures Conserved(t.db.jobs[j])
      {
        if j in s.db.jobs {
          RowsMoveOneWay(s, es[0], j);
        } else {
          NewRows(s, es[0], j);
        }
      }
      ClaimsAreConserved(t, es[1..]);
    }
  }

  // ---------- Messages delivered at most once ----------

  /** How many more retry resets this message or run can still cause. */
  function Capacity(r: Run, j: nat, limit: nat): nat {
    if r.job == j && !r.phase.Ended? && r.retries < limit then limit - r.retries else 0
  }

  function TotalCapacity(runs: seq<Run>, j: nat, limit: nat): nat {
    if runs == [] then 0 else TotalCapacity(runs[..|runs| - 1], j, limit) + Capacity(runs[|runs| - 1], j, limit)
  }

  lemma {:induction false} CapacityOfUpdate(runs: seq<Run>, i: nat, r: Run, j: nat, limit: nat)
    requires i < |runs|
    ensures TotalCapacity(runs[i := r], j, limit)
            == TotalCapacity(runs, j, limit) - Capacity(runs[i], j, limit) + Capacity(r, j, limit)
  {
    var n := |runs| - 1;
    if i < n {
      CapacityOfUpdate(runs[..n], i, r, j, limit);
      assert runs[i := r][..n] == runs[..n][i := r];
    } else {
      assert runs[i := r][..n] == runs[..n];
    }
  }

  lemma {:induction false} NoRunsNoCapacity(runs: seq<Run>, j: nat, limit: nat)
    requires forall r | r in runs :: r.job != j
    ensures TotalCapacity(runs, j, limit) == 0
  {
    if runs != [] {
      NoRunsNoCapacity(runs[..|runs| - 1], j, limit);
    }
  }

  /** Resets made plus resets still possible never exceed what the chains started so far allow. */
  ghost predicate Bounded(s: Sys, j: nat) {
    && (forall r | r in s.runs :: r.job in s.db.jobs)
    && (j in s.db.jobs ==>
          var limit := MaxRetries(s.db.jobs[j].kind);
          s.db.jobs[j].resets + TotalCapacity(s.runs, j, limit) <= (1 + s.db.jobs[j].resumes) * limit)
  }

  /** An event never adds capacity to the run it acts on, and a retry reset costs the run one. */
  lemma ActingSpends(s: Sys, e: Event, i: nat, j: nat)
    requires Enabled(s, e) && Actor(e) == Some(i) && j in s.db.jobs
    ensures
      var limit := MaxRetries(s.db.jobs[j].kind);
      && j in DbAfter(s, e).jobs
      && DbAfter(s, e).jobs[j].resets + Capacity(RunAfter(s, i, e), j, limit)
         <= s.db.jobs[j].resets + Capacity(s.runs[i], j, limit)
      && DbAfter(s, e).jobs[j].resumes == s.db.jobs[j].resumes
  {
    RowsMoveOneWay(s, e, j);
    if e.BodyFails? {
      ResetSpends(s, e, j);
    } else {
      OnlyFailuresReset(s, e, j);
      ActingShrinks(s, e, i, j);
    }
  }

  lemma ActingShrinks(s: Sys, e: Event, i: nat, j: nat)
    requires Enabled(s, e) && Actor(e) == Some(i) && j in s.db.jobs
    ensures Capacity(RunAfter(s, i, e), j, MaxRetries(s.db.jobs[j].kind))
            <= Capacity(s.runs[i], j, MaxRetries(s.db.jobs[j].kind))
  {
    if Ending(e) { EndingRun(s, e, i); } else if InBody(e) { BodyRun(s, e, i); }
  }

  lemma ResetSpends(s: Sys, e: Event, j: nat)
    requires Enabled(s, e) && e.BodyFails? && j in s.db.jobs
    ensures
      var limit := MaxRetries(s.db.jobs[j].kind);
      && j in DbAfter(s, e).jobs
      && DbAfter(s, e).jobs[j].resets + Capacity(RunAfter(s, e.i, e), j, limit)
         <= s.db.jobs[j].resets + Capacity(s.runs[e.i], j, limit)
      && DbAfter(s, e).jobs[j].resumes == s.db.jobs[j].resumes
  {
    var r := s.runs[e.i];
    var retriable := e.transient && r.retries < MaxRetries(s.db.jobs[r.job].kind);
    RetrySpends(s.db, r, retriable, j, s.clock);
  }

  /** A retry reset of this row is paid for by the record that turns into the retry. */
  lemma RetrySpends(db: Db, r: Run, retriable: bool, j: nat, now: nat)
    requires j in db.jobs && r.job in db.jobs && r.Holder()
    requires retriable ==> r.retries < MaxRetries(db.jobs[r.job].kind)
    ensures
      var limit := MaxRetries(db.jobs[j].kind);
      var db' := if retriable then RetryReset(db, r.job, r.tok, now) else Fail(db, r.job, Running, Some(r.tok), now);
      var lands := Matches(db, r.job, Running, Some(r.tok));
      var r' := if retriable && lands then Retried(r, Some(r.tok)) else r.(phase := Ended);
      && j in db'.jobs
      && db'.jobs[j].resets + Capacity(r', j, limit) <= db.jobs[j].resets + Capacity(r, j, limit)
      && db'.jobs[j].resumes == db.jobs[j].resumes
  {
  }

  predicate ResumesRow(s: Sys, e: Event, j: nat)
    requires j in s.db.jobs
  {
    e.Reap? && e.job == j && Resumable(s.db.jobs[j], e.asOf)
  }

  lemma ReaperCounts(s: Sys, e: Event, j: nat)
    requires Enabled(s, e) && j in s.db.jobs && j in DbAfter(s, e).jobs && (e.Reap? || e.SweepOrphan?)
    ensures DbAfter(s, e).jobs[j].resets == s.db.jobs[j].resets
    ensures DbAfter(s, e).jobs[j].resumes == s.db.jobs[j].resumes + if ResumesRow(s, e, j) then 1 else 0
  {
  }

  lemma OthersCount(s: Sys, e: Event, j: nat)
    requires Enabled(s, e) && j in s.db.jobs && j in DbAfter(s, e).jobs
    requires !e.Reap? && !e.SweepOrphan? && !e.BodyFails?
    ensures DbAfter(s, e).jobs[j].resets == s.db.jobs[j].resets
    ensures DbAfter(s, e).jobs[j].resumes == s.db.jobs[j].resumes
  {
    if Ending(e) { EndingsCount(s, e, j); } else { GoingOnCounts(s, e, j); }
  }

  lemma EndingsCount(s: Sys, e: Event, j: nat)
    requires Enabled(s, e) && j in s.db.jobs && j in DbAfter(s, e).jobs && Ending(e) && !e.BodyFails?
    ensures DbAfter(s, e).jobs[j].resets == s.db.jobs[j].resets
    ensures DbAfter(s, e).jobs[j].resumes == s.db.jobs[j].resumes
  {
    if e.SendFails? { RefusalsCount(s, e, j); }
  }

  lemma RefusalsCount(s: Sys, e: Event, j: nat)
    requires Enabled(s, e) && j in s.db.jobs && j in DbAfter(s, e).jobs && e.SendFails?
    ensures DbAfter(s, e).jobs[j].resets == s.db.jobs[j].resets
    ensures DbAfter(s, e).jobs[j].resumes == s.db.jobs[j].resumes
  {
  }

  lemma GoingOnCounts(s: Sys, e: Event, j: nat)
    requires Enabled(s, e) && j in s.db.jobs && j in DbAfter(s, e).jobs && !Ending(e)
    requires !e.Reap? && !e.SweepOrphan?
    ensures DbAfter(s, e).jobs[j].resets == s.db.jobs[j].resets
    ensures DbAfter(s, e).jobs[j].resumes == s.db.jobs[j].resumes
  {
  }

  /** Only a body's failure resets a row, and only the reaper resumes one. */
  lemma OnlyFailuresReset(s: Sys, e: Event, j: nat)
    requires Enabled(s, e) && j in s.db.jobs && j in DbAfter(s, e).jobs && !e.BodyFails?
    ensures DbAfter(s, e).jobs[j].resets == s.db.jobs[j].resets
    ensures DbAfter(s, e).jobs[j].resumes == s.db.jobs[j].resumes + if ResumesRow(s, e, j) then 1 else 0
  {
    if e.Reap? || e.SweepOrphan? {
      ReaperCounts(s, e, j);
    } else {
      OthersCount(s, e, j);
    }
  }

  /** The records of the next state: at most one replaced, at most one added. */
  lemma RunsAfterAre(s: Sys, e: Event)
    requires Enabled(s, e)
    ensures
      var acted := if Actor(e).Some? then s.runs[Actor(e).value := RunAfter(s, Actor(e).value, e)] else s.runs;
      RunsAfter(s, e) == if Spawned(s, e).Some? then acted + [Spawned(s, e).value] else acted
  {
  }

  lemma TotalOfAppend(runs: seq<Run>, r: Run, j: nat, limit: nat)
    ensures TotalCapacity(runs + [r], j, limit) == TotalCapacity(runs, j, limit) + Capacity(r, j, limit)
  {
    assert (runs + [r])[..|runs|] == runs;
  }

  /** What the new record adds: nothing, unless it starts this job or resumes it. */
  lemma SpawnedAdds(s: Sys, e: Event, j: nat)
    requires Enabled(s, e) && j in s.db.jobs && Spawned(s, e).Some?
    requires e.Redeliver? ==> s.runs[e.i].job != j
    ensures Capacity(Spawned(s, e).value, j, MaxRetries(s.db.jobs[j].kind))
            <= if ResumesRow(s, e, j) then MaxRetries(s.db.jobs[j].kind) else 0
  {
  }

  /** One event, for a job that exists: resets made and still possible only grow by a resume's worth. */
  lemma CountStep(s: Sys, e: Event, j: nat)
    requires Enabled(s, e) && j in s.db.jobs && (e.Redeliver? ==> s.runs[e.i].job != j)
    ensures
      var limit, t := MaxRetries(s.db.jobs[j].kind), Next(s, e);
      && j in t.db.jobs && RowMoves(s.db.jobs[j], t.db.jobs[j])
      && t.db.jobs[j].resumes == s.db.jobs[j].resumes + (if ResumesRow(s, e, j) then 1 else 0)
      && t.db.jobs[j].resets + TotalCapacity(t.runs, j, limit)
         <= s.db.jobs[j].resets + TotalCapacity(s.runs, j, limit) + (if ResumesRow(s, e, j) then limit else 0)
  {
    var limit := MaxRetries(s.db.jobs[j].kind);
    RowsMoveOneWay(s, e, j);
    RunsAfterAre(s, e);
    var acted := s.runs;
    if Actor(e).Some? {
      var i := Actor(e).value;
      acted := s.runs[i := RunAfter(s, i, e)];
      CapacityOfUpdate(s.runs, i, RunAfter(s, i, e), j, limit);
      ActingSpends(s, e, i, j);
    } else {
      OnlyFailuresReset(s, e, j);
    }
    if Spawned(s, e).Some? {
      TotalOfAppend(acted, Spawned(s, e).value, j, limit);
      SpawnedAdds(s, e, j);
    }
  }

  /** One event, for the job it creates. */
  lemma BoundStart(s: Sys, e: Event, j: nat)
    requires Bounded(s, j) && Enabled(s, e) && j !in s.db.jobs && j in Next(s, e).db.jobs
    ensures
      var limit, t := MaxRetries(Next(s, e).db.jobs[j].kind), Next(s, e);
      t.db.jobs[j].resets + TotalCapacity(t.runs, j, limit) <= (1 + t.db.jobs[j].resumes) * limit
  {
    var limit := MaxRetries(Next(s, e).db.jobs[j].kind);
    NewRows(s, e, j);
    RunsAfterAre(s, e);
    NoRunsNoCapacity(s.runs, j, limit);
    var acted := s.runs;
    if Actor(e).Some? {
      var i := Actor(e).value;
      acted := s.runs[i := RunAfter(s, i, e)];
      ActingPhase(s, e, i);
      assert s.runs[i] in s.runs;
      CapacityOfUpdate(s.runs, i, RunAfter(s, i, e), j, limit);
    }
    TotalOfAppend(acted, Spawned(s, e).value, j, limit);
  }

  lemma RunsStayKnown(s: Sys, e: Event)
    requires Enabled(s, e) && forall r | r in s.runs :: r.job in s.db.jobs
    ensures forall r | r in Next(s, e).runs :: r.job in Next(s, e).db.jobs
  {
    var t := Next(s, e);
    forall i | 0 <= i < |t.runs|
      ensures t.runs[i].job in t.db.jobs
    {
      if i < |s.runs| {
        assert s.runs[i] in s.runs;
        RowsMoveOneWay(s, e, s.runs[i].job);
        if Actor(e) == Some(i) { ActingPhase(s, e, i); }
      } else {
        NewRecord(s, e);
      }
    }
  }

  /** The broker delivers no message of job `j` twice along the trace. */
  ghost predicate NoRedelivery(s: Sys, es: seq<Event>, j: nat)
    requires Possible(s, es)
    decreases |es|
  {
    es == [] || ((es[0].Redeliver? ==> s.runs[es[0].i].job != j) && NoRedelivery(Next(s, es[0]), es[1..], j))
  }

  lemma BoundedStep(s: Sys, e: Event, j: nat)
    requires Bounded(s, j) && Enabled(s, e) && (e.Redeliver? ==> s.runs[e.i].job != j)
    ensures Bounded(Next(s, e), j)
  {
    RunsStayKnown(s, e);
    if j in s.db.jobs {
      BoundKept(s, e, j);
    } else if j in Next(s, e).db.jobs {
      BoundStart(s, e, j);
    }
  }

  /** One event, for a job that exists. */
  lemma BoundKept(s: Sys, e: Event, j: nat)
    requires Bounded(s, j) && Enabled(s, e) && j in s.db.jobs && (e.Redeliver? ==> s.runs[e.i].job != j)
    ensures
      var t := Next(s, e);
      && j in t.db.jobs
      && var limit := MaxRetries(t.db.jobs[j].kind);
         t.db.jobs[j].resets + TotalCapacity(t.runs, j, limit) <= (1 + t.db.jobs[j].resumes) * limit
  {
    CountStep(s, e, j);
    OneMore(1 + s.db.jobs[j].resumes, MaxRetries(s.db.jobs[j].kind));
  }

  lemma OneMore(n: nat, limit: nat)
    ensures (n + 1) * limit == n * limit + limit
  {
  }

  lemma {:induction false} ResetsAreBounded(s: Sys, es: seq<Event>, j: nat)
    requires Bounded(s, j) && Possible(s, es) && NoRedelivery(s, es, j)
    ensures Bounded(After(s, es), j)
    decreases |es|
  {
    if es != [] {
      BoundedStep(s, es[0], j);
      ResetsAreBounded(Next(s, es[0]), es[1..], j);
    }
  }

  /** Main result: with each message of a Job delivered at most once, the Job is claimed at most
      (1 + resume budget)(1 + retry budget) times. */
  lemma ClaimsAreBounded(es: seq<Event>, j: nat)
    requires Possible(INIT, es) && NoRedelivery(INIT, es, j) && j in After(INIT, es).db.jobs
    ensures
      var job := After(INIT, es).db.jobs[j];
      job.token <= (1 + ResumeBudget(job.kind)) * (1 + MaxRetries(job.kind))
  {
    ClaimsAreConserved(INIT, es);
    ResetsAreBounded(INIT, es, j);
    var job := After(INIT, es).db.jobs[j];
    assert Conserved(job);
    var limit := MaxRetries(job.kind);
    assert job.token <= 1 + (1 + job.resumes) * limit + job.resumes;
    assert (1 + job.resumes) * limit <= (1 + ResumeBudget(job.kind)) * limit;
  }

  // ---------- Progress ----------

  function Rank(status: JobStatus): nat {
    match status
    case Pending => 3
    case Running => 2
    case Done => 1
    case Failed => 0
  }

  /** Resumes left, then resets left, then how far the row is from its end. */
  function Measure(s: Sys, j: nat): (int, int, int)
    requires j in s.db.jobs
  {
    var job := s.db.jobs[j];
    (ResumeBudget(job.kind) - job.resumes, TotalCapacity(s.runs, j, MaxRetries(job.kind)), Rank(job.status))
  }

  predicate Falls(a: (int, int, int), b: (int, int, int)) {
    b.0 < a.0 || (b.0 == a.0 && (b.1 < a.1 || (b.1 == a.1 && b.2 < a.2)))
  }

  predicate Natural(m: (int, int, int)) {
    m.0 >= 0 && m.1 >= 0 && m.2 >= 0
  }

  /** The measure has a floor in every state the system can reach. */
  lemma MeasureIsNatural(es: seq<Event>, j: nat)
    requires Possible(INIT, es) && j in After(INIT, es).db.jobs
    ensures Natural(Measure(After(INIT, es), j))
  {
    ClaimsAreConserved(INIT, es);
    assert Conserved(After(INIT, es).db.jobs[j]);
  }

  /** Every step that moves a Job makes its measure smaller, and no step makes it larger; as it never goes
      below zero (`MeasureIsNatural`), a Job moves finitely often. */
  lemma LifecycleMeasureFalls(s: Sys, e: Event, j: nat)
    requires Bounded(s, j) && Enabled(s, e) && j in s.db.jobs && (e.Redeliver? ==> s.runs[e.i].job != j)
    ensures j in Next(s, e).db.jobs
    ensures Falls(Measure(s, j), Measure(Next(s, e), j)) || Measure(Next(s, e), j) == Measure(s, j)
    ensures Next(s, e).db.jobs[j].status != s.db.jobs[j].status ==> Falls(Measure(s, j), Measure(Next(s, e), j))
  {
    CountStep(s, e, j);
  }

  // ---------- How often a Job moves ----------

  /** How often the Job's status changes over a run. */
  ghost function StatusChanges(s: Sys, es: seq<Event>, j: nat): nat
    requires Possible(s, es)
    decreases |es|
  {
    if es == [] then 0 else (if MovesStatus(s, es[0], j) then 1 else 0) + StatusChanges(Next(s, es[0]), es[1..], j)
  }

  ghost predicate MovesStatus(s: Sys, e: Event, j: nat)
    requires Enabled(s, e)
  {
    j in s.db.jobs && j in DbAfter(s, e).jobs && DbAfter(s, e).jobs[j].status != s.db.jobs[j].status
  }

  /** What the row itself tells of its past: claims, resets, resumes, and how it ended. */
  function Traveled(db: Db, j: nat): nat {
    if j !in db.jobs then 0
    else
      var job := db.jobs[j];
      job.token + job.resets + job.resumes
      + (match job.status case Pending => 0 case Running => 0 case Done => 1 case Failed => 2)
  }

  lemma TraveledStep(s: Sys, e: Event, j: nat)
    requires Enabled(s, e)
    ensures Traveled(DbAfter(s, e), j) >= Traveled(s.db, j) + if MovesStatus(s, e, j) then 1 else 0
  {
    if j in s.db.jobs { RowsMoveOneWay(s, e, j); }
  }

  lemma {:induction false} ChangesAreTraveled(s: Sys, es: seq<Event>, j: nat)
    requires Possible(s, es)
    ensures Traveled(After(s, es).db, j) >= Traveled(s.db, j) + StatusChanges(s, es, j)
    decreases |es|
  {
    if es != [] {
      TraveledStep(s, es[0], j);
      ChangesAreTraveled(Next(s, es[0]), es[1..], j);
    }
  }

  /** Main result: with each message delivered at most once, a Job changes its status at most
      2 (1 + resume budget)(1 + retry budget) + 2 times, whatever the schedule. */
  lemma LifecyclesAreBounded(es: seq<Event>, j: nat)
    requires Possible(INIT, es) && NoRedelivery(INIT, es, j) && j in After(INIT, es).db.jobs
    ensures
      var job := After(INIT, es).db.jobs[j];
      StatusChanges(INIT, es, j) <= 2 * (1 + ResumeBudget(job.kind)) * (1 + MaxRetries(job.kind)) + 2
  {
    ClaimsAreConserved(INIT, es);
    ClaimsAreBounded(es, j);
    ChangesAreTraveled(INIT, es, j);
    var job := After(INIT, es).db.jobs[j];
    assert Conserved(job);
    assert StatusChanges(INIT, es, j) <= 2 * job.token + 2;
    TwiceTheBound(job.token, 1 + ResumeBudget(job.kind), 1 + MaxRetries(job.kind));
  }

  lemma TwiceTheBound(token: nat, a: nat, b: nat)
    requires token <= a * b
    ensures 2 * token <= 2 * a * b
  {
    assert 2 * a * b == 2 * (a * b);
  }
}
