/** What the reaper and the failure paths bring about, in the numbers of the code: a Job whose message was
    lost or whose worker died does not stay in flight, a transient failure is retried, and any other failure
    frees the owner. */
module Recovery {
  import opened Wrappers
  import opened GuideEdit
  import opened PinFingerprint
  import opened Rows
  import opened Tx
  import opened System
  import opened Steps
  import opened Correspondence

  /** The Job has failed with an error, its owner with it, and no other row changed. */
  ghost predicate FailsWithOwner(db: Db, db': Db, j: nat, now: nat) {
    && j in db.jobs
    && db'.jobs == db.jobs[j := db.jobs[j].(status := JobStatus.Failed, error := true, touched := now)]
    && match db.jobs[j].Owner()
       case OfReel(r) => r in db.reels && db'.reels == db.reels[r := Reel(ReelFailed)] && db'.cuts == db.cuts
       case OfCut(c) =>
         c in db.cuts && db'.cuts == db.cuts[c := db.cuts[c].(status := CutFailed)] && db'.reels == db.reels
  }

  lemma FailFrees(w: Watch, db: Db, j: nat, from: JobStatus, fence: Option<nat>, now: nat)
    requires Corresponds(w, db) && from in {Pending, Running} && Matches(db, j, from, fence)
    requires w.Covers(db.jobs[j].Owner())
    ensures FailsWithOwner(db, Fail(db, j, from, fence, now), j, now)
  {
    FailUnfolded(w, db, j, from, fence, now);
  }

  /** An owner that failed with its Job is in flight no more, so it can be asked for again. */
  lemma FailedOwnerIsFree(db: Db, db': Db, j: nat, now: nat)
    requires FailsWithOwner(db, db', j, now)
    ensures Flight(db', db.jobs[j].Owner()).None?
    ensures forall o: Owner | o != db.jobs[j].Owner() :: Flight(db', o) == Flight(db, o)
  {
  }

  // ---------- The reaper ----------

  /** Pending for more than four hours: its message was lost. */
  predicate NeverStarted(job: Job, asOf: nat) {
    job.status == Pending && job.touched + 4 * 60 * 60 < asOf
  }

  /** Running without a sign of life for more than five minutes: its worker is gone. */
  predicate StoppedBeating(job: Job, asOf: nat) {
    job.status == Running && (if job.beat.Some? then job.beat.value else job.touched) + 5 * 60 < asOf
  }

  /** Enrich and render Jobs are resumed twice, generate Jobs once, publish Jobs never. */
  predicate MayResume(job: Job) {
    match job.kind
    case Enrich => job.resumes < 2
    case Render => job.resumes < 2
    case Generate => job.resumes < 1
    case Publish => false
  }

  /** Main result: in any state the system reaches, a reaper's pass over a Job does what the Job's row calls
      for. A lost message fails the Job and its owner. A dead worker's Job goes back to pending with a new
      message while resumes are left, and fails with its owner after that. Any other Job is left alone. */
  lemma ReaperActs(w: Watch, es: seq<Event>, j: nat, asOf: nat)
    requires Possible(INIT, es) && Nominal(w, INIT, es) && j in After(INIT, es).db.jobs && asOf <= After(INIT, es).clock
    requires After(INIT, es).db.jobs[j].Live() && w.Covers(After(INIT, es).db.jobs[j].Owner())
    ensures Enabled(After(INIT, es), Reap(j, asOf)) && Reaped(After(INIT, es), j, asOf)
  {
    InitInv(w);
    TraceKeepsInv(w, INIT, es);
    ReapDecides(w, After(INIT, es), j, asOf);
  }

  ghost predicate Reaped(s: Sys, j: nat, asOf: nat)
    requires Enabled(s, Reap(j, asOf))
  {
    var job, t := s.db.jobs[j], Next(s, Reap(j, asOf));
    if StoppedBeating(job, asOf) && MayResume(job) then
      && t.db == s.db.(jobs := s.db.jobs[j := job.(status := Pending, resumes := job.resumes + 1, touched := s.clock)])
      && t.runs == s.runs + [NewRun(j, 0, Sending(FromReaper))]
    else if NeverStarted(job, asOf) || StoppedBeating(job, asOf) then
      FailsWithOwner(s.db, t.db, j, s.clock) && t.runs == s.runs
    else t.db == s.db && t.runs == s.runs
  }

  lemma ReapDecides(w: Watch, s: Sys, j: nat, asOf: nat)
    requires Inv(w, s) && j in s.db.jobs && asOf <= s.clock && s.db.jobs[j].Live() && w.Covers(s.db.jobs[j].Owner())
    ensures Enabled(s, Reap(j, asOf)) && Reaped(s, j, asOf)
  {
    var job := s.db.jobs[j];
    if StoppedBeating(job, asOf) && MayResume(job) {
      ReapResumes(s, j, asOf);
    } else {
      ReapFails(s, j, asOf);
      FailFrees(w, s.db, j, job.status, None, s.clock);
    }
  }

  lemma ReapResumes(s: Sys, j: nat, asOf: nat)
    requires j in s.db.jobs && asOf <= s.clock && StoppedBeating(s.db.jobs[j], asOf) && MayResume(s.db.jobs[j])
    ensures Enabled(s, Reap(j, asOf)) && Reaped(s, j, asOf)
  {
  }

  lemma ReapFails(s: Sys, j: nat, asOf: nat)
    requires j in s.db.jobs && asOf <= s.clock && s.db.jobs[j].Live()
    requires !(StoppedBeating(s.db.jobs[j], asOf) && MayResume(s.db.jobs[j]))
    ensures
      var job := s.db.jobs[j];
      var overdue := NeverStarted(job, asOf) || StoppedBeating(job, asOf);
      && Enabled(s, Reap(j, asOf)) && Next(s, Reap(j, asOf)).runs == s.runs
      && DbAfter(s, Reap(j, asOf)) == if overdue then Fail(s.db, j, job.status, None, s.clock) else s.db
  {
  }

  /** A row that turns pending, or appears, says when it did; so nobody takes a message for lost sooner than
      four hours after it was sent. */
  lemma PendingClockStarts(s: Sys, e: Event, j: nat)
    requires Enabled(s, e) && j in DbAfter(s, e).jobs && DbAfter(s, e).jobs[j].status == Pending
    requires j in s.db.jobs ==> s.db.jobs[j].status != Pending
    ensures DbAfter(s, e).jobs[j].touched == s.clock
  {
    if Ending(e) && !Finishes(e) {
      FailureStartsClock(s, e, j);
    } else {
      OtherStartsClock(s, e, j);
    }
  }

  lemma FailureStartsClock(s: Sys, e: Event, j: nat)
    requires Enabled(s, e) && Ending(e) && !Finishes(e)
    requires j in DbAfter(s, e).jobs && DbAfter(s, e).jobs[j].status == Pending
    requires j in s.db.jobs ==> s.db.jobs[j].status != Pending
    ensures DbAfter(s, e).jobs[j].touched == s.clock
  {
  }

  lemma OtherStartsClock(s: Sys, e: Event, j: nat)
    requires Enabled(s, e) && (Ending(e) ==> Finishes(e))
    requires j in DbAfter(s, e).jobs && DbAfter(s, e).jobs[j].status == Pending
    requires j in s.db.jobs ==> s.db.jobs[j].status != Pending
    ensures DbAfter(s, e).jobs[j].touched == s.clock
  {
  }

  /** Done without an error and untouched for more than fifteen minutes. */
  predicate LongDone(job: Job, asOf: nat) {
    job.status == Done && !job.error && job.touched + 15 * 60 < asOf
  }

  /** The orphan pass selects exactly done Jobs without an error that nothing touched for more than fifteen
      minutes and whose owner is in the state their type answers for; and what it then sweeps fails with its
      owner if all that still holds, fails alone if only the owner has moved on, and is left alone if not. */
  lemma OrphanPassActs(s: Sys, j: nat, asOf: nat)
    requires asOf <= s.clock && j in s.db.jobs
    ensures
      var job := s.db.jobs[j];
      var idle := LongDone(job, asOf);
      && (Enabled(s, SelectOrphan(j, asOf)) <==> idle && Flight(s.db, job.Owner()) == Some(job.kind))
      && (j in s.picked && s.picked[j] == asOf ==>
            var db' := DbAfter(s, SweepOrphan(j));
            if !idle then db' == s.db
            else if Flight(s.db, job.Owner()) == Some(job.kind) then FailsWithOwner(s.db, db', j, s.clock)
            else
              db' == s.db.(jobs := s.db.jobs[j := job.(status := JobStatus.Failed, error := true, touched := s.clock)]))
  {
    if j in s.picked && s.picked[j] == asOf { SweepActs(s.db, j, asOf, s.clock); }
  }

  lemma SweepActs(db: Db, j: nat, asOf: nat, now: nat)
    requires j in db.jobs
    ensures
      var job, db' := db.jobs[j], ReapOne(db, j, Done, asOf, now);
      var idle := LongDone(job, asOf);
      if !idle then db' == db
      else if Flight(db, job.Owner()) == Some(job.kind) then FailsWithOwner(db, db', j, now)
      else db' == db.(jobs := db.jobs[j := job.(status := JobStatus.Failed, error := true, touched := now)])
  {
  }

  // ---------- Failures of a run ----------

  /** How often a run that holds its Job may be retried. */
  function Retries(kind: JobKind): nat {
    match kind
    case Enrich => 0
    case Generate => 2
    case Render => 2
    case Publish => 0
  }

  /** The record has become its retry message, fenced as said. */
  predicate IsRetry(r: Run, r': Run, fence: Option<nat>) {
    r' == NewRun(r.job, r.retries + 1, Sending(FromRetry(fence)))
  }

  /** A body that fails while its run holds the Job: a transient failure goes back to pending with a retry
      message while retries are left, any other fails the Job and its owner. A run that was overtaken changes
      nothing. */
  lemma BodyFailureActs(w: Watch, s: Sys, i: nat, transient: bool)
    requires Inv(w, s) && Enabled(s, BodyFails(i, transient)) && w.Covers(JobOf(s, i).Owner())
    ensures BodyFailed(s, i, transient)
  {
    var r := s.runs[i];
    if !Lands(s, i) {
      OvertakenBodyFails(s, i, transient);
    } else if transient && r.retries < Retries(JobOf(s, i).kind) {
      BodyIsRetried(s, i);
    } else {
      BodyFailsForGood(s, i, transient);
      FailFrees(w, s.db, r.job, Running, Some(r.tok), s.clock);
    }
  }

  ghost predicate BodyFailed(s: Sys, i: nat, transient: bool)
    requires Enabled(s, BodyFails(i, transient))
  {
    var r, job := s.runs[i], JobOf(s, i);
    var r', db' := RunAfter(s, i, BodyFails(i, transient)), DbAfter(s, BodyFails(i, transient));
    if job.status != Running || job.token != r.tok then db' == s.db && r'.phase.Ended?
    else if transient && r.retries < Retries(job.kind) then
      && db'.reels == s.db.reels && db'.cuts == s.db.cuts
      && db'.jobs
         == s.db.jobs[r.job := job.(status := Pending, error := true, resets := job.resets + 1, touched := s.clock)]
      && IsRetry(r, r', Some(r.tok))
    else FailsWithOwner(s.db, db', r.job, s.clock) && r'.phase.Ended?
  }

  lemma OvertakenBodyFails(s: Sys, i: nat, transient: bool)
    requires Enabled(s, BodyFails(i, transient)) && !Lands(s, i)
    ensures BodyFailed(s, i, transient)
  {
  }

  lemma BodyIsRetried(s: Sys, i: nat)
    requires Enabled(s, BodyFails(i, true)) && Lands(s, i) && s.runs[i].retries < Retries(JobOf(s, i).kind)
    ensures BodyFailed(s, i, true)
  {
  }

  lemma BodyFailsForGood(s: Sys, i: nat, transient: bool)
    requires Enabled(s, BodyFails(i, transient)) && Lands(s, i)
    requires !transient || s.runs[i].retries >= Retries(JobOf(s, i).kind)
    ensures DbAfter(s, BodyFails(i, transient)) == Fail(s.db, s.runs[i].job, Running, Some(s.runs[i].tok), s.clock)
    ensures RunAfter(s, i, BodyFails(i, transient)).phase.Ended?
  {
  }

  /** A run that fails before it holds the Job: three tries for a transient failure, whatever the type; then
      a still pending Job fails with its owner. */
  lemma StartFailureActs(w: Watch, s: Sys, i: nat, transient: bool)
    requires Inv(w, s) && Enabled(s, PreclaimError(i, transient, false)) && w.Covers(JobOf(s, i).Owner())
    ensures
      var e, r := PreclaimError(i, transient, false), s.runs[i];
      if transient && r.retries < 3 then DbAfter(s, e) == s.db && IsRetry(r, RunAfter(s, i, e), None)
      else
        && RunAfter(s, i, e).phase.Ended?
        && (if JobOf(s, i).status == Pending then FailsWithOwner(s.db, DbAfter(s, e), r.job, s.clock)
            else DbAfter(s, e) == s.db)
  {
    if JobOf(s, i).status == Pending { FailFrees(w, s.db, s.runs[i].job, Pending, None, s.clock); }
  }

  /** A worker told to stop fails the Job it holds, and its owner. */
  lemma ShutdownActs(w: Watch, s: Sys, i: nat)
    requires Inv(w, s) && Enabled(s, Shutdown(i)) && w.Covers(JobOf(s, i).Owner())
    ensures
      var e, r, job := Shutdown(i), s.runs[i], JobOf(s, i);
      && RunAfter(s, i, e).phase.Ended?
      && (if job.status == Running && job.token == r.tok then FailsWithOwner(s.db, DbAfter(s, e), r.job, s.clock)
          else DbAfter(s, e) == s.db)
  {
    var r := s.runs[i];
    if Matches(s.db, r.job, Running, Some(r.tok)) { FailFrees(w, s.db, r.job, Running, Some(r.tok), s.clock); }
  }

  /** A first message or a retry the broker refuses: a Job nobody took meanwhile fails with its owner. */
  lemma RefusedMessageActs(w: Watch, s: Sys, i: nat, delivered: bool, cleanup: Cleanup)
    requires Inv(w, s) && Enabled(s, SendFails(i, delivered, cleanup)) && w.Covers(JobOf(s, i).Owner())
    requires s.runs[i].phase.origin.FromRouter? || s.runs[i].phase.origin.FromRetry?
    ensures
      var e, r, job := SendFails(i, delivered, cleanup), s.runs[i], JobOf(s, i);
      var fence := if r.phase.origin.FromRetry? then r.phase.origin.fence else None;
      if job.status == Pending && (fence.Some? ==> job.token == fence.value)
      then FailsWithOwner(s.db, DbAfter(s, e), r.job, s.clock) else DbAfter(s, e) == s.db
  {
    var r := s.runs[i];
    var fence := if r.phase.origin.FromRetry? then r.phase.origin.fence else None;
    if Matches(s.db, r.job, Pending, fence) { FailFrees(w, s.db, r.job, Pending, fence, s.clock); }
  }
}
