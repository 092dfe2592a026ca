/** A database session and the lifecycle code of `worker/tasks/common.py` and `maintenance.py` on it.

    `durable` is what other sessions see; `work` is the open transaction: committed rows plus this
    session's own writes. Commits and rollbacks are only those the code makes, and where the code
    guards against one failing, the failure is an argument. Each recorder is proved to leave exactly the
    rows its event in `System` leaves. */
module Sessions {
  import opened Wrappers
  import opened GuideEdit
  import opened PinFingerprint
  import opened Rows
  import opened Tx
  import opened System
  import opened Recovery

  /** The value sets handed to `_advance`. */
  datatype Values = ClaimIt | BeatIt | ResetIt | FinishIt | FailIt

  function Applied(job: Job, v: Values, now: nat): Job {
    match v
    case ClaimIt => job.(status := Running, beat := Some(now), token := job.token + 1, touched := now)
    case BeatIt => job.(beat := Some(now), touched := now)
    case ResetIt => job.(status := Pending, error := true, resets := job.resets + 1, touched := now)
    case FinishIt => job.(status := Done, error := false, beat := Some(now), touched := now)
    case FailIt => job.(status := JobStatus.Failed, error := true, touched := now)
  }

  /** How a commit can go: it lands, it is lost, or it lands although the client is told it failed. */
  datatype CommitFault = Landed | Lost | Ambiguous

  /** The rows a failure write leaves that is repeated once when its commit reports a lost connection.
      `ExactlyOnce.ReconnectIsExactlyOnce` says what that amounts to. */
  function Finalized(before: Db, j: nat, from: JobStatus, fence: Option<nat>, now: nat, fault: CommitFault,
                     others: Db -> Db): Db {
    match fault
    case Landed => Fail(before, j, from, fence, now)
    case Lost => Fail(others(before), j, from, fence, now)
    case Ambiguous => Fail(others(Fail(before, j, from, fence, now)), j, from, fence, now)
  }

  /** How a cleanup hook ends; `ReleaseFails` is a hook that returned and whose savepoint then cannot be
      released. */
  datatype HookEnd = Returns | ReleaseFails | Raises | RaisesShutdown

  /** How the stamp and the hook together leave. */
  datatype Leaving = Normally | WithError | WithShutdown

  /** Which of the recovery steps fail. */
  datatype Faults = Faults(load: bool, savepoint: bool, rollback: bool, redo: bool)

  /** What the failure of a run that holds a token leaves in the state machine. */
  lemma ClaimedFailure(s: Sys, i: nat, transient: bool)
    requires Enabled(s, BodyFails(i, transient))
    ensures
      var r, e := s.runs[i], BodyFails(i, transient);
      var retriable := transient && r.retries < MaxRetries(JobOf(s, i).kind);
      && DbAfter(s, e) == (if retriable then RetryReset(s.db, r.job, r.tok, s.clock)
                           else Fail(s.db, r.job, Running, Some(r.tok), s.clock))
      && (RunAfter(s, i, e).phase.Sending? <==> retriable && Lands(s, i))
  {
  }

  /** And that of a run that never captured one. */
  lemma UnclaimedFailure(s: Sys, i: nat, transient: bool)
    requires Enabled(s, PreclaimError(i, transient, false)) || Enabled(s, ReadBackError(i, transient))
    ensures
      var r := s.runs[i];
      var e := if r.phase.Queued? then PreclaimError(i, transient, false) else ReadBackError(i, transient);
      var retriable := transient && r.retries < RetryBudget(JobOf(s, i).kind, false);
      && DbAfter(s, e) == (if retriable then s.db else Fail(s.db, r.job, Pending, None, s.clock))
      && (RunAfter(s, i, e).phase.Sending? <==> retriable)
  {
  }

  class Session {
    var durable: Db
    var work: Db
    var mark: Option<Db>

    constructor (db: Db)
      ensures durable == db && work == db && mark.None?
    {
      durable := db;
      work := db;
      mark := None;
    }

    // ---------- Transactions ----------

    method Rollback()
      modifies this
      ensures durable == old(durable) && work == old(durable) && mark.None?
    {
      work := durable;
      mark := None;
    }

    method Commit()
      modifies this
      ensures durable == old(work) && work == old(work) && mark.None?
    {
      durable := work;
      mark := None;
    }

    /** A commit that may fail; a failed transaction stays open until it is rolled back. */
    method TryCommit(fault: CommitFault) returns (ok: bool)
      modifies this
      ensures ok <==> fault.Landed?
      ensures durable == if fault.Lost? then old(durable) else old(work)
      ensures work == old(work)
    {
      if !fault.Lost? { durable := work; }
      ok := fault.Landed?;
    }

    method BeginNested()
      modifies this
      ensures durable == old(durable) && work == old(work) && mark == Some(old(work))
    {
      mark := Some(work);
    }

    // ---------- The fenced compare-and-set ----------

    /** `_advance`. */
    method Advance(j: nat, from: JobStatus, v: Values, fence: Option<nat>, now: nat) returns (ok: bool)
      modifies this`work
      ensures ok <==> Matches(old(work), j, from, fence)
      ensures work == if ok then SetJob(old(work), j, Applied(old(work).jobs[j], v, now)) else old(work)
    {
      ok := false;
      if j in work.jobs {
        var job := work.jobs[j];
        if job.status == from && (fence.None? || job.token == fence.value) {
          work := work.(jobs := work.jobs[j := Applied(job, v, now)]);
          ok := true;
        }
      }
    }

    /** `heartbeat`: commits the body's pending writes with the beat, or drops them and reports the job
        lost. */
    method Heartbeat(j: nat, tok: nat, now: nat) returns (lost: bool)
      modifies this
      ensures lost <==> !Matches(old(work), j, Running, Some(tok))
      ensures durable == if lost then old(durable) else Tx.Heartbeat(old(work), j, tok, now)
      ensures work == durable && mark.None?
    {
      var ok := Advance(j, Running, BeatIt, Some(tok), now);
      if !ok {
        Rollback();
        return true;
      }
      Commit();
      return false;
    }

    /** `lock_job`: the same fence, without the commit. */
    method LockJob(j: nat, tok: nat, now: nat) returns (lost: bool)
      modifies this
      ensures lost <==> !Matches(old(work), j, Running, Some(tok))
      ensures durable == old(durable)
      ensures work == if lost then durable else Tx.Heartbeat(old(work), j, tok, now)
    {
      var ok := Advance(j, Running, BeatIt, Some(tok), now);
      if !ok { Rollback(); }
      lost := !ok;
    }

    /** The end of `run`: the done-stamp commits everything the body left pending, or all of it is
        discarded because the run was reaped or superseded. */
    method Complete(j: nat, tok: nat, now: nat) returns (done: bool)
      modifies this
      ensures done <==> Matches(old(work), j, Running, Some(tok))
      ensures durable == if done then DoneStamp(old(work), j, now) else old(durable)
      ensures work == durable
    {
      done := Advance(j, Running, FinishIt, Some(tok), now);
      if done { Commit(); } else { Rollback(); }
    }

    // ---------- Owners ----------

    /** `transition` on a reel row; false is the ValueError. */
    method TransitionReel(r: nat, target: ReelStatus) returns (ok: bool)
      requires r in work.reels
      modifies this`work
      ensures ok <==> Allowed(REEL_TRANSITIONS, old(work).reels[r].status, target)
      ensures work == if ok then SetReel(old(work), r, target) else old(work)
    {
      ok := Allowed(REEL_TRANSITIONS, work.reels[r].status, target);
      if ok { work := work.(reels := work.reels[r := Reel(target)]); }
    }

    method TransitionCut(c: nat, target: CutStatus) returns (ok: bool)
      requires c in work.cuts
      modifies this`work
      ensures ok <==> Allowed(CUT_TRANSITIONS, old(work).cuts[c].status, target)
      ensures work == if ok then SetCut(old(work), c, old(work).cuts[c].(status := target)) else old(work)
    {
      ok := Allowed(CUT_TRANSITIONS, work.cuts[c].status, target);
      if ok { work := work.(cuts := work.cuts[c := work.cuts[c].(status := target)]); }
    }

    /** `rollback_owner`: a missing row, a row that moved on and a forbidden transition are all left
        alone; none of the in-flight states forbids failing. */
    method RollbackOwner(o: Owner, kind: JobKind)
      modifies this`work
      ensures work == Tx.RollbackOwner(old(work), o, kind)
    {
      match o
      case OfReel(r) =>
        if r !in work.reels { return; }
        if ReelFlight(work.reels[r].status) != Some(kind) { return; }
        var _ := TransitionReel(r, ReelFailed);
      case OfCut(c) =>
        if c !in work.cuts { return; }
        if CutFlight(work.cuts[c].status) != Some(kind) { return; }
        var _ := TransitionCut(c, CutFailed);
    }

    // ---------- Failure recorders ----------

    /** `_fail_job` (and, with no fence, `_fail_unclaimed`). */
    method FailJob(j: nat, from: JobStatus, fence: Option<nat>, now: nat) returns (ok: bool)
      modifies this`work
      ensures ok <==> Matches(old(work), j, from, fence)
      ensures work == Fail(old(work), j, from, fence, now)
    {
      ok := Advance(j, from, FailIt, fence, now);
      if !ok { return; }
      RollbackOwner(work.jobs[j].Owner(), work.jobs[j].kind);
    }

    /** `_fail_job_keep_owner`. */
    method FailJobKeepOwner(j: nat, now: nat) returns (ok: bool)
      modifies this`work
      ensures ok <==> Matches(old(work), j, Done, None)
      ensures work == FailKeepOwner(old(work), j, now)
    {
      ok := Advance(j, Done, FailIt, None, now);
    }

    /** `_settle_failure` for a run that has not committed its done-stamp (`claim` is None when it never
        captured a token): drop what the body left pending, then reset for a retry or fail. It leaves the
        rows of the corresponding event, and asks for a retry message exactly when that event schedules
        one. */
    method SettleFailure(j: nat, claim: Option<nat>, retries: nat, transient: bool, now: nat, ghost s: Sys,
                         ghost i: nat)
      returns (retry: bool)
      requires s.db == durable && s.clock == now && IsRun(s, i) && s.runs[i].job == j && s.runs[i].retries == retries
      requires claim.Some? ==> Enabled(s, BodyFails(i, transient)) && s.runs[i].tok == claim.value
      requires claim.None? ==> Enabled(s, PreclaimError(i, transient, false)) || Enabled(s, ReadBackError(i, transient))
      modifies this
      ensures work == durable
      ensures claim.Some? ==> durable == DbAfter(s, BodyFails(i, transient))
                              && (retry <==> RunAfter(s, i, BodyFails(i, transient)).phase.Sending?)
      ensures claim.None? ==>
                var e := if s.runs[i].phase.Queued? then PreclaimError(i, transient, false)
                    else ReadBackError(i, transient);
                durable == DbAfter(s, e) && (retry <==> RunAfter(s, i, e).phase.Sending?)
    {
      Rollback();
      var kind := work.jobs[j].kind;
      var retriable := transient && retries < RetryBudget(kind, claim.Some?);
      if claim.None? {
        UnclaimedFailure(s, i, transient);
        retry := SettleUnclaimed(j, retriable, now);
      } else {
        ClaimedFailure(s, i, transient);
        retry := SettleClaimed(j, claim.value, retriable, now);
      }
    }

    /** Its branch for a run that never captured a token: the row is as it was, or it fails while pending. */
    method SettleUnclaimed(j: nat, retriable: bool, now: nat) returns (retry: bool)
      requires work == durable
      modifies this
      ensures work == durable && retry == retriable
      ensures durable == if retriable then old(durable) else Fail(old(durable), j, Pending, None, now)
    {
      if retriable { return true; }
      var _ := FailJob(j, Pending, None, now);
      Commit();
      return false;
    }

    /** Its branch for a run that holds a token. */
    method SettleClaimed(j: nat, tok: nat, retriable: bool, now: nat) returns (retry: bool)
      requires work == durable
      modifies this
      ensures work == durable && (retry <==> retriable && Matches(old(durable), j, Running, Some(tok)))
      ensures durable == if retriable then RetryReset(old(durable), j, tok, now)
              else Fail(old(durable), j, Running, Some(tok), now)
    {
      if retriable {
        retry := Advance(j, Running, ResetIt, Some(tok), now);
        Commit();
        return;
      }
      var _ := FailJob(j, Running, Some(tok), now);
      Commit();
      return false;
    }

    /** `_finalize_or_reconnect` around a failure write. If the first commit reports a lost connection the
        whole sequence runs once more on a fresh session; by then other sessions have turned the rows
        into whatever `others` says. */
    method FinalizeOrReconnect(j: nat, from: JobStatus, fence: Option<nat>, now: nat, fault: CommitFault,
                               others: Db -> Db)
      modifies this
      ensures durable == Finalized(old(durable), j, from, fence, now, fault, others) && work == durable
    {
      Rollback();
      var _ := FailJob(j, from, fence, now);
      var ok := TryCommit(fault);
      if !ok {
        durable := others(durable);
        Rollback();
        var _ := FailJob(j, from, fence, now);
        Commit();
      }
    }

    // ---------- Cleanup after a failed after_commit ----------

    /** `_recover_from_hook_failure`: scoped rollback, else full rollback and the stamp redone. The full
        rollback lets go of the row lock, so by the redo other sessions may have turned the rows into
        what `others` says. True means the open transaction holds the fail-stamp and none of the hook's
        writes. */
    method RecoverFromHookFailure(j: nat, now: nat, f: Faults, others: Db -> Db) returns (confirmed: bool)
      requires mark.Some? && mark.value == FailKeepOwner(durable, j, now) && Matches(durable, j, Done, None)
      modifies this
      ensures durable == Base(old(durable), f, others)
      ensures confirmed ==> Matches(durable, j, Done, None) && work == FailKeepOwner(durable, j, now)
      ensures f.savepoint && f.rollback ==> work == old(work)
      ensures !(f.savepoint && f.rollback) ==> work == FailKeepOwner(durable, j, now) || work == durable
      ensures confirmed <==> !f.savepoint || (!f.rollback && !f.redo && Matches(durable, j, Done, None))
    {
      if !f.savepoint {
        work := mark.value;
        mark := None;
        return true;
      }
      if f.rollback { return false; }
      durable := others(durable);
      Rollback();
      if f.redo { return false; }
      confirmed := FailJobKeepOwner(j, now);
    }

    /** `_stamp_failed_and_run_cleanup`. `hook` is what `after_commit_failed` has written by the time it
        ends, whole or partial. A shutdown raised by the hook commits before it propagates. */
    method StampFailedAndRunCleanup(j: nat, now: nat, hook: Db -> Db, end: HookEnd, f: Faults, others: Db -> Db,
                                    fault: CommitFault)
      returns (leaving: Leaving)
      requires work == durable && mark.None?
      modifies this
      ensures !Matches(old(durable), j, Done, None) ==> work == old(durable) && durable == old(durable)
      ensures Matches(old(durable), j, Done, None) && !f.load && (end.Returns? || end.ReleaseFails?) ==>
                work == hook(FailKeepOwner(old(durable), j, now)) && durable == old(durable)
      ensures Matches(old(durable), j, Done, None) && f.load ==>
                work == FailKeepOwner(old(durable), j, now) && durable == old(durable)
      ensures Matches(old(durable), j, Done, None) && !f.load && (end.Raises? || end.RaisesShutdown?) ==>
                AfterHook(old(durable), work, j, now, hook, f, others)
                && durable == if end.RaisesShutdown? && !fault.Lost? then work else Base(old(durable), f, others)
      ensures leaving.WithShutdown? <==> Matches(old(durable), j, Done, None) && !f.load && end.RaisesShutdown?
      ensures leaving.WithError? <==> Matches(old(durable), j, Done, None) && !f.load && end.ReleaseFails?
    {
      leaving := Normally;
      var stamped := FailJobKeepOwner(j, now);
      if !stamped || f.load { return; }
      BeginNested();
      work := hook(work);
      match end
      case Returns =>
        mark := None;
      case ReleaseFails =>
        leaving := WithError;
      case Raises =>
        var _ := RecoverFromHookFailure(j, now, f, others);
      case RaisesShutdown =>
        var _ := RecoverFromHookFailure(j, now, f, others);
        var _ := TryCommit(fault);
        leaving := WithShutdown;
    }

    /** `_settle_failure` for a run that had stamped its job done when `after_commit` failed: nothing is
        retried, the stamp becomes a failure and the hook cleans up. `g` is the follow-up job the hook
        abandons; `partial` is what it has written when it raises instead. An error that leaves the
        recorder is swallowed by the caller, whose session closes and drops what is pending. */
    method SettleCommitted(e: nat, g: nat, now: nat, partial: Db -> Db, end: HookEnd, f: Faults, others: Db -> Db,
                           fault: CommitFault)
      requires e in durable.jobs
      modifies this
      ensures work == durable
      ensures var recovers := Matches(old(durable), e, Done, None) && !f.load && (end.Raises? || end.RaisesShutdown?);
              !(recovers && f.savepoint && f.rollback) ==>
                OneOfThree(if recovers then Base(old(durable), f, others) else old(durable), durable, e, g, now)
      ensures Matches(old(durable), e, Done, None) && !f.load && end.Returns?
              ==> durable == StampAndAbandon(old(durable), e, g, now)
      ensures Matches(old(durable), e, Done, None) && !f.load && end.Raises? && !f.savepoint ==>
                durable == FailKeepOwner(old(durable), e, now)
      ensures Matches(old(durable), e, Done, None) && f.load ==> durable == FailKeepOwner(old(durable), e, now)
    {
      Rollback();
      var reel := work.jobs[e].ownerId;
      var hook := if end.Returns? || end.ReleaseFails? then (db: Db) => Abandon(db, reel, g, now) else partial;
      var leaving := StampFailedAndRunCleanup(e, now, hook, end, f, others, fault);
      if leaving.Normally? { Commit(); } else { Rollback(); }
    }

    // ---------- The reaper ----------

    /** `_reap_one`: the resume first, in its own transaction, else the failure. The status the SELECT saw
        and the staleness are re-checked in the writes. */
    method ReapOne(j: nat, seen: JobStatus, asOf: nat, now: nat) returns (acted: bool, enqueue: bool)
      requires j in durable.jobs
      modifies this
      ensures durable == Tx.ReapOne(old(durable), j, seen, asOf, now) && work == durable
      ensures enqueue <==>
                seen == Running && StoppedBeating(old(durable).jobs[j], asOf) && MayResume(old(durable).jobs[j])
      ensures acted <==>
                && old(durable).jobs[j].status == seen
                && (|| NeverStarted(old(durable).jobs[j], asOf) || StoppedBeating(old(durable).jobs[j], asOf)
                    || LongDone(old(durable).jobs[j], asOf))
    {
      Rollback();
      var job := work.jobs[j];
      if ResumeBudget(job.kind) > 0 && seen == Running {
        if job.status == seen && Stale(job, asOf) && job.resumes < ResumeBudget(job.kind) {
          work := work.(jobs := work.jobs[j := job.(status := Pending, resumes := job.resumes + 1, touched := now)]);
          Commit();
          return true, true;
        }
        Rollback();
      }
      if work.jobs[j].status != seen || !Stale(work.jobs[j], asOf) {
        Rollback();
        return false, false;
      }
      var _ := FailJob(j, seen, None, now);
      Commit();
      return true, false;
    }
  }

  /** The outcomes the state machine has for a cleanup: nothing recorded, the stamp alone, or all of it. */
  predicate OneOfThree(base: Db, after: Db, e: nat, g: nat, now: nat) {
    after == base || after == FailKeepOwner(base, e, now) || after == StampAndAbandon(base, e, g, now)
  }

  /** The committed rows the recovery ends up on. */
  function Base(before: Db, f: Faults, others: Db -> Db): Db {
    if f.savepoint && !f.rollback then others(before) else before
  }

  /** What the open transaction can hold after a hook that raised: the stamp alone, nothing (when the
      stamp could not be redone), or, only if both rollbacks failed, the hook's partial writes. */
  predicate AfterHook(before: Db, after: Db, j: nat, now: nat, hook: Db -> Db, f: Faults, others: Db -> Db) {
    var base := Base(before, f, others);
    if f.savepoint && f.rollback then after == hook(FailKeepOwner(before, j, now))
    else if !f.savepoint then after == FailKeepOwner(base, j, now)
    else after == FailKeepOwner(base, j, now) || after == base
  }

  // ---------- What the cleanup can commit ----------

  /** Unless both rollbacks fail, whatever gets committed after a failed after_commit is, on the rows it
      is committed over, one of the three outcomes the state machine has for it. */
  lemma CleanupOutcomes(before: Db, after: Db, e: nat, g: nat, now: nat, end: HookEnd, f: Faults, others: Db -> Db)
    requires Matches(before, e, Done, None)
    requires !(f.savepoint && f.rollback)
    requires end.Returns? ==>
               !f.savepoint && after == Abandon(FailKeepOwner(before, e, now), before.jobs[e].ownerId, g, now)
    requires !end.Returns? ==> exists partial: Db -> Db :: AfterHook(before, after, e, now, partial, f, others)
    ensures var base := Base(before, f, others);
            OneOfThree(base, after, e, g, now)
  {
  }

  /** And the exception is real: with both rollbacks failing, half a cleanup (the follow-up job failed,
      its reel left generating), which is none of the three outcomes, is what a commit that follows would
      make durable. */
  lemma HalfACleanup(before: Db, e: nat, g: nat, now: nat, others: Db -> Db)
    requires Matches(before, e, Done, None) && Matches(before, g, Pending, None)
    requires before.jobs[e].ownerId in before.reels && before.reels[before.jobs[e].ownerId].status == ReelGenerating
    ensures exists partial: Db -> Db, after: Db ::
              && AfterHook(before, after, e, now, partial, Faults(false, true, true, false), others)
              && after.reels == before.reels && after.jobs.Keys == before.jobs.Keys
              && after.jobs[g].status == JobStatus.Failed && after.jobs[e].status == JobStatus.Failed
              && after.reels[before.jobs[e].ownerId].status == ReelGenerating
              && !OneOfThree(before, after, e, g, now)
  {
    var partial := (db: Db) =>
      if g !in db.jobs then db
      else SetJob(db, g, db.jobs[g].(status := JobStatus.Failed, error := true, touched := now));
    var after := partial(FailKeepOwner(before, e, now));
    assert after.jobs[e].status != before.jobs[e].status;
    assert after.jobs[g].status != FailKeepOwner(before, e, now).jobs[g].status;
    assert StampAndAbandon(before, e, g, now).reels[before.jobs[e].ownerId].status == ReelFailed;
    assert AfterHook(before, after, e, now, partial, Faults(false, true, true, false), others);
  }
}
