/** The committed transactions of the job lifecycle, each as a function on the database.

    A row lock plus the re-evaluated WHERE clause makes every compare-and-set atomic, so one committed
    transaction is one function application. `now` is the time of the write: every UPDATE of a job
    also sets its `updated_at`. */
module Tx {
  import opened Wrappers
  import opened Rows

  /** The WHERE clause of `_advance`: the row exists, is in `from`, and carries the fence's token when
      one is given. */
  predicate Matches(db: Db, j: nat, from: JobStatus, fence: Option<nat>) {
    && j in db.jobs
    && db.jobs[j].status == from
    && (fence.Some? ==> db.jobs[j].token == fence.value)
  }

  function SetJob(db: Db, j: nat, job: Job): Db {
    db.(jobs := db.jobs[j := job])
  }

  /** `rollback_owner`: fail the owner when it is still in the state jobs of this kind answer for. */
  function RollbackOwner(db: Db, o: Owner, kind: JobKind): Db {
    var frees := Flight(db, o) == Some(kind);
    db.(reels := if frees && o.OfReel? then db.reels[o.reel := Reel(ReelFailed)] else db.reels,
        cuts := if frees && o.OfCut? then db.cuts[o.cut := db.cuts[o.cut].(status := CutFailed)] else db.cuts)
  }

  /** The claim write: pending to running, and a fresh token. */
  function Claim(db: Db, j: nat, now: nat): Db {
    if !Matches(db, j, Pending, None) then db
    else
      var job := db.jobs[j];
      SetJob(db, j, job.(status := Running, beat := Some(now), token := job.token + 1, touched := now))
  }

  /** `heartbeat`, `lock_job` and the heartbeat thread. */
  function Heartbeat(db: Db, j: nat, tok: nat, now: nat): Db {
    if !Matches(db, j, Running, Some(tok)) then db
    else SetJob(db, j, db.jobs[j].(beat := Some(now), touched := now))
  }

  /** The start-of-body write (`started_at`, `attempts`, `progress`), which carries no fence. */
  function Touch(db: Db, j: nat, now: nat): Db
    requires j in db.jobs
  {
    SetJob(db, j, db.jobs[j].(touched := now))
  }

  /** `_fail_job`: fail the job out of `from` and free its owner. */
  function Fail(db: Db, j: nat, from: JobStatus, fence: Option<nat>, now: nat): Db {
    if !Matches(db, j, from, fence) then db
    else
      var job := db.jobs[j];
      RollbackOwner(SetJob(db, j, job.(status := JobStatus.Failed, error := true, touched := now)), job.Owner(),
                    job.kind)
  }

  /** `_fail_job_keep_owner`: done to failed; the cleanup hook answers for the owner. */
  function FailKeepOwner(db: Db, j: nat, now: nat): Db {
    if !Matches(db, j, Done, None) then db
    else SetJob(db, j, db.jobs[j].(status := JobStatus.Failed, error := true, touched := now))
  }

  /** The retry reset: running to pending under the run's own token. */
  function RetryReset(db: Db, j: nat, tok: nat, now: nat): Db {
    if !Matches(db, j, Running, Some(tok)) then db
    else
      var job := db.jobs[j];
      SetJob(db, j, job.(status := Pending, error := true, resets := job.resets + 1, touched := now))
  }

  /** The done-stamp alone; a body's own final writes land in the same transaction. */
  function DoneStamp(db: Db, j: nat, now: nat): Db
    requires j in db.jobs
  {
    SetJob(db, j, db.jobs[j].(status := Done, error := false, beat := Some(now), touched := now))
  }

  /** A Job row as the routers and `enrich_context` insert it. */
  function NewJob(kind: JobKind, ownerId: nat, now: nat): Job {
    Job(kind, ownerId, Pending, 0, 0, 0, false, None, now)
  }

  // ---------- Cleanup after a failed after_commit ----------

  /** `_abandon_generate`: fail the follow-up job unless it was claimed, and free the reel with it. */
  function Abandon(db: Db, reel: nat, g: nat, now: nat): Db {
    if !Matches(db, g, Pending, None) then db
    else RollbackOwner(SetJob(db, g, db.jobs[g].(status := JobStatus.Failed, error := true, touched := now)),
                       OfReel(reel), Generate)
  }

  /** The done-to-failed stamp and the hook, in one transaction. */
  function StampAndAbandon(db: Db, e: nat, g: nat, now: nat): Db {
    if !Matches(db, e, Done, None) then db
    else Abandon(FailKeepOwner(db, e, now), db.jobs[e].ownerId, g, now)
  }

  // ---------- The reaper ----------

  /** The staleness clause the reaper re-checks inside its UPDATE; `asOf` is when its pass began. */
  predicate Stale(job: Job, asOf: nat) {
    match job.status
    case Running => job.LastBeat() + STALE < asOf
    case Pending => job.touched + PENDING_STALE < asOf
    case Done => !job.error && job.touched + DONE_ORPHAN_STALE < asOf
    case Failed => false
  }

  predicate Resumable(job: Job, asOf: nat) {
    job.status == Running && Stale(job, asOf) && job.resumes < ResumeBudget(job.kind)
  }

  function Resume(db: Db, j: nat, now: nat): Db
    requires j in db.jobs
  {
    var job := db.jobs[j];
    SetJob(db, j, job.(status := Pending, resumes := job.resumes + 1, touched := now))
  }

  /** `_reap_one` for a job seen in status `seen`. */
  function ReapOne(db: Db, j: nat, seen: JobStatus, asOf: nat, now: nat): Db {
    if !Matches(db, j, seen, None) || !Stale(db.jobs[j], asOf) then db
    else if Resumable(db.jobs[j], asOf) then Resume(db, j, now)
    else Fail(db, j, seen, None, now)
  }

  /** The SELECT of `_done_orphan_candidates`: a stale done job without an error whose owner sits in the
      state jobs of its kind answer for. */
  predicate OrphanCandidate(db: Db, j: nat, asOf: nat) {
    && Matches(db, j, Done, None)
    && Stale(db.jobs[j], asOf)
    && Flight(db, db.jobs[j].Owner()) == Some(db.jobs[j].kind)
  }
}
