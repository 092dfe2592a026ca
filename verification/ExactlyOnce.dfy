/** The failure recorders that re-run their write after a commit that may or may not have landed
    (`_finalize_or_reconnect`): once in effect, whatever the system does in between. */
module ExactlyOnce {
  import opened Wrappers
  import opened GuideEdit
  import opened PinFingerprint
  import opened Rows
  import opened Tx
  import opened System
  import opened Correspondence
  import opened Fencing
  import opened Sessions

  /** If the first commit did land, the second write finds the Job ended and changes nothing, after any
      events whatever. */
  lemma RewriteAfterLandingIsNothing(s: Sys, es: seq<Event>, j: nat, from: JobStatus, fence: Option<nat>, now: nat)
    requires Possible(s, es) && j in s.db.jobs && !s.db.jobs[j].Live() && from in {Pending, Running}
    ensures Fail(After(s, es).db, j, from, fence, now) == After(s, es).db
  {
    EndedForGood(s, es, j);
  }

  /** An owner that another Job has taken meanwhile is not touched. */
  lemma RewriteSparesANewOwner(w: Watch, db: Db, j: nat, k: nat, from: JobStatus, fence: Option<nat>, now: nat)
    requires Corresponds(w, db) && from in {Pending, Running}
    requires j in db.jobs && w.Covers(db.jobs[j].Owner()) && k != j && LiveFor(db, k, db.jobs[j].Owner())
    ensures Fail(db, j, from, fence, now) == db
  {
    if Matches(db, j, from, fence) {
      assert false;
    }
  }

  /** `db'` differs from `db` in that job `j` failed and the owner it alone answered for is free. */
  ghost predicate FailedAlone(db: Db, db': Db, j: nat) {
    && j in db.jobs && j in db'.jobs && db.jobs[j].Live()
    && db'.jobs == db.jobs[j := db'.jobs[j]] && db'.jobs[j].status == JobStatus.Failed
    && Flight(db', db.jobs[j].Owner()).None?
    && (forall o: Owner | o != db.jobs[j].Owner() :: Flight(db', o) == Flight(db, o))
    && (forall k | LiveFor(db, k, db.jobs[j].Owner()) :: k == j)
  }

  lemma FailsAlone(w: Watch, db: Db, j: nat, from: JobStatus, fence: Option<nat>, now: nat)
    requires Corresponds(w, db) && from in {Pending, Running} && Matches(db, j, from, fence)
    requires w.Covers(db.jobs[j].Owner())
    ensures FailedAlone(db, Fail(db, j, from, fence, now), j)
  {
    FailUnfolded(w, db, j, from, fence, now);
  }

  /** The owner of a Job never changes. */
  lemma {:induction false} OwnerStays(s: Sys, es: seq<Event>, j: nat)
    requires Possible(s, es) && j in s.db.jobs
    ensures j in After(s, es).db.jobs && After(s, es).db.jobs[j].Owner() == s.db.jobs[j].Owner()
    decreases |es|
  {
    if es != [] {
      RowsMoveOneWay(s, es[0], j);
      OwnerStays(Next(s, es[0]), es[1..], j);
    }
  }

  /** If the first commit was lost, the second write, after any events that sweep no watched owner, either
      finds the Job moved on and changes nothing, or fails this Job and frees the one owner it alone
      answers for. */
  lemma RewriteAfterLossIsTheOnlyWrite(w: Watch, s: Sys, es: seq<Event>, j: nat, from: JobStatus, fence: Option<nat>,
                                       now: nat)
    requires Inv(w, s) && Possible(s, es) && Nominal(w, s, es) && from in {Pending, Running}
    requires j in s.db.jobs && w.Covers(s.db.jobs[j].Owner())
    ensures
      var db, db' := After(s, es).db, Fail(After(s, es).db, j, from, fence, now);
      if Matches(db, j, from, fence) then FailedAlone(db, db', j) else db' == db
  {
    TraceKeepsInv(w, s, es);
    OwnerStays(s, es, j);
    if Matches(After(s, es).db, j, from, fence) {
      FailsAlone(w, After(s, es).db, j, from, fence, now);
    }
  }

  /** The rows on which the other sessions act while the recorder reconnects. */
  function Meanwhile(s: Sys, j: nat, from: JobStatus, fence: Option<nat>, now: nat, fault: CommitFault): Sys {
    s.(db := if fault.Lost? then s.db else Fail(s.db, j, from, fence, now))
  }

  /** The whole recorder, with the system at work in between: the Job fails once and frees the owner it
      alone answers for, whichever of the two commits does it, and nobody else's Job or owner is touched.
      A first commit that landed unseen makes the second write empty; after one that was lost the Job may
      have moved on, and then nothing is written at all. */
  lemma ReconnectIsExactlyOnce(w: Watch, s: Sys, es: seq<Event>, j: nat, from: JobStatus, fence: Option<nat>, now: nat,
                               fault: CommitFault, others: Db -> Db)
    requires Inv(w, s) && Matches(s.db, j, from, fence) && from in {Pending, Running} && w.Covers(s.db.jobs[j].Owner())
    requires Possible(Meanwhile(s, j, from, fence, now, fault), es)
    requires fault.Lost? ==> Nominal(w, s, es)
    requires others(Meanwhile(s, j, from, fence, now, fault).db)
             == After(Meanwhile(s, j, from, fence, now, fault), es).db
    ensures
      var first, final := Fail(s.db, j, from, fence, now), Finalized(s.db, j, from, fence, now, fault, others);
      match fault
      case Landed => FailedAlone(s.db, final, j)
      case Ambiguous => FailedAlone(s.db, first, j) && final == others(first)
      case Lost =>
        if Matches(others(s.db), j, from, fence) then FailedAlone(others(s.db), final, j) else final == others(s.db)
  {
    FailsAlone(w, s.db, j, from, fence, now);
    if fault.Lost? {
      assert Meanwhile(s, j, from, fence, now, fault) == s;
      RewriteAfterLossIsTheOnlyWrite(w, s, es, j, from, fence, now);
    } else {
      RewriteAfterLandingIsNothing(Meanwhile(s, j, from, fence, now, fault), es, j, from, fence, now);
    }
  }
}
