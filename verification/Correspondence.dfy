/** The owner/Job correspondence: an owner is in flight exactly when one live Job answers for it.

    Every event keeps it except one. The done-orphan sweep, when it rolls an owner back, always breaks
    it; `StepKeepsCorrespondenceIff` and `EveryCandidateIsAFalsePositive` say exactly when and why, and
    `Counterexamples.SweepFailsALiveRender` gives a run of the system in which it happens. The damage
    stays on the cut that was swept: everything is stated for the watched owners only. */
module Correspondence {
  import opened Wrappers
  import opened GuideEdit
  import opened PinFingerprint
  import opened Rows
  import opened Tx
  import opened System
  import opened Steps

  // ---------- The invariant ----------

  /** The owners a statement is about: all of them, the reels and one cut, or the reels alone. What goes
      wrong on a cut that is not watched does not matter to those that are. */
  datatype Watch = WatchAll | WatchCut(cut: nat) | WatchReels {
    predicate Covers(o: Owner) { WatchAll? || o.OfReel? || (WatchCut? && o == OfCut(cut)) }
  }

  ghost predicate LiveFor(db: Db, j: nat, o: Owner) {
    j in db.jobs && db.jobs[j].Live() && db.jobs[j].Owner() == o
  }

  /** For every watched owner: it is in the state its live Job's kind answers for; it has at most one live
      Job; and in flight it has one. */
  ghost predicate Corresponds(w: Watch, db: Db) {
    && (forall j | j in db.jobs && db.jobs[j].Live() && w.Covers(db.jobs[j].Owner()) ::
          Flight(db, db.jobs[j].Owner()) == Some(db.jobs[j].kind))
    && (forall j, k | j in db.jobs && k in db.jobs && db.jobs[j].Live() && db.jobs[k].Live()
                      && db.jobs[j].Owner() == db.jobs[k].Owner() && w.Covers(db.jobs[j].Owner()) :: j == k)
    && (forall o: Owner | w.Covers(o) && Flight(db, o).Some? :: exists j :: LiveFor(db, j, o))
  }

  /** What one job says about its owner besides: a generate job and its reel end together, a done
      publish leaves its cut published. */
  predicate TellsStory(w: Watch, db: Db, job: Job) {
    match job.kind
    case Enrich => job.ownerId in db.reels
    case Generate =>
      && job.ownerId in db.reels
      && (job.Live() <==> db.reels[job.ownerId].status == ReelGenerating)
      && (job.status == Done <==> db.reels[job.ownerId].status == ReelGuideReady)
      && (job.status == JobStatus.Failed <==> db.reels[job.ownerId].status == ReelFailed)
    case Render => job.ownerId in db.cuts && db.cuts[job.ownerId].guide.Some?
    case Publish =>
      && job.ownerId in db.cuts && db.cuts[job.ownerId].guide.Some?
      && (job.status == Done && w.Covers(OfCut(job.ownerId)) ==> db.cuts[job.ownerId].status == CutPublished)
  }

  predicate FreshCut(db: Db, cut: Cut) {
    && cut.reelId in db.reels
    && (cut.guide.None? ==> cut.status == CutDraft && cut.pins == {} && cut.recorded.None?)
    && (db.reels[cut.reelId].status in {ReelEnriching, ReelGenerating} ==> cut.guide.None?)
  }

  /** A reel has one enrich job and at most one generate job, ever; its cuts have no guide before. */
  ghost predicate Story(w: Watch, db: Db) {
    && (forall j | j in db.jobs :: TellsStory(w, db, db.jobs[j]))
    && (forall j, k | j in db.jobs && k in db.jobs && db.jobs[j].kind == db.jobs[k].kind
                      && db.jobs[j].kind in {Enrich, Generate} && db.jobs[j].ownerId == db.jobs[k].ownerId :: j == k)
    && (forall c | c in db.cuts :: FreshCut(db, db.cuts[c]))
  }

  ghost predicate DbInv(w: Watch, db: Db) {
    Corresponds(w, db) && Story(w, db)
  }

  predicate RunOk(s: Sys, r: Run) {
    && r.job in s.db.jobs
    && (r.phase.Sending? && r.phase.origin.FromEnrich? ==>
          var e := r.phase.origin.enrichJob;
          && e in s.db.jobs && s.db.jobs[e].kind == Enrich && s.db.jobs[r.job].kind == Generate
          && s.db.jobs[e].ownerId == s.db.jobs[r.job].ownerId && !s.db.jobs[e].Live())
  }

  ghost predicate Inv(w: Watch, s: Sys) {
    && DbInv(w, s.db)
    && (forall i | 0 <= i < |s.runs| :: RunOk(s, s.runs[i]))
    && (forall j | j in s.picked :: j in s.db.jobs && (w.Covers(s.db.jobs[j].Owner()) ==> s.db.jobs[j].kind == Render))
  }

  // ---------- Shapes of change ----------

  /** Jobs may move between pending and running, or between done and failed; owners stay put. */
  lemma Still(w: Watch, db: Db, db': Db)
    requires Corresponds(w, db)
    requires db'.jobs.Keys == db.jobs.Keys
    requires forall j | j in db.jobs :: db'.jobs[j].Owner() == db.jobs[j].Owner() && db'.jobs[j].kind == db.jobs[j].kind
                                        && db'.jobs[j].Live() == db.jobs[j].Live()
    requires forall o: Owner | w.Covers(o) :: Flight(db', o) == Flight(db, o)
    ensures Corresponds(w, db')
  {
    forall o: Owner | w.Covers(o) && Flight(db', o).Some?
      ensures exists j :: LiveFor(db', j, o)
    {
      var j :| LiveFor(db, j, o);
      assert LiveFor(db', j, o);
    }
  }

  /** One live job ends and takes its owner out of flight. */
  lemma Retire(w: Watch, db: Db, db': Db, j: nat)
    requires Corresponds(w, db)
    requires j in db.jobs && db.jobs[j].Live()
    requires db'.jobs.Keys == db.jobs.Keys && !db'.jobs[j].Live()
    requires forall k | k in db.jobs && k != j :: db'.jobs[k] == db.jobs[k]
    requires forall o: Owner | w.Covers(o) :: Flight(db', o) == if o == db.jobs[j].Owner() then None else Flight(db, o)
    ensures Corresponds(w, db')
  {
    forall o: Owner | w.Covers(o) && Flight(db', o).Some?
      ensures exists k :: LiveFor(db', k, o)
    {
      var k :| LiveFor(db, k, o);
      assert LiveFor(db', k, o);
    }
  }

  /** No live job answers for a watched owner that is not in flight. */
  lemma FreeOwner(w: Watch, db: Db, o: Owner)
    requires Corresponds(w, db) && w.Covers(o) && Flight(db, o).None?
    ensures forall k | k in db.jobs && db.jobs[k].Live() :: db.jobs[k].Owner() != o
  {
  }

  /** A live job is the only one of its owner. */
  lemma SoleJob(w: Watch, db: Db, j: nat)
    requires Corresponds(w, db) && j in db.jobs && db.jobs[j].Live()
    ensures w.Covers(db.jobs[j].Owner()) ==>
              forall k | k in db.jobs && db.jobs[k].Live() && k != j :: db.jobs[k].Owner() != db.jobs[j].Owner()
  {
  }

  /** A new live job takes an owner that was not in flight. */
  lemma Take(w: Watch, db: Db, db': Db, j: nat)
    requires Corresponds(w, db)
    requires j !in db.jobs && db'.jobs.Keys == db.jobs.Keys + {j} && db'.jobs[j].Live()
    requires forall k | k in db.jobs :: db'.jobs[k] == db.jobs[k]
    requires w.Covers(db'.jobs[j].Owner()) ==> Flight(db, db'.jobs[j].Owner()).None?
    requires forall o: Owner | w.Covers(o) ::
               Flight(db', o) == if o == db'.jobs[j].Owner() then Some(db'.jobs[j].kind) else Flight(db, o)
    ensures Corresponds(w, db')
  {
    OwnersHaveJobs(w, db, db', j);
    if w.Covers(db'.jobs[j].Owner()) { FreeOwner(w, db, db'.jobs[j].Owner()); }
  }

  /** A new live job takes over the owner of one that ends. */
  lemma TakeOver(w: Watch, db: Db, db': Db, j: nat, ended: nat)
    requires Corresponds(w, db)
    requires j !in db.jobs && db'.jobs.Keys == db.jobs.Keys + {j} && db'.jobs[j].Live()
    requires forall k | k in db.jobs && k != ended :: db'.jobs[k] == db.jobs[k]
    requires ended in db.jobs && db.jobs[ended].Live() && !db'.jobs[ended].Live()
    requires db.jobs[ended].Owner() == db'.jobs[j].Owner()
    requires forall o: Owner | w.Covers(o) ::
               Flight(db', o) == if o == db'.jobs[j].Owner() then Some(db'.jobs[j].kind) else Flight(db, o)
    ensures Corresponds(w, db')
  {
    OwnersHaveJobs(w, db, db', j);
    SoleJob(w, db, ended);
  }

  lemma OwnersHaveJobs(w: Watch, db: Db, db': Db, j: nat)
    requires Corresponds(w, db) && j in db'.jobs && db'.jobs[j].Live()
    requires forall k | k in db.jobs && db.jobs[k].Owner() != db'.jobs[j].Owner() ::
             k in db'.jobs && db'.jobs[k] == db.jobs[k]
    requires forall o: Owner | w.Covers(o) && o != db'.jobs[j].Owner() :: Flight(db', o) == Flight(db, o)
    ensures forall o: Owner | w.Covers(o) && Flight(db', o).Some? :: exists k :: LiveFor(db', k, o)
  {
    forall o: Owner | w.Covers(o) && Flight(db', o).Some?
      ensures exists k :: LiveFor(db', k, o)
    {
      if o == db'.jobs[j].Owner() {
        assert LiveFor(db', j, o);
      } else {
        var k :| LiveFor(db, k, o);
        assert LiveFor(db', k, o);
      }
    }
  }

  // ---------- Transactions ----------

  lemma JobMoves(w: Watch, db: Db, j: nat, job: Job)
    requires DbInv(w, db) && j in db.jobs
    requires job.kind == db.jobs[j].kind && job.ownerId == db.jobs[j].ownerId
    requires job.Live() == db.jobs[j].Live()
    requires job.kind in {Generate, Publish} && !job.Live() ==> job.status == db.jobs[j].status
    ensures DbInv(w, SetJob(db, j, job))
  {
    Still(w, db, SetJob(db, j, job));
    JobMovesStory(w, db, j, job);
  }

  lemma JobMovesStory(w: Watch, db: Db, j: nat, job: Job)
    requires Story(w, db) && j in db.jobs
    requires job.kind == db.jobs[j].kind && job.ownerId == db.jobs[j].ownerId
    requires job.Live() == db.jobs[j].Live()
    requires job.kind in {Generate, Publish} && !job.Live() ==> job.status == db.jobs[j].status
    ensures Story(w, SetJob(db, j, job))
  {
    var db' := SetJob(db, j, job);
    forall k | k in db'.jobs
      ensures TellsStory(w, db', db'.jobs[k])
    {
      assert TellsStory(w, db, db.jobs[k]);
    }
    assert forall c | c in db'.cuts :: FreshCut(db, db.cuts[c]);
  }

  lemma FailUnfolded(w: Watch, db: Db, j: nat, from: JobStatus, fence: Option<nat>, now: nat)
    requires Corresponds(w, db) && from in {Pending, Running} && Matches(db, j, from, fence)
    requires w.Covers(db.jobs[j].Owner())
    ensures
      var job, db' := db.jobs[j], Fail(db, j, from, fence, now);
      && db'.jobs == db.jobs[j := job.(status := JobStatus.Failed, error := true, touched := now)]
      && (job.Owner().OfReel? ==>
            job.ownerId in db.reels && db'.cuts == db.cuts && db'.reels == db.reels[job.ownerId := Reel(ReelFailed)])
      && (job.Owner().OfCut? ==> job.ownerId in db.cuts && db'.reels == db.reels
                                 && db'.cuts == db.cuts[job.ownerId := db.cuts[job.ownerId].(status := CutFailed)])
  {
    var job := db.jobs[j];
    assert Flight(db, job.Owner()) == Some(job.kind);
    var marked := SetJob(db, j, job.(status := JobStatus.Failed, error := true, touched := now));
    assert Flight(marked, job.Owner()) == Flight(db, job.Owner());
  }

  lemma FailCorresponds(w: Watch, db: Db, j: nat, from: JobStatus, fence: Option<nat>, now: nat)
    requires Corresponds(w, db) && from in {Pending, Running} && Matches(db, j, from, fence)
    requires w.Covers(db.jobs[j].Owner())
    ensures Corresponds(w, Fail(db, j, from, fence, now))
  {
    FailUnfolded(w, db, j, from, fence, now);
    Retire(w, db, Fail(db, j, from, fence, now), j);
  }

  lemma FailStory(w: Watch, db: Db, j: nat, from: JobStatus, fence: Option<nat>, now: nat)
    requires DbInv(w, db) && from in {Pending, Running} && Matches(db, j, from, fence) && w.Covers(db.jobs[j].Owner())
    ensures Story(w, Fail(db, j, from, fence, now))
  {
    FailUnfolded(w, db, j, from, fence, now);
    var db' := Fail(db, j, from, fence, now);
    assert TellsStory(w, db, db.jobs[j]) && Flight(db, db.jobs[j].Owner()) == Some(db.jobs[j].kind);
    forall k | k in db'.jobs
      ensures TellsStory(w, db', db'.jobs[k])
    {
      FailedJobsTell(w, db, j, from, fence, now, k);
    }
    assert forall c | c in db.cuts :: FreshCut(db, db.cuts[c]);
  }

  lemma FailedJobsTell(w: Watch, db: Db, j: nat, from: JobStatus, fence: Option<nat>, now: nat, k: nat)
    requires DbInv(w, db) && from in {Pending, Running} && Matches(db, j, from, fence) && w.Covers(db.jobs[j].Owner())
    requires k in db.jobs
    ensures k in Fail(db, j, from, fence, now).jobs
    ensures TellsStory(w, Fail(db, j, from, fence, now), Fail(db, j, from, fence, now).jobs[k])
  {
    FailUnfolded(w, db, j, from, fence, now);
    assert TellsStory(w, db, db.jobs[k]) && TellsStory(w, db, db.jobs[j]);
    assert Flight(db, db.jobs[j].Owner()) == Some(db.jobs[j].kind);
  }

  /** Failing a live job frees exactly its own owner. */
  lemma FailKeeps(w: Watch, db: Db, j: nat, from: JobStatus, fence: Option<nat>, now: nat)
    requires DbInv(w, db) && from in {Pending, Running}
    ensures DbInv(w, Fail(db, j, from, fence, now))
    ensures Fail(db, j, from, fence, now).jobs.Keys == db.jobs.Keys
    ensures forall k | k in db.jobs :: Fail(db, j, from, fence, now).jobs[k].kind == db.jobs[k].kind
                                       && Fail(db, j, from, fence, now).jobs[k].ownerId == db.jobs[k].ownerId
                                       && (!db.jobs[k].Live() ==> Fail(db, j, from, fence, now).jobs[k] == db.jobs[k])
  {
    if Matches(db, j, from, fence) {
      if w.Covers(db.jobs[j].Owner()) {
        FailUnfolded(w, db, j, from, fence, now);
        FailCorresponds(w, db, j, from, fence, now);
        FailStory(w, db, j, from, fence, now);
      } else {
        FailElsewhere(w, db, j, from, fence, now);
      }
    }
  }

  /** Failing a Job of a cut that is not watched, whatever state that cut is in. */
  lemma FailElsewhere(w: Watch, db: Db, j: nat, from: JobStatus, fence: Option<nat>, now: nat)
    requires DbInv(w, db) && Matches(db, j, from, fence) && !w.Covers(db.jobs[j].Owner()) && from != JobStatus.Failed
    ensures DbInv(w, Fail(db, j, from, fence, now)) && JobsGrow(db, Fail(db, j, from, fence, now))
    ensures Fail(db, j, from, fence, now).jobs
            == db.jobs[j := db.jobs[j].(status := JobStatus.Failed, error := true, touched := now)]
  {
    assert TellsStory(w, db, db.jobs[j]);
    FailElsewhereUnfolded(w, db, j, from, fence, now);
    var db' := Fail(db, j, from, fence, now);
    EndedElsewhere(w, db, db', j);
    ElsewhereStory(w, db, db', j);
  }

  /** A Job of a cut that is not watched ends, or had ended. */
  lemma EndedElsewhere(w: Watch, db: Db, db': Db, j: nat)
    requires Corresponds(w, db) && j in db.jobs && !w.Covers(db.jobs[j].Owner())
    requires j in db'.jobs && db'.jobs == db.jobs[j := db'.jobs[j]] && !db'.jobs[j].Live()
    requires db'.jobs[j].kind == db.jobs[j].kind && db'.jobs[j].ownerId == db.jobs[j].ownerId
    requires forall o: Owner | w.Covers(o) :: Flight(db', o) == Flight(db, o)
    ensures Corresponds(w, db')
  {
    if db.jobs[j].Live() { Retire(w, db, db', j); } else { Still(w, db, db'); }
  }

  lemma FailElsewhereUnfolded(w: Watch, db: Db, j: nat, from: JobStatus, fence: Option<nat>, now: nat)
    requires Matches(db, j, from, fence) && !w.Covers(db.jobs[j].Owner()) && db.jobs[j].ownerId in db.cuts
    ensures
      var db' := Fail(db, j, from, fence, now);
      && db'.jobs == db.jobs[j := db.jobs[j].(status := JobStatus.Failed, error := true, touched := now)]
         && db'.reels == db.reels
      && db'.cuts.Keys == db.cuts.Keys
      && (forall c | c in db.cuts :: w.Covers(OfCut(c)) ==> db'.cuts[c] == db.cuts[c])
      && (forall c | c in db.cuts ::
            db'.cuts[c] == db.cuts[c] || (db'.cuts[c] == db.cuts[c].(status := CutFailed)
                                          && db.cuts[c].status != CutDraft))
      && (forall o: Owner | w.Covers(o) :: Flight(db', o) == Flight(db, o))
  {
  }

  lemma ElsewhereStory(w: Watch, db: Db, db': Db, j: nat)
    requires Story(w, db) && j in db.jobs && !w.Covers(db.jobs[j].Owner()) && db'.reels == db.reels
    requires db'.jobs.Keys == db.jobs.Keys && forall k | k in db.jobs && k != j :: db'.jobs[k] == db.jobs[k]
    requires db'.jobs[j].kind == db.jobs[j].kind && db'.jobs[j].ownerId == db.jobs[j].ownerId
    requires db'.cuts.Keys == db.cuts.Keys
    requires forall c | c in db.cuts :: w.Covers(OfCut(c)) ==> db'.cuts[c] == db.cuts[c]
    requires forall c | c in db.cuts ::
               db'.cuts[c] == db.cuts[c] || (db'.cuts[c] == db.cuts[c].(status := CutFailed)
                                             && db.cuts[c].status != CutDraft)
    ensures Story(w, db')
  {
    forall k | k in db'.jobs
      ensures TellsStory(w, db', db'.jobs[k])
    {
      assert TellsStory(w, db, db.jobs[k]);
      ElsewhereTells(w, db, db', db.jobs[k], db'.jobs[k]);
    }
    forall c | c in db'.cuts
      ensures FreshCut(db', db'.cuts[c])
    {
      assert FreshCut(db, db.cuts[c]);
    }
  }

  lemma ElsewhereTells(w: Watch, db: Db, db': Db, job: Job, job': Job)
    requires TellsStory(w, db, job) && db'.reels == db.reels && db'.cuts.Keys == db.cuts.Keys
    requires job' == job || (job'.kind == job.kind && job'.ownerId == job.ownerId && !w.Covers(job.Owner()))
    requires forall c | c in db.cuts :: db'.cuts[c] == db.cuts[c] || db'.cuts[c] == db.cuts[c].(status := CutFailed)
    requires forall c | c in db.cuts && w.Covers(OfCut(c)) :: db'.cuts[c] == db.cuts[c]
    ensures TellsStory(w, db', job')
  {
  }

  // ---------- Events on the rows ----------

  /** Rows are never deleted, never change type or owner, and a Job that ended stays ended. */
  ghost predicate JobsGrow(db: Db, db': Db) {
    && db.jobs.Keys <= db'.jobs.Keys
    && (forall j | j in db.jobs :: db'.jobs[j].kind == db.jobs[j].kind && db'.jobs[j].ownerId == db.jobs[j].ownerId
                                   && (!db.jobs[j].Live() ==> !db'.jobs[j].Live()))
  }

  /** A new reel, its cuts and its enrich Job. */
  lemma NewReel(w: Watch, db: Db, reel: nat, cuts: set<nat>, j: nat, now: nat)
    requires DbInv(w, db) && j !in db.jobs && reel !in db.reels && cuts !! db.cuts.Keys
    ensures
      var db' := Db(db.jobs[j := NewJob(Enrich, reel, now)], db.reels[reel := Reel(ReelEnriching)],
                    db.cuts + map c | c in cuts :: Cut(reel, CutDraft, None, {}, map[], None, None, None, None));
      DbInv(w, db')
  {
    var db' := Db(db.jobs[j := NewJob(Enrich, reel, now)], db.reels[reel := Reel(ReelEnriching)],
                  db.cuts + map c | c in cuts :: Cut(reel, CutDraft, None, {}, map[], None, None, None, None));
    assert Flight(db, OfReel(reel)).None?;
    assert Corresponds(w, db') by { Take(w, db, db', j); }
    NewReelStory(w, db, reel, cuts, j, now);
  }

  lemma NewReelStory(w: Watch, db: Db, reel: nat, cuts: set<nat>, j: nat, now: nat)
    requires Story(w, db) && j !in db.jobs && reel !in db.reels && cuts !! db.cuts.Keys
    ensures
      var db' := Db(db.jobs[j := NewJob(Enrich, reel, now)], db.reels[reel := Reel(ReelEnriching)],
                    db.cuts + map c | c in cuts :: Cut(reel, CutDraft, None, {}, map[], None, None, None, None));
      Story(w, db')
  {
    var db' := Db(db.jobs[j := NewJob(Enrich, reel, now)], db.reels[reel := Reel(ReelEnriching)],
                  db.cuts + map c | c in cuts :: Cut(reel, CutDraft, None, {}, map[], None, None, None, None));
    forall k | k in db'.jobs
      ensures TellsStory(w, db', db'.jobs[k])
    {
      if k != j { assert TellsStory(w, db, db.jobs[k]); }
    }
    forall c | c in db'.cuts
      ensures FreshCut(db', db'.cuts[c])
    {
      if c in db.cuts { assert FreshCut(db, db.cuts[c]); }
    }
  }

  /** A trigger route: a cut that was not in flight and a new Job that answers for it. */
  lemma NewCutJob(w: Watch, db: Db, c: nat, status: CutStatus, j: nat, job: Job)
    requires DbInv(w, db) && j !in db.jobs && c in db.cuts
    requires CutFlight(db.cuts[c].status).None? && db.cuts[c].status != CutPublished && db.cuts[c].guide.Some?
    requires job.Live() && job.Owner() == OfCut(c) && CutFlight(status) == Some(job.kind)
    ensures DbInv(w, SetCut(SetJob(db, j, job), c, db.cuts[c].(status := status)))
  {
    var db' := SetCut(SetJob(db, j, job), c, db.cuts[c].(status := status));
    assert Corresponds(w, db') by { Take(w, db, db', j); }
    NewCutJobStory(w, db, c, status, j, job);
  }

  lemma NewCutJobStory(w: Watch, db: Db, c: nat, status: CutStatus, j: nat, job: Job)
    requires Story(w, db) && j !in db.jobs && c in db.cuts
    requires db.cuts[c].status != CutPublished && db.cuts[c].guide.Some?
    requires job.Live() && job.Owner() == OfCut(c)
    ensures Story(w, SetCut(SetJob(db, j, job), c, db.cuts[c].(status := status)))
  {
    var db' := SetCut(SetJob(db, j, job), c, db.cuts[c].(status := status));
    forall k | k in db'.jobs
      ensures TellsStory(w, db', db'.jobs[k])
    {
      if k != j { assert TellsStory(w, db, db.jobs[k]); }
    }
    forall d | d in db'.cuts
      ensures FreshCut(db', db'.cuts[d])
    {
      assert FreshCut(db, db.cuts[d]);
    }
  }

  /** A write to one cut that leaves it in the same flight state (and published if it was). */
  lemma CutWrite(w: Watch, db: Db, c: nat, cut: Cut)
    requires DbInv(w, db) && c in db.cuts
    requires CutFlight(cut.status) == CutFlight(db.cuts[c].status)
    requires db.cuts[c].status == CutPublished ==> cut.status == CutPublished
    requires cut.guide.Some? && db.cuts[c].guide.Some? && cut.reelId == db.cuts[c].reelId
    ensures DbInv(w, SetCut(db, c, cut))
  {
    var db' := SetCut(db, c, cut);
    Still(w, db, db');
    forall k | k in db'.jobs
      ensures TellsStory(w, db', db'.jobs[k])
    {
      assert TellsStory(w, db, db.jobs[k]);
    }
    forall d | d in db'.cuts
      ensures FreshCut(db', db'.cuts[d])
    {
      assert FreshCut(db, db.cuts[d]);
    }
  }

  lemma StampKeeps(w: Watch, db: Db, e: nat, now: nat)
    requires DbInv(w, db) && e in db.jobs && db.jobs[e].kind == Enrich
    ensures DbInv(w, FailKeepOwner(db, e, now)) && JobsGrow(db, FailKeepOwner(db, e, now))
  {
    if Matches(db, e, Done, None) {
      JobMoves(w, db, e, FailKeepOwner(db, e, now).jobs[e]);
    }
  }

  /** The cleanup hook is the ordinary failure of the follow-up job, done in the same transaction. */
  lemma AbandonIsFail(db: Db, e: nat, g: nat, now: nat)
    requires Matches(db, e, Done, None) && g in db.jobs && db.jobs[e].kind == Enrich && db.jobs[g].kind == Generate
    requires db.jobs[e].ownerId == db.jobs[g].ownerId
    ensures StampAndAbandon(db, e, g, now) == Fail(FailKeepOwner(db, e, now), g, Pending, None, now)
  {
  }

  lemma AbandonKeeps(w: Watch, db: Db, e: nat, g: nat, now: nat)
    requires DbInv(w, db) && e in db.jobs && g in db.jobs && db.jobs[e].kind == Enrich && db.jobs[g].kind == Generate
    requires db.jobs[e].ownerId == db.jobs[g].ownerId
    ensures DbInv(w, StampAndAbandon(db, e, g, now)) && JobsGrow(db, StampAndAbandon(db, e, g, now))
  {
    if Matches(db, e, Done, None) {
      StampKeeps(w, db, e, now);
      AbandonIsFail(db, e, g, now);
      FailKeeps(w, FailKeepOwner(db, e, now), g, Pending, None, now);
    }
  }

  // ---------- Done-stamps ----------

  /** Enrich done: the reel moves on and the generate Job that owns it from here appears. */
  lemma EnrichDone(w: Watch, db: Db, j: nat, g: nat, now: nat)
    requires DbInv(w, db) && Matches(db, j, Running, None) && db.jobs[j].kind == Enrich && g !in db.jobs
    ensures var db' := SetReel(SetJob(DoneStamp(db, j, now), g, NewJob(Generate, db.jobs[j].ownerId, now)),
                               db.jobs[j].ownerId, ReelGenerating);
            DbInv(w, db') && JobsGrow(db, db')
  {
    var reel := db.jobs[j].ownerId;
    var db' := SetReel(SetJob(DoneStamp(db, j, now), g, NewJob(Generate, reel, now)), reel, ReelGenerating);
    assert Flight(db, OfReel(reel)) == Some(Enrich);
    EnrichDoneCorresponds(w, db, j, g, now);
    EnrichDoneStory(w, db, j, g, now);
  }

  lemma EnrichDoneCorresponds(w: Watch, db: Db, j: nat, g: nat, now: nat)
    requires Corresponds(w, db) && Matches(db, j, Running, None) && db.jobs[j].kind == Enrich && g !in db.jobs
    requires db.jobs[j].ownerId in db.reels
    ensures Corresponds(w, SetReel(SetJob(DoneStamp(db, j, now), g, NewJob(Generate, db.jobs[j].ownerId, now)),
                                   db.jobs[j].ownerId, ReelGenerating))
  {
    var reel := db.jobs[j].ownerId;
    TakeOver(w, db, SetReel(SetJob(DoneStamp(db, j, now), g, NewJob(Generate, reel, now)), reel, ReelGenerating), g, j);
  }

  lemma EnrichDoneStory(w: Watch, db: Db, j: nat, g: nat, now: nat)
    requires Story(w, db) && Matches(db, j, Running, None) && db.jobs[j].kind == Enrich && g !in db.jobs
    requires Flight(db, db.jobs[j].Owner()) == Some(Enrich)
    ensures Story(w, SetReel(SetJob(DoneStamp(db, j, now), g, NewJob(Generate, db.jobs[j].ownerId, now)),
                             db.jobs[j].ownerId, ReelGenerating))
  {
    var reel := db.jobs[j].ownerId;
    var db' := SetReel(SetJob(DoneStamp(db, j, now), g, NewJob(Generate, reel, now)), reel, ReelGenerating);
    NoGenerateYet(w, db, reel);
    forall k | k in db'.jobs
      ensures TellsStory(w, db', db'.jobs[k])
    {
      if k in db.jobs { assert TellsStory(w, db, db.jobs[k]); }
    }
    assert forall c | c in db.cuts :: FreshCut(db, db.cuts[c]);
  }

  /** A reel that is being enriched has no generate Job. */
  lemma NoGenerateYet(w: Watch, db: Db, reel: nat)
    requires Story(w, db) && Flight(db, OfReel(reel)) == Some(Enrich)
    ensures forall k | k in db.jobs && db.jobs[k].kind == Generate :: db.jobs[k].ownerId != reel
  {
    forall k | k in db.jobs && db.jobs[k].kind == Generate
      ensures db.jobs[k].ownerId != reel
    {
      assert TellsStory(w, db, db.jobs[k]);
    }
  }

  lemma GenerateDone(w: Watch, db: Db, j: nat, guides: map<nat, Guide>, now: nat)
    requires DbInv(w, db) && Matches(db, j, Running, None) && db.jobs[j].kind == Generate
    requires forall c | c in guides :: c in db.cuts && db.cuts[c].reelId == db.jobs[j].ownerId
    ensures DbInv(w, WithGuides(SetReel(DoneStamp(db, j, now), db.jobs[j].ownerId, ReelGuideReady), guides))
    ensures JobsGrow(db, WithGuides(SetReel(DoneStamp(db, j, now), db.jobs[j].ownerId, ReelGuideReady), guides))
  {
    var reel := db.jobs[j].ownerId;
    var db' := WithGuides(SetReel(DoneStamp(db, j, now), reel, ReelGuideReady), guides);
    assert Flight(db, OfReel(reel)) == Some(Generate);
    GenerateDoneCorresponds(w, db, j, guides, now);
    GenerateDoneStory(w, db, j, guides, now);
  }

  lemma GenerateDoneCorresponds(w: Watch, db: Db, j: nat, guides: map<nat, Guide>, now: nat)
    requires Corresponds(w, db) && Matches(db, j, Running, None) && db.jobs[j].kind == Generate
    requires db.jobs[j].ownerId in db.reels
    ensures Corresponds(w, WithGuides(SetReel(DoneStamp(db, j, now), db.jobs[j].ownerId, ReelGuideReady), guides))
  {
    var reel := db.jobs[j].ownerId;
    var db' := WithGuides(SetReel(DoneStamp(db, j, now), reel, ReelGuideReady), guides);
    assert forall o: Owner :: Flight(db', o) == if o == OfReel(reel) then None else Flight(db, o);
    Retire(w, db, db', j);
  }

  lemma GenerateDoneStory(w: Watch, db: Db, j: nat, guides: map<nat, Guide>, now: nat)
    requires Story(w, db) && Matches(db, j, Running, None) && db.jobs[j].kind == Generate
    requires forall c | c in guides :: c in db.cuts && db.cuts[c].reelId == db.jobs[j].ownerId
    ensures Story(w, WithGuides(SetReel(DoneStamp(db, j, now), db.jobs[j].ownerId, ReelGuideReady), guides))
  {
    var reel := db.jobs[j].ownerId;
    var db' := WithGuides(SetReel(DoneStamp(db, j, now), reel, ReelGuideReady), guides);
    assert TellsStory(w, db, db.jobs[j]);
    forall k | k in db'.jobs
      ensures TellsStory(w, db', db'.jobs[k])
    {
      assert TellsStory(w, db, db.jobs[k]);
    }
    forall c | c in db'.cuts
      ensures FreshCut(db', db'.cuts[c])
    {
      assert FreshCut(db, db.cuts[c]);
    }
  }

  /** Render or publish done: the cut leaves flight with whatever the body wrote. */
  lemma CutDone(w: Watch, db: Db, j: nat, cut: Cut, now: nat)
    requires DbInv(w, db) && Matches(db, j, Running, None) && db.jobs[j].Owner().OfCut?
    requires db.jobs[j].ownerId in db.cuts
    requires CutFlight(cut.status).None? && (db.jobs[j].kind == Publish ==> cut.status == CutPublished)
    requires cut.guide.Some? && cut.reelId == db.cuts[db.jobs[j].ownerId].reelId
    ensures DbInv(w, SetCut(DoneStamp(db, j, now), db.jobs[j].ownerId, cut))
    ensures JobsGrow(db, SetCut(DoneStamp(db, j, now), db.jobs[j].ownerId, cut))
  {
    assert w.Covers(db.jobs[j].Owner()) ==> Flight(db, OfCut(db.jobs[j].ownerId)) == Some(db.jobs[j].kind);
    CutDoneCorresponds(w, db, j, cut, now);
    CutDoneStory(w, db, j, cut, now);
  }

  lemma CutDoneCorresponds(w: Watch, db: Db, j: nat, cut: Cut, now: nat)
    requires Corresponds(w, db) && Matches(db, j, Running, None) && db.jobs[j].Owner().OfCut?
    requires db.jobs[j].ownerId in db.cuts && CutFlight(cut.status).None?
    ensures Corresponds(w, SetCut(DoneStamp(db, j, now), db.jobs[j].ownerId, cut))
  {
    Retire(w, db, SetCut(DoneStamp(db, j, now), db.jobs[j].ownerId, cut), j);
  }

  lemma CutDoneStory(w: Watch, db: Db, j: nat, cut: Cut, now: nat)
    requires Story(w, db) && Matches(db, j, Running, None) && db.jobs[j].Owner().OfCut?
    requires db.jobs[j].ownerId in db.cuts
    requires w.Covers(db.jobs[j].Owner()) ==> db.cuts[db.jobs[j].ownerId].status != CutPublished
    requires db.jobs[j].kind == Publish ==> cut.status == CutPublished
    requires cut.guide.Some? && cut.reelId == db.cuts[db.jobs[j].ownerId].reelId
    ensures Story(w, SetCut(DoneStamp(db, j, now), db.jobs[j].ownerId, cut))
  {
    var c := db.jobs[j].ownerId;
    var db' := SetCut(DoneStamp(db, j, now), c, cut);
    forall k | k in db'.jobs
      ensures TellsStory(w, db', db'.jobs[k])
    {
      assert TellsStory(w, db, db.jobs[k]);
    }
    forall d | d in db'.cuts
      ensures FreshCut(db', db'.cuts[d])
    {
      assert FreshCut(db, db.cuts[d]);
    }
  }

  // ---------- Claims, failures, the reaper ----------

  lemma ClaimKeeps(w: Watch, db: Db, j: nat, now: nat)
    requires DbInv(w, db)
    ensures DbInv(w, Claim(db, j, now)) && JobsGrow(db, Claim(db, j, now))
  {
    if Matches(db, j, Pending, None) { JobMoves(w, db, j, Claim(db, j, now).jobs[j]); }
  }

  lemma RetryResetKeeps(w: Watch, db: Db, j: nat, tok: nat, now: nat)
    requires DbInv(w, db)
    ensures DbInv(w, RetryReset(db, j, tok, now)) && JobsGrow(db, RetryReset(db, j, tok, now))
  {
    if Matches(db, j, Running, Some(tok)) { JobMoves(w, db, j, RetryReset(db, j, tok, now).jobs[j]); }
  }

  lemma ReapKeeps(w: Watch, db: Db, j: nat, seen: JobStatus, asOf: nat, now: nat)
    requires DbInv(w, db) && seen in {Pending, Running}
    ensures DbInv(w, ReapOne(db, j, seen, asOf, now)) && JobsGrow(db, ReapOne(db, j, seen, asOf, now))
  {
    var db' := ReapOne(db, j, seen, asOf, now);
    if !Matches(db, j, seen, None) || !Stale(db.jobs[j], asOf) {
    } else if Resumable(db.jobs[j], asOf) {
      JobMoves(w, db, j, Resume(db, j, now).jobs[j]);
    } else {
      FailKeeps(w, db, j, seen, None, now);
    }
  }

  // ---------- One step ----------

  /** A sweep that rolls a watched owner back: it still finds the job done and stale, and the owner in
      flight. */
  ghost predicate HarmfulSweep(w: Watch, s: Sys, e: Event)
    requires Enabled(s, e)
  {
    e.SweepOrphan? && OrphanCandidate(s.db, e.job, s.picked[e.job]) && w.Covers(s.db.jobs[e.job].Owner())
  }

  lemma RouterKeeps(w: Watch, s: Sys, e: Event)
    requires DbInv(w, s.db) && Enabled(s, e)
    requires e.CreateReel? || e.TriggerRender? || e.TriggerPublish? || e.EditGuide? || e.Approve?
    ensures DbInv(w, DbAfter(s, e)) && JobsGrow(s.db, DbAfter(s, e))
  {
    if e.CreateReel? {
      NewReel(w, s.db, e.reel, e.cuts, e.newJob, s.clock);
    } else if e.TriggerRender? || e.TriggerPublish? {
      TriggerKeeps(w, s, e);
    } else {
      EditKeeps(w, s, e);
    }
  }

  lemma TriggerKeeps(w: Watch, s: Sys, e: Event)
    requires DbInv(w, s.db) && Enabled(s, e) && (e.TriggerRender? || e.TriggerPublish?)
    ensures DbInv(w, DbAfter(s, e)) && JobsGrow(s.db, DbAfter(s, e))
  {
    if e.TriggerRender? {
      NewCutJob(w, s.db, e.cut, CutRendering, e.newJob, NewJob(Render, e.cut, s.clock));
    } else {
      assert FreshCut(s.db, s.db.cuts[e.cut]);
      NewCutJob(w, s.db, e.cut, CutPublishing, e.newJob, NewJob(Publish, e.cut, s.clock));
    }
  }

  lemma EditKeeps(w: Watch, s: Sys, e: Event)
    requires DbInv(w, s.db) && Enabled(s, e) && (e.EditGuide? || e.Approve?)
    ensures DbInv(w, DbAfter(s, e)) && JobsGrow(s.db, DbAfter(s, e))
  {
    if e.EditGuide? {
      CutWrite(w, s.db, e.cut, s.db.cuts[e.cut].(guide := Some(e.edited)));
    } else {
      assert FreshCut(s.db, s.db.cuts[e.cut]);
      CutWrite(w, s.db, e.cut, s.db.cuts[e.cut].(status := CutApproved));
    }
  }

  lemma FinishReelKeeps(w: Watch, s: Sys, e: Event)
    requires DbInv(w, s.db) && Enabled(s, e) && (e.FinishEnrich? || e.FinishGenerate?)
    ensures DbInv(w, DbAfter(s, e)) && JobsGrow(s.db, DbAfter(s, e))
  {
    if e.FinishEnrich? { FinishEnrichKeeps(w, s, e.i, e.newJob); } else { FinishGenerateKeeps(w, s, e.i, e.guides); }
  }

  lemma FinishEnrichKeeps(w: Watch, s: Sys, i: nat, g: nat)
    requires DbInv(w, s.db) && Enabled(s, FinishEnrich(i, g))
    ensures DbInv(w, DbAfter(s, FinishEnrich(i, g))) && JobsGrow(s.db, DbAfter(s, FinishEnrich(i, g)))
  {
    if Lands(s, i) { EnrichDone(w, s.db, s.runs[i].job, g, s.clock); }
  }

  lemma FinishGenerateKeeps(w: Watch, s: Sys, i: nat, guides: map<nat, Guide>)
    requires DbInv(w, s.db) && Enabled(s, FinishGenerate(i, guides))
    ensures DbInv(w, DbAfter(s, FinishGenerate(i, guides))) && JobsGrow(s.db, DbAfter(s, FinishGenerate(i, guides)))
  {
    GeneratedReel(s, i, guides);
    if Lands(s, i) { GenerateDone(w, s.db, s.runs[i].job, guides, s.clock); }
  }

  lemma GeneratedReel(s: Sys, i: nat, guides: map<nat, Guide>)
    requires Enabled(s, FinishGenerate(i, guides))
    ensures JobOf(s, i).kind == Generate && forall c | c in guides ::
            c in s.db.cuts && s.db.cuts[c].reelId == JobOf(s, i).ownerId
    ensures DbAfter(s, FinishGenerate(i, guides))
            == if !Lands(s, i) then s.db
               else
                 var done := DoneStamp(s.db, s.runs[i].job, s.clock);
                 WithGuides(SetReel(done, JobOf(s, i).ownerId, ReelGuideReady), guides)
  {
  }

  lemma FinishCutKeeps(w: Watch, s: Sys, e: Event)
    requires DbInv(w, s.db) && Enabled(s, e) && (e.FinishRender? || e.FinishPublish?)
    ensures DbInv(w, DbAfter(s, e)) && JobsGrow(s.db, DbAfter(s, e))
  {
    if e.FinishRender? { FinishRenderKeeps(w, s, e.i); } else { FinishPublishKeeps(w, s, e.i); }
  }

  lemma RenderedCut(s: Sys, i: nat) returns (cut: Cut)
    requires Enabled(s, FinishRender(i)) && Lands(s, i)
    ensures JobOf(s, i).kind == Render && JobOf(s, i).ownerId in s.db.cuts
    ensures cut.status == CutInReview && cut.guide == CutOf(s, i).guide && cut.reelId == CutOf(s, i).reelId
    ensures DbAfter(s, FinishRender(i)) == SetCut(DoneStamp(s.db, s.runs[i].job, s.clock), JobOf(s, i).ownerId, cut)
  {
    cut := DbAfter(s, FinishRender(i)).cuts[JobOf(s, i).ownerId];
  }

  lemma FinishRenderKeeps(w: Watch, s: Sys, i: nat)
    requires DbInv(w, s.db) && Enabled(s, FinishRender(i))
    ensures DbInv(w, DbAfter(s, FinishRender(i))) && JobsGrow(s.db, DbAfter(s, FinishRender(i)))
  {
    if Lands(s, i) {
      var j := s.runs[i].job;
      assert TellsStory(w, s.db, s.db.jobs[j]);
      var cut := RenderedCut(s, i);
      CutDone(w, s.db, j, cut, s.clock);
    }
  }

  lemma FinishPublishKeeps(w: Watch, s: Sys, i: nat)
    requires DbInv(w, s.db) && Enabled(s, FinishPublish(i))
    ensures DbInv(w, DbAfter(s, FinishPublish(i))) && JobsGrow(s.db, DbAfter(s, FinishPublish(i)))
  {
    PublishedCut(s, i);
    if Lands(s, i) {
      var j := s.runs[i].job;
      assert TellsStory(w, s.db, s.db.jobs[j]);
      CutDone(w, s.db, j, CutOf(s, i).(status := CutPublished), s.clock);
    }
  }

  lemma PublishedCut(s: Sys, i: nat)
    requires Enabled(s, FinishPublish(i))
    ensures JobOf(s, i).kind == Publish && JobOf(s, i).ownerId in s.db.cuts
    ensures DbAfter(s, FinishPublish(i))
            == if !Lands(s, i) then s.db
               else
                 var done := DoneStamp(s.db, s.runs[i].job, s.clock);
                 SetCut(done, JobOf(s, i).ownerId, CutOf(s, i).(status := CutPublished))
  {
  }

  lemma ErrorKeeps(w: Watch, s: Sys, e: Event)
    requires DbInv(w, s.db) && Enabled(s, e)
    requires e.PreclaimError? || e.ReadBackError? || e.BodyFails? || e.Shutdown?
    ensures DbInv(w, DbAfter(s, e)) && JobsGrow(s.db, DbAfter(s, e))
  {
    var r := s.runs[e.i];
    match e
    case PreclaimError(_, _, landed) =>
      var db := if landed then Claim(s.db, r.job, s.clock) else s.db;
      ClaimKeeps(w, s.db, r.job, s.clock);
      FailKeeps(w, db, r.job, Pending, None, s.clock);
    case ReadBackError(_, _) => FailKeeps(w, s.db, r.job, Pending, None, s.clock);
    case BodyFails(_, _) =>
      RetryResetKeeps(w, s.db, r.job, r.tok, s.clock);
      FailKeeps(w, s.db, r.job, Running, Some(r.tok), s.clock);
    case Shutdown(_) => FailKeeps(w, s.db, r.job, Running, Some(r.tok), s.clock);
  }

  lemma SendFailsKeeps(w: Watch, s: Sys, e: Event)
    requires DbInv(w, s.db) && Enabled(s, e) && e.SendFails? && RunOk(s, s.runs[e.i])
    ensures DbInv(w, DbAfter(s, e)) && JobsGrow(s.db, DbAfter(s, e))
  {
    var r := s.runs[e.i];
    if r.phase.origin.FromEnrich? {
      if e.cleanup == StampOnly {
        StampKeeps(w, s.db, r.phase.origin.enrichJob, s.clock);
      } else if e.cleanup == Cleaned {
        AbandonKeeps(w, s.db, r.phase.origin.enrichJob, r.job, s.clock);
      }
    } else if !r.phase.origin.FromReaper? {
      FailKeeps(w, s.db, r.job, Pending, if r.phase.origin.FromRetry? then r.phase.origin.fence else None, s.clock);
    }
  }

  lemma RunWriteKeeps(w: Watch, s: Sys, e: Event)
    requires DbInv(w, s.db) && Enabled(s, e) && (e.ClaimJob? || e.TouchJob? || e.BeatJob?)
    ensures DbInv(w, DbAfter(s, e)) && JobsGrow(s.db, DbAfter(s, e))
  {
    var j := s.runs[e.i].job;
    if e.ClaimJob? {
      ClaimKeeps(w, s.db, j, s.clock);
    } else {
      assert s.db.jobs[j := s.db.jobs[j]] == s.db.jobs;
      JobMoves(w, s.db, j, DbAfter(s, e).jobs[j]);
    }
  }

  lemma RunCutWriteKeeps(w: Watch, s: Sys, e: Event)
    requires DbInv(w, s.db) && Enabled(s, e) && (e.PinBeat? || e.RecordPost?)
    ensures DbInv(w, DbAfter(s, e)) && JobsGrow(s.db, DbAfter(s, e))
  {
    var c := JobOf(s, e.i).ownerId;
    assert TellsStory(w, s.db, JobOf(s, e.i));
    assert DbAfter(s, e) == SetCut(s.db, c, DbAfter(s, e).cuts[c]);
    CutWrite(w, s.db, c, DbAfter(s, e).cuts[c]);
  }

  lemma SweepKeeps(w: Watch, s: Sys, e: Event)
    requires Inv(w, s) && Enabled(s, e) && e.SweepOrphan? && !HarmfulSweep(w, s, e)
    ensures DbInv(w, DbAfter(s, e)) && JobsGrow(s.db, DbAfter(s, e))
  {
    var j := e.job;
    if Matches(s.db, j, Done, None) && Stale(s.db.jobs[j], s.picked[j]) {
      if w.Covers(s.db.jobs[j].Owner()) {
        IdleSweepKeeps(w, s.db, j, s.picked[j], s.clock);
      } else {
        FailElsewhere(w, s.db, j, Done, None, s.clock);
      }
    }
  }

  /** A sweep that finds the owner out of flight fails the Job alone. */
  lemma IdleSweepKeeps(w: Watch, db: Db, j: nat, asOf: nat, now: nat)
    requires DbInv(w, db) && Matches(db, j, Done, None) && Stale(db.jobs[j], asOf) && db.jobs[j].kind == Render
    requires !OrphanCandidate(db, j, asOf)
    ensures DbInv(w, ReapOne(db, j, Done, asOf, now)) && JobsGrow(db, ReapOne(db, j, Done, asOf, now))
  {
    assert ReapOne(db, j, Done, asOf, now) == SetJob(db, j, ReapOne(db, j, Done, asOf, now).jobs[j]);
    JobMoves(w, db, j, ReapOne(db, j, Done, asOf, now).jobs[j]);
  }

  /** Every event but a harmful sweep keeps the rows consistent. */
  lemma DbStep(w: Watch, s: Sys, e: Event)
    requires Inv(w, s) && Enabled(s, e) && !HarmfulSweep(w, s, e)
    ensures DbInv(w, DbAfter(s, e)) && JobsGrow(s.db, DbAfter(s, e))
  {
    if Ending(e) { EndingKeeps(w, s, e); } else { GoingOnKeeps(w, s, e); }
  }

  lemma EndingKeeps(w: Watch, s: Sys, e: Event)
    requires Inv(w, s) && Enabled(s, e) && Ending(e)
    ensures DbInv(w, DbAfter(s, e)) && JobsGrow(s.db, DbAfter(s, e))
  {
    if e.SendFails? {
      assert RunOk(s, s.runs[e.i]);
      SendFailsKeeps(w, s, e);
    } else if e.FinishEnrich? || e.FinishGenerate? {
      FinishReelKeeps(w, s, e);
    } else if e.FinishRender? || e.FinishPublish? {
      FinishCutKeeps(w, s, e);
    } else if !e.Crash? {
      ErrorKeeps(w, s, e);
    }
  }

  lemma GoingOnKeeps(w: Watch, s: Sys, e: Event)
    requires Inv(w, s) && Enabled(s, e) && !Ending(e) && !HarmfulSweep(w, s, e)
    ensures DbInv(w, DbAfter(s, e)) && JobsGrow(s.db, DbAfter(s, e))
  {
    if e.CreateReel? || e.TriggerRender? || e.TriggerPublish? || e.EditGuide? || e.Approve? {
      RouterKeeps(w, s, e);
    } else if e.ClaimJob? || e.TouchJob? || e.BeatJob? {
      RunWriteKeeps(w, s, e);
    } else if e.PinBeat? || e.RecordPost? {
      RunCutWriteKeeps(w, s, e);
    } else if e.Reap? {
      ReapKeeps(w, s.db, e.job, s.db.jobs[e.job].status, e.asOf, s.clock);
    } else if e.SweepOrphan? {
      SweepKeeps(w, s, e);
    } else {
      assert DbAfter(s, e) == s.db;
    }
  }

  /** An orphan candidate is always a render Job: a done enrich, generate or publish Job's owner has
      moved on for good. */
  lemma CandidatesAreRenders(w: Watch, db: Db, j: nat, asOf: nat)
    requires DbInv(w, db) && OrphanCandidate(db, j, asOf) && w.Covers(db.jobs[j].Owner())
    ensures db.jobs[j].kind == Render
  {
    assert TellsStory(w, db, db.jobs[j]);
  }

  lemma RunStaysOk(s: Sys, t: Sys, r: Run)
    requires JobsGrow(s.db, t.db) && RunOk(s, r)
    ensures RunOk(t, r)
  {
  }

  /** A run stays on its job, and acting on it never leaves a first message behind. */
  lemma ActorKeepsJob(s: Sys, e: Event, i: nat)
    requires Enabled(s, e) && Actor(e) == Some(i)
    ensures RunAfter(s, i, e).job == s.runs[i].job
    ensures RunAfter(s, i, e).phase.Sending? ==> RunAfter(s, i, e).phase.origin.FromRetry?
  {
    if Ending(e) {
      EndingRun(s, e, i);
    } else if InBody(e) {
      BodyRun(s, e, i);
    } else {
      StartingKeepsJob(s, e, i);
    }
  }

  lemma StartingKeepsJob(s: Sys, e: Event, i: nat)
    requires Enabled(s, e) && Actor(e) == Some(i) && !Ending(e) && !InBody(e)
    ensures RunAfter(s, i, e).job == s.runs[i].job && !RunAfter(s, i, e).phase.Sending?
  {
  }

  lemma ActorStaysOk(w: Watch, s: Sys, e: Event, i: nat, t: Sys)
    requires Inv(w, s) && Enabled(s, e) && JobsGrow(s.db, t.db) && Actor(e) == Some(i)
    ensures RunOk(t, RunAfter(s, i, e))
  {
    ActorKeepsJob(s, e, i);
    assert RunOk(s, s.runs[i]) by { assert 0 <= i < |s.runs|; }
  }

  lemma SpawnedOk(w: Watch, s: Sys, e: Event, t: Sys)
    requires Inv(w, s) && Enabled(s, e) && t.db == DbAfter(s, e) && Spawned(s, e).Some?
    ensures RunOk(t, Spawned(s, e).value)
  {
    if e.Redeliver? { assert RunOk(s, s.runs[e.i]); }
  }

  lemma Step(w: Watch, s: Sys, e: Event)
    requires Inv(w, s) && Enabled(s, e) && !HarmfulSweep(w, s, e)
    ensures Inv(w, Next(s, e))
  {
    DbStep(w, s, e);
    forall i | 0 <= i < |Next(s, e).runs|
      ensures RunOk(Next(s, e), Next(s, e).runs[i])
    {
      RecordStaysOk(w, s, e, i);
    }
    PickedStayRenders(w, s, e);
  }

  lemma RecordStaysOk(w: Watch, s: Sys, e: Event, i: nat)
    requires Inv(w, s) && Enabled(s, e) && JobsGrow(s.db, DbAfter(s, e)) && i < |Next(s, e).runs|
    ensures RunOk(Next(s, e), Next(s, e).runs[i])
  {
    var t := Next(s, e);
    if i == |s.runs| {
      SpawnedOk(w, s, e, t);
    } else if Actor(e) == Some(i) {
      ActorStaysOk(w, s, e, i, t);
    } else {
      RunStaysOk(s, t, s.runs[i]);
    }
  }

  lemma PickedStayRenders(w: Watch, s: Sys, e: Event)
    requires Inv(w, s) && Enabled(s, e) && JobsGrow(s.db, DbAfter(s, e))
    ensures var t := Next(s, e);
            forall j | j in t.picked :: j in t.db.jobs
                   && (w.Covers(t.db.jobs[j].Owner()) ==> t.db.jobs[j].kind == Render)
  {
    if e.SelectOrphan? && w.Covers(s.db.jobs[e.job].Owner()) { CandidatesAreRenders(w, s.db, e.job, e.asOf); }
  }

  // ---------- Main results ----------

  /** The correspondence survives a step exactly when the step is not a sweep that rolls an owner back. */
  lemma StepKeepsCorrespondenceIff(w: Watch, s: Sys, e: Event)
    requires Inv(w, s) && Enabled(s, e)
    ensures Corresponds(w, Next(s, e).db) <==> !HarmfulSweep(w, s, e)
    ensures !HarmfulSweep(w, s, e) ==> Inv(w, Next(s, e))
  {
    if HarmfulSweep(w, s, e) {
      SweepOrphansALiveJob(w, s.db, e.job, s.picked[e.job], s.clock);
    } else {
      Step(w, s, e);
    }
  }

  /** The owner that a harmful sweep takes out of flight leaves a live job behind. */
  lemma SweepOrphansALiveJob(w: Watch, db: Db, j: nat, asOf: nat, now: nat)
    requires Corresponds(w, db) && OrphanCandidate(db, j, asOf) && w.Covers(db.jobs[j].Owner())
    ensures !Corresponds(w, ReapOne(db, j, Done, asOf, now))
  {
    var o := db.jobs[j].Owner();
    var k :| LiveFor(db, k, o);
    var db' := ReapOne(db, j, Done, asOf, now);
    assert db'.jobs[k] == db.jobs[k] && Flight(db', o).None?;
  }

  /** No harmful sweep along the trace. */
  ghost predicate Nominal(w: Watch, s: Sys, es: seq<Event>)
    requires Possible(s, es)
    decreases |es|
  {
    es == [] || (!HarmfulSweep(w, s, es[0]) && Nominal(w, Next(s, es[0]), es[1..]))
  }

  /** The invariant over whole runs of the system. */
  lemma {:induction false} TraceKeepsInv(w: Watch, s: Sys, es: seq<Event>)
    requires Inv(w, s) && Possible(s, es) && Nominal(w, s, es)
    ensures Inv(w, After(s, es))
    decreases |es|
  {
    if es != [] {
      Step(w, s, es[0]);
      TraceKeepsInv(w, Next(s, es[0]), es[1..]);
    }
  }

  /** No sweep ever harms a reel, so for reels the correspondence holds in every run whatever. */
  lemma {:induction false} ReelsAlwaysCorrespond(s: Sys, es: seq<Event>)
    requires Inv(WatchReels, s) && Possible(s, es)
    ensures Inv(WatchReels, After(s, es)) && Nominal(WatchReels, s, es)
    decreases |es|
  {
    if es != [] {
      assert !HarmfulSweep(WatchReels, s, es[0]);
      Step(WatchReels, s, es[0]);
      ReelsAlwaysCorrespond(Next(s, es[0]), es[1..]);
    }
  }

  lemma InitInv(w: Watch)
    ensures Inv(w, INIT)
  {
    assert forall o: Owner :: Flight(INIT.db, o).None?;
  }

  /** In every state in which the correspondence holds on its owner, whatever the done-orphan query selects is a
      false positive: a render Job whose cut is being rendered by a newer, live render Job. */
  lemma EveryCandidateIsAFalsePositive(w: Watch, s: Sys, j: nat, asOf: nat)
    requires Inv(w, s) && OrphanCandidate(s.db, j, asOf) && w.Covers(s.db.jobs[j].Owner())
    ensures s.db.jobs[j].kind == Render
    ensures exists k :: k != j && LiveFor(s.db, k, s.db.jobs[j].Owner()) && s.db.jobs[k].kind == Render
  {
    CandidatesAreRenders(w, s.db, j, asOf);
    var k :| LiveFor(s.db, k, s.db.jobs[j].Owner());
  }

  /** What `active_job_for_cut` and the 409 guards rely on: a cut is rendering (or publishing) exactly when
      one live Job of that kind works on it, and there is never a second. */
  lemma OneLiveJobPerOwner(w: Watch, db: Db, o: Owner, kind: JobKind)
    requires Corresponds(w, db) && w.Covers(o)
    ensures Flight(db, o) == Some(kind) <==> exists j :: LiveFor(db, j, o) && db.jobs[j].kind == kind
    ensures forall j, k | LiveFor(db, j, o) && LiveFor(db, k, o) :: j == k
  {
    if Flight(db, o) == Some(kind) {
      var j :| LiveFor(db, j, o);
      assert db.jobs[j].kind == kind;
    }
  }

  /** The enrich-to-generate hand-off after a failed enqueue and its cleanup: either the follow-up job
      still owns the generating reel, or it and the reel failed together, or it had already finished. */
  lemma HandOffIsCleanedUp(w: Watch, s: Sys, e: Event)
    requires Inv(w, s) && Enabled(s, e) && e.SendFails? && s.runs[e.i].phase.origin.FromEnrich?
    requires e.cleanup == Cleaned && Matches(s.db, s.runs[e.i].phase.origin.enrichJob, Done, None)
    ensures
      var g, db' := s.runs[e.i].job, Next(s, e).db;
      && g in db'.jobs && db'.jobs[g].ownerId in db'.reels && db'.jobs[g].status != Pending
      && db'.jobs[s.runs[e.i].phase.origin.enrichJob].status == JobStatus.Failed
      && db'.jobs[s.runs[e.i].phase.origin.enrichJob].error
      && var reel := db'.reels[db'.jobs[g].ownerId].status;
         (db'.jobs[g].status == Running && reel == ReelGenerating)
         || (db'.jobs[g].status == JobStatus.Failed && reel == ReelFailed)
         || (db'.jobs[g].status == Done && reel == ReelGuideReady)
  {
    assert RunOk(s, s.runs[e.i]);
    CleanedUpRows(w, s.db, s.runs[e.i].phase.origin.enrichJob, s.runs[e.i].job, s.clock);
  }

  lemma CleanedUpRows(w: Watch, db: Db, x: nat, g: nat, now: nat)
    requires DbInv(w, db) && Matches(db, x, Done, None) && g in db.jobs && db.jobs[x].kind == Enrich
    requires db.jobs[g].kind == Generate
    requires db.jobs[x].ownerId == db.jobs[g].ownerId
    ensures
      var db' := StampAndAbandon(db, x, g, now);
      && g in db'.jobs && db'.jobs[g].ownerId in db'.reels && db'.jobs[g].status != Pending
      && x in db'.jobs && db'.jobs[x].status == JobStatus.Failed && db'.jobs[x].error
      && var reel := db'.reels[db'.jobs[g].ownerId].status;
         (db'.jobs[g].status == Running && reel == ReelGenerating)
         || (db'.jobs[g].status == JobStatus.Failed && reel == ReelFailed)
         || (db'.jobs[g].status == Done && reel == ReelGuideReady)
  {
    AbandonKeeps(w, db, x, g, now);
    AbandonIsFail(db, x, g, now);
    var db' := StampAndAbandon(db, x, g, now);
    assert TellsStory(w, db', db'.jobs[g]);
  }

  /** Enrich done, the reel's move and the new generate Job are one commit: all three or none. */
  lemma HandOffIsAtomic(w: Watch, s: Sys, e: Event)
    requires Inv(w, s) && Enabled(s, e) && e.FinishEnrich?
    ensures
      var j, db' := s.runs[e.i].job, Next(s, e).db;
      var reel := s.db.jobs[j].ownerId;
      if Lands(s, e.i)
      then db'.jobs[j].status == Done && db'.reels[reel].status == ReelGenerating
        && LiveFor(db', e.newJob, OfReel(reel))
           && s.db.reels[reel].status == ReelEnriching
      else db' == s.db
  {
    if Lands(s, e.i) {
      assert Flight(s.db, s.db.jobs[s.runs[e.i].job].Owner()) == Some(Enrich);
    }
  }
}
