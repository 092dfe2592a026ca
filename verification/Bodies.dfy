/** How a worker run begins and ends: the claim at the head of `job_task.run` and the last transaction of
    each task body.

    A body's session works on the owner row as `prepare` loaded it (the run's view), writes only the
    columns it changed, and lands everything with the fenced done-stamp. Each ending is proved to leave
    exactly the rows of the run's `Finish` event when the run still holds its job and the state it loaded
    allows the move, and to leave the rows alone otherwise. */
module Bodies {
  import opened Wrappers
  import opened GuideEdit
  import opened PinFingerprint
  import opened Rows
  import opened Tx
  import opened System
  import opened Sessions

  /** Stamped done; discarded because the run was reaped or superseded; or the body raised. */
  datatype End = Stamped | Discarded | Raised

  /** The guard and the claim. `seen` is the status the guard read, maybe a while ago; the claim itself is
      one compare-and-set out of pending, unfenced, which makes the new token. */
  method ClaimMessage(db: Session, j: nat, seen: JobStatus, now: nat, ghost s: Sys, ghost i: nat)
    returns (claimed: bool)
    requires s.db == db.durable == db.work && s.clock == now && Enabled(s, ClaimJob(i)) && s.runs[i].job == j
    modifies db
    ensures db.work == db.durable == if seen == Pending then DbAfter(s, ClaimJob(i)) else s.db
    ensures claimed <==> seen == Pending && RunAfter(s, i, ClaimJob(i)).phase.Claimed?
    ensures claimed ==> db.durable.jobs[j].token == RunAfter(s, i, ClaimJob(i)).claimTok
  {
    if seen != Pending { return false; }
    claimed := db.Advance(j, Pending, ClaimIt, None, now);
    if !claimed {
      db.Rollback();
      return;
    }
    db.Commit();
  }

  /** The tail of `run`: done-stamp and commit, or discard. */
  method StampOrDiscard(db: Session, j: nat, tok: nat, now: nat) returns (end: End)
    modifies db
    ensures end == if Matches(old(db.work), j, Running, Some(tok)) then Stamped else Discarded
    ensures db.durable == if end.Stamped? then DoneStamp(old(db.work), j, now) else old(db.durable)
    ensures db.work == db.durable
  {
    var done := db.Complete(j, tok, now);
    end := if done then Stamped else Discarded;
  }

  /** The end of `enrich_context`: job row lock, the reel's move, the follow-up job, the stamp. */
  method EndEnrich(db: Session, r: Run, newJob: nat, now: nat, ghost s: Sys, ghost i: nat) returns (end: End)
    requires s.db == db.durable == db.work && s.clock == now && RunIn(s, i, Enrich) && s.runs[i] == r
    requires newJob !in db.durable.jobs
    modifies db
    ensures db.work == db.durable
    ensures end.Stamped? <==> Lands(s, i) && Enabled(s, FinishEnrich(i, newJob))
    ensures end.Stamped? ==> db.durable == DbAfter(s, FinishEnrich(i, newJob))
    ensures !end.Stamped? ==> db.durable == s.db
  {
    var lost := db.LockJob(r.job, r.tok, now);
    if lost { return Raised; }
    var reel := db.work.jobs[r.job].ownerId;
    if !Allowed(REEL_TRANSITIONS, r.view.status, ReelGenerating) {
      db.Rollback();
      return Raised;
    }
    db.work := db.work.(reels := db.work.reels[reel := Reel(ReelGenerating)]);
    db.work := db.work.(jobs := db.work.jobs[newJob := NewJob(Generate, reel, now)]);
    HandOffRows(s, i, newJob);
    end := StampOrDiscard(db, r.job, r.tok, now);
  }

  /** The order in which the hand-off writes its rows does not show in what it commits. */
  lemma HandOffRows(s: Sys, i: nat, newJob: nat)
    requires Enabled(s, FinishEnrich(i, newJob)) && Lands(s, i)
    ensures
      var r, reel := s.runs[i], JobOf(s, i).ownerId;
      var locked := Tx.Heartbeat(s.db, r.job, r.tok, s.clock);
      var written := SetJob(SetReel(locked, reel, ReelGenerating), newJob, NewJob(Generate, reel, s.clock));
      && Matches(written, r.job, Running, Some(r.tok))
      && DoneStamp(written, r.job, s.clock) == DbAfter(s, FinishEnrich(i, newJob))
  {
    var r, reel := s.runs[i], JobOf(s, i).ownerId;
    var locked := Tx.Heartbeat(s.db, r.job, r.tok, s.clock);
    var written := SetJob(SetReel(locked, reel, ReelGenerating), newJob, NewJob(Generate, reel, s.clock));
    assert DoneStamp(written, r.job, s.clock).jobs == DbAfter(s, FinishEnrich(i, newJob)).jobs;
  }

  // ---------- Generate ----------

  /** A platform's guide from the accepted master guide, and a cut of the reel as the body listed it. */
  datatype PlatformGuide = PlatformGuide(platform: string, guide: Guide)

  datatype ListedCut = ListedCut(id: nat, platform: string)

  /** The first cut of the platform. */
  function FirstCut(cuts: seq<ListedCut>, platform: string): Option<nat> {
    if cuts == [] then None
    else if cuts[0].platform == platform then Some(cuts[0].id)
    else FirstCut(cuts[1..], platform)
  }

  /** Which cut gets which guide. */
  function Placed(cuts: seq<ListedCut>, guides: seq<PlatformGuide>): map<nat, Guide> {
    if guides == [] then map[]
    else
      var last := guides[|guides| - 1];
      var before := Placed(cuts, guides[..|guides| - 1]);
      if FirstCut(cuts, last.platform).None? then before else before[FirstCut(cuts, last.platform).value := last.guide]
  }

  lemma {:induction false} PlacedOnListed(cuts: seq<ListedCut>, guides: seq<PlatformGuide>)
    ensures forall c | c in Placed(cuts, guides) :: exists l :: l in cuts && l.id == c
  {
    if guides != [] {
      PlacedOnListed(cuts, guides[..|guides| - 1]);
      FirstIsListed(cuts, guides[|guides| - 1].platform);
    }
  }

  lemma {:induction false} FirstIsListed(cuts: seq<ListedCut>, platform: string)
    ensures FirstCut(cuts, platform).Some? ==> exists l ::
            l in cuts && l.id == FirstCut(cuts, platform).value && l.platform == platform
  {
    if cuts != [] {
      if cuts[0].platform == platform { assert cuts[0] in cuts; } else { FirstIsListed(cuts[1..], platform); }
    }
  }

  /** The cut is the first listed one of the platform. */
  ghost predicate IsFor(cuts: seq<ListedCut>, platform: string, c: nat) {
    exists n: nat ::
      && n < |cuts| && cuts[n].platform == platform && cuts[n].id == c
      && forall m | 0 <= m < n :: cuts[m].platform != platform
  }

  lemma {:induction false} FirstCutIs(cuts: seq<ListedCut>, platform: string, c: nat)
    ensures FirstCut(cuts, platform) == Some(c) <==> IsFor(cuts, platform, c)
  {
    if cuts != [] && cuts[0].platform == platform {
      assert IsFor(cuts, platform, cuts[0].id);
    } else if cuts != [] {
      FirstCutIs(cuts[1..], platform, c);
      if IsFor(cuts, platform, c) {
        var n: nat :| n < |cuts| && cuts[n].platform == platform && cuts[n].id == c
            && forall m | 0 <= m < n :: cuts[m].platform != platform;
        assert cuts[1..][n - 1] == cuts[n];
      }
      if IsFor(cuts[1..], platform, c) {
        var n: nat :| n < |cuts[1..]| && cuts[1..][n].platform == platform && cuts[1..][n].id == c
            && forall m | 0 <= m < n :: cuts[1..][m].platform != platform;
        assert cuts[n + 1].platform == platform && forall m | 0 < m < n + 1 :: cuts[m] == cuts[1..][m - 1];
      }
    }
  }

  /** The last guide whose platform's first cut this is, if there is one. */
  ghost predicate LastGuideFor(cuts: seq<ListedCut>, guides: seq<PlatformGuide>, c: nat, k: nat) {
    && k < |guides| && IsFor(cuts, guides[k].platform, c)
    && forall n | k < n < |guides| :: !IsFor(cuts, guides[n].platform, c)
  }

  /** The cut holds the last guide meant for it, and is as before when none is. */
  ghost predicate PersistedCut(before: Cut, after: Cut, cuts: seq<ListedCut>, guides: seq<PlatformGuide>, c: nat) {
    && (forall k: nat | LastGuideFor(cuts, guides, c, k) :: after == before.(guide := Some(guides[k].guide)))
    && ((forall k | 0 <= k < |guides| :: !IsFor(cuts, guides[k].platform, c)) ==> after == before)
  }

  /** So it is with every cut; folded. */
  ghost predicate Persisted(before: map<nat, Cut>, after: map<nat, Cut>, cuts: seq<ListedCut>,
                            guides: seq<PlatformGuide>)
  {
    forall o {:trigger Open(o)} :: Open(o) ==>
      after.Keys == before.Keys && forall c | c in before :: PersistedCut(before[c], after[c], cuts, guides, c)
  }

  lemma {:induction false} PlacedIsMeant(cuts: seq<ListedCut>, guides: seq<PlatformGuide>, c: nat)
    ensures c in Placed(cuts, guides) ==> exists k | 0 <= k < |guides| :: IsFor(cuts, guides[k].platform, c)
  {
    if guides != [] && c in Placed(cuts, guides) {
      var last, before := guides[|guides| - 1], guides[..|guides| - 1];
      FirstCutIs(cuts, last.platform, c);
      if !IsFor(cuts, last.platform, c) {
        PlacedIsMeant(cuts, before, c);
        var k :| 0 <= k < |before| && IsFor(cuts, before[k].platform, c);
        assert guides[k] == before[k];
      }
    }
  }

  lemma {:induction false} LastGuideIsPlaced(cuts: seq<ListedCut>, guides: seq<PlatformGuide>, c: nat, k: nat)
    requires LastGuideFor(cuts, guides, c, k)
    ensures c in Placed(cuts, guides) && Placed(cuts, guides)[c] == guides[k].guide
    decreases |guides|
  {
    var last, before := guides[|guides| - 1], guides[..|guides| - 1];
    FirstCutIs(cuts, last.platform, c);
    if k < |before| {
      assert before[k] == guides[k];
      LastGuideIsPlaced(cuts, before, c, k);
    }
  }

  lemma WithGuidesPersists(db: Db, cuts: seq<ListedCut>, guides: seq<PlatformGuide>)
    ensures Persisted(db.cuts, WithGuides(db, Placed(cuts, guides)).cuts, cuts, guides)
  {
    forall c | c in db.cuts
      ensures PersistedCut(db.cuts[c], WithGuides(db, Placed(cuts, guides)).cuts[c], cuts, guides, c)
    {
      PlacedIsMeant(cuts, guides, c);
      forall k: nat | LastGuideFor(cuts, guides, c, k)
        ensures c in Placed(cuts, guides) && Placed(cuts, guides)[c] == guides[k].guide
      {
        LastGuideIsPlaced(cuts, guides, c, k);
      }
    }
  }

  /** So, with every cut listed once, a platform's first cut holds the last guide of that platform. */
  lemma EachPlatformGetsItsGuide(before: map<nat, Cut>, after: map<nat, Cut>, cuts: seq<ListedCut>,
                                 guides: seq<PlatformGuide>, k: nat, n: nat)
    requires Persisted(before, after, cuts, guides) && forall l | l in cuts :: l.id in before
    requires forall i, j | 0 <= i < j < |cuts| :: cuts[i].id != cuts[j].id
    requires k < |guides| && forall m | k < m < |guides| :: guides[m].platform != guides[k].platform
    requires n < |cuts| && cuts[n].platform == guides[k].platform
    requires forall m | 0 <= m < n :: cuts[m].platform != guides[k].platform
    ensures cuts[n].id in after && after[cuts[n].id] == before[cuts[n].id].(guide := Some(guides[k].guide))
  {
    assert cuts[n] in cuts;
    assert LastGuideFor(cuts, guides, cuts[n].id, k);
    assert Open(0);
    assert PersistedCut(before[cuts[n].id], after[cuts[n].id], cuts, guides, cuts[n].id);
  }

  /** `_persist_guide`: a guide whose platform no cut has is skipped. */
  method PersistGuide(db: Session, cuts: seq<ListedCut>, guides: seq<PlatformGuide>)
    requires forall l | l in cuts :: l.id in db.work.cuts
    modifies db`work
    ensures db.work == WithGuides(old(db.work), Placed(cuts, guides))
    ensures db.work == old(db.work).(cuts := db.work.cuts)
    ensures Persisted(old(db.work).cuts, db.work.cuts, cuts, guides)
  {
    ghost var before := db.work;
    assert WithGuides(before, map[]) == before;
    for k := 0 to |guides|
      invariant db.work == WithGuides(before, Placed(cuts, guides[..k]))
    {
      var c := FirstCut(cuts, guides[k].platform);
      FirstIsListed(cuts, guides[k].platform);
      assert guides[..k + 1][..k] == guides[..k];
      if c.Some? {
        db.work := db.work.(cuts := db.work.cuts[c.value := db.work.cuts[c.value].(guide := Some(guides[k].guide))]);
        assert db.work.cuts == WithGuides(before, Placed(cuts, guides[..k + 1])).cuts;
      }
    }
    assert guides[..|guides|] == guides;
    WithGuidesPersists(before, cuts, guides);
  }

  /** The end of `generate_guide`. */
  method EndGenerate(db: Session, r: Run, cuts: seq<ListedCut>, guides: seq<PlatformGuide>, now: nat, ghost s: Sys,
                     ghost i: nat)
    returns (end: End)
    requires s.db == db.durable == db.work && s.clock == now && RunIn(s, i, Generate) && s.runs[i] == r
    requires forall l | l in cuts :: l.id in db.durable.cuts && db.durable.cuts[l.id].reelId == JobOf(s, i).ownerId
    modifies db
    ensures db.work == db.durable
    ensures end.Stamped? <==> Lands(s, i) && Enabled(s, FinishGenerate(i, Placed(cuts, guides)))
    ensures end.Stamped? ==> db.durable == DbAfter(s, FinishGenerate(i, Placed(cuts, guides)))
    ensures end.Stamped? ==> Persisted(s.db.cuts, db.durable.cuts, cuts, guides)
    ensures !end.Stamped? ==> db.durable == s.db
  {
    PlacedOnListed(cuts, guides);
    PersistGuide(db, cuts, guides);
    if !Allowed(REEL_TRANSITIONS, r.view.status, ReelGuideReady) {
      db.Rollback();
      return Raised;
    }
    var reel := db.work.jobs[r.job].ownerId;
    db.work := db.work.(reels := db.work.reels[reel := Reel(ReelGuideReady)]);
    end := StampOrDiscard(db, r.job, r.tok, now);
  }

  // ---------- Render ----------

  /** The end of `render_cut`, after the cut was re-read (`refreshed`) and its pins were (`pinsSeen`, which
      the query lists as `rows` in whatever order): what is recorded with the video, and the move to
      review. */
  method EndRender(db: Session, r: Run, rows: seq<Pin>, now: nat, ghost s: Sys, ghost i: nat) returns (end: End)
    requires s.db == db.durable == db.work && s.clock == now && RunIn(s, i, Render) && s.runs[i] == r
    requires r.refreshed.Some? && r.pinsSeen.Some? && multiset(rows) == multiset(r.pinsSeen.value)
    requires r.view.cut.guide.Some? && r.refreshed.value.guide.Some?
    modifies db
    ensures db.work == db.durable
    ensures end.Stamped? <==> Lands(s, i) && Enabled(s, FinishRender(i))
    ensures end.Stamped? ==> db.durable == DbAfter(s, FinishRender(i))
    ensures !end.Stamped? ==> db.durable == s.db
  {
    RenderMayEnd(r, s, i);
    var c := db.work.jobs[r.job].ownerId;
    if !Allowed(CUT_TRANSITIONS, r.refreshed.value.status, CutInReview) { return Raised; }
    if Lands(s, i) { RecordedIsTheEvents(r, rows, s, i); }
    db.work := db.work.(cuts := db.work.cuts[c := Recorded(db.work.cuts[c], r, rows)]);
    end := StampOrDiscard(db, r.job, r.tok, now);
  }

  /** The columns `render_cut` assigns. */
  function Recorded(row: Cut, r: Run, rows: seq<Pin>): Cut
    requires r.view.CutView? && r.view.cut.guide.Some? && r.refreshed.Some? && r.refreshed.value.guide.Some?
  {
    row.(recorded := Some(Recording(r.view.cut.guide.value, r.builtPins)),
         pinsFp := Some(FingerprintOfRows(rows)),
         guideFp := Some(GuideFp(r.refreshed.value.guide.value)),
         status := CutInReview)
  }

  lemma RenderMayEnd(r: Run, s: Sys, i: nat)
    requires RunIn(s, i, Render) && s.runs[i] == r && r.refreshed.Some? && r.pinsSeen.Some?
    requires r.view.cut.guide.Some? && r.refreshed.value.guide.Some?
    ensures Enabled(s, FinishRender(i)) <==> Allowed(CUT_TRANSITIONS, r.refreshed.value.status, CutInReview)
  {
  }

  lemma RecordedIsTheEvents(r: Run, rows: seq<Pin>, s: Sys, i: nat)
    requires Enabled(s, FinishRender(i)) && Lands(s, i) && s.runs[i] == r
    requires multiset(rows) == multiset(r.pinsSeen.value)
    ensures DbAfter(s, FinishRender(i))
            == SetCut(DoneStamp(s.db, r.job, s.clock), JobOf(s, i).ownerId, Recorded(CutOf(s, i), r, rows))
  {
    PinsFingerprintIsCanonical(r.pinsSeen.value, r.pinsSeen.value, rows);
  }

  // ---------- Publish ----------

  /** What `publish_cut` does with a cut: refuse it (an exception), only finalize it, or upload. */
  datatype Plan = Refuse | Finalize | UploadFirst

  /** The head of `publish_cut`, up to the credential lookup. `safe` is `assert_safe_to_publish`, `rows` the
      cut's pins as the query lists them. */
  method PlanPublish(r: Run, rows: seq<Pin>, safe: bool, ghost s: Sys, ghost i: nat) returns (plan: Plan)
    requires RunIn(s, i, Publish) && s.runs[i] == r && multiset(rows) == multiset(CutOf(s, i).pins)
    ensures plan.UploadFirst? <==> Enabled(s, PassGate(i)) && safe
    ensures plan.Finalize? <==> r.view.cut.recorded.Some? && r.view.cut.postId.Some?
  {
    var cut := r.view.cut;
    if cut.recorded.None? { return Refuse; }
    if cut.postId.Some? { return Finalize; }
    if !safe { return Refuse; }
    PinsFingerprintIsCanonical(CutOf(s, i).pins, CutOf(s, i).pins, rows);
    if cut.pinsFp.Some? && FingerprintOfRows(rows) != cut.pinsFp.value { return Refuse; }
    if cut.guideFp.Some? && (cut.guide.None? || GuideFp(cut.guide.value) != cut.guideFp.value) { return Refuse; }
    return UploadFirst;
  }

  /** The one early commit: the post id, whatever has become of the job meanwhile. */
  method RecordPostId(db: Session, r: Run, post: nat, ghost s: Sys, ghost i: nat)
    requires s.db == db.durable == db.work && Enabled(s, RecordPost(i, post)) && s.runs[i] == r
    modifies db
    ensures db.work == db.durable == DbAfter(s, RecordPost(i, post))
  {
    var c := db.work.jobs[r.job].ownerId;
    db.work := db.work.(cuts := db.work.cuts[c := db.work.cuts[c].(postId := Some(post))]);
    db.Commit();
  }

  /** The end of `publish_cut`, once a post id is recorded or was there already. */
  method EndPublish(db: Session, r: Run, now: nat, ghost s: Sys, ghost i: nat) returns (end: End)
    requires s.db == db.durable == db.work && s.clock == now && RunIn(s, i, Publish) && s.runs[i] == r
    requires r.view.cut.recorded.Some? && (r.posted || r.view.cut.postId.Some?)
    modifies db
    ensures db.work == db.durable
    ensures end.Stamped? <==> Lands(s, i) && Enabled(s, FinishPublish(i))
    ensures end.Stamped? ==> db.durable == DbAfter(s, FinishPublish(i))
    ensures !end.Stamped? ==> db.durable == s.db
  {
    if !Allowed(CUT_TRANSITIONS, r.view.cut.status, CutPublished) { return Raised; }
    var c := db.work.jobs[r.job].ownerId;
    db.work := db.work.(cuts := db.work.cuts[c := db.work.cuts[c].(status := CutPublished)]);
    end := StampOrDiscard(db, r.job, r.tok, now);
  }
}
