/** The HTTP routes that start or edit work: `create_reel`, `trigger_render`, `trigger_publish`,
    `update_cut`, `approve_cut`, `choose_hook_variant` and `enqueue_job`.

    Each route locks its row, checks it, changes it and commits. It is proved to serve exactly the
    requests whose event is enabled in `System`, to leave exactly that event's rows when it does, and to
    leave the rows alone when it refuses. Identifiers of new rows, which the database assigns, are
    arguments. */
module Routers {
  import opened Wrappers
  import opened GuideEdit
  import opened PinFingerprint
  import opened Rows
  import opened Tx
  import opened System
  import opened Correspondence
  import opened Fencing
  import opened ExactlyOnce
  import opened Sessions

  /** Served, or the status code of the HTTPException. */
  datatype Reply = Served | Refused(code: nat)

  /** What the broker call of a request does: the message is sent, or the call raises. In between, with
      no transaction open, other sessions turn the rows into what `others` says, and again (`later`) if
      the failure's own commit goes wrong. */
  datatype Broker = Sends | Refuses(others: Db -> Db, fault: CommitFault, later: Db -> Db)

  /** The rows a request leaves that committed `db` with its new job `id`. */
  function Enqueued(db: Db, id: nat, broker: Broker, now: nat): Db {
    match broker
    case Sends => db
    case Refuses(others, fault, later) => Finalized(others(db), id, Pending, None, now, fault, later)
  }

  /** `enqueue_job`: the job and the caller's pending change commit together, then the broker call; if it
      raises, `fail_unenqueued` and a 503. */
  method EnqueueJob(db: Session, id: nat, job: Job, broker: Broker, now: nat) returns (reply: Reply)
    modifies db
    ensures reply == if broker.Sends? then Served else Refused(503)
    ensures db.durable == Enqueued(SetJob(old(db.work), id, job), id, broker, now) && db.work == db.durable
  {
    db.work := db.work.(jobs := db.work.jobs[id := job]);
    db.Commit();
    match broker
    case Sends =>
      reply := Served;
    case Refuses(others, fault, later) =>
      db.durable := others(db.durable);
      db.FinalizeOrReconnect(id, Pending, None, now, fault, later);
      reply := Refused(503);
  }

  method TriggerRender(db: Session, cut: nat, newJob: nat, broker: Broker, now: nat, ghost s: Sys)
    returns (reply: Reply)
    requires s.db == db.durable == db.work && s.clock == now && newJob !in db.durable.jobs
    modifies db
    ensures db.work == db.durable
    ensures Enabled(s, Event.TriggerRender(cut, newJob)) ==>
              && db.durable == Enqueued(DbAfter(s, Event.TriggerRender(cut, newJob)), newJob, broker, now)
              && reply == if broker.Sends? then Served else Refused(503)
    ensures !Enabled(s, Event.TriggerRender(cut, newJob)) ==> db.durable == s.db && reply.Refused? && reply.code != 503
    ensures reply == Refused(404) <==> cut !in s.db.cuts
    ensures reply == Refused(422) <==> cut in s.db.cuts && s.db.cuts[cut].guide.None?
    ensures reply == Refused(409) <==>
            && cut in s.db.cuts && s.db.cuts[cut].guide.Some?
            && (s.db.cuts[cut].postId.Some? || s.db.cuts[cut].status !in {CutDraft, CutInReview, CutFailed})
  {
    if cut !in db.work.cuts { return Refused(404); }
    var row := db.work.cuts[cut];
    if row.guide.None? { return Refused(422); }
    if row.postId.Some? { return Refused(409); }
    var current := row.status;
    if current == CutRendering { return Refused(409); }
    if current == CutFailed {
      var _ := db.TransitionCut(cut, CutDraft);
      current := CutDraft;
    }
    if current !in {CutDraft, CutInReview} { return Refused(409); }
    var ok := db.TransitionCut(cut, CutRendering);
    assert ok;
    assert db.work == SetCut(s.db, cut, row.(status := CutRendering));
    reply := EnqueueJob(db, newJob, NewJob(Render, cut, now), broker, now);
  }

  method TriggerPublish(db: Session, cut: nat, newJob: nat, broker: Broker, now: nat, ghost s: Sys)
    returns (reply: Reply)
    requires s.db == db.durable == db.work && s.clock == now && newJob !in db.durable.jobs
    modifies db
    ensures db.work == db.durable
    ensures Enabled(s, Event.TriggerPublish(cut, newJob)) ==>
              && db.durable == Enqueued(DbAfter(s, Event.TriggerPublish(cut, newJob)), newJob, broker, now)
              && reply == if broker.Sends? then Served else Refused(503)
    ensures !Enabled(s, Event.TriggerPublish(cut, newJob)) ==> db.durable == s.db && reply.Refused? && reply.code != 503
    ensures reply == Refused(404) <==> cut !in s.db.cuts
    ensures reply == Refused(422) <==> cut in s.db.cuts && s.db.cuts[cut].recorded.None?
    ensures reply == Refused(409) <==>
            && cut in s.db.cuts && s.db.cuts[cut].recorded.Some?
            && s.db.cuts[cut].status !in {CutApproved, CutScheduled, CutFailed}
  {
    if cut !in db.work.cuts { return Refused(404); }
    var row := db.work.cuts[cut];
    if row.recorded.None? { return Refused(422); }
    var current := row.status;
    if current == CutPublishing { return Refused(409); }
    if current == CutFailed {
      var _ := db.TransitionCut(cut, CutApproved);
      current := CutApproved;
    }
    if current !in {CutApproved, CutScheduled} { return Refused(409); }
    var ok := db.TransitionCut(cut, CutPublishing);
    assert ok;
    assert db.work == SetCut(s.db, cut, row.(status := CutPublishing));
    reply := EnqueueJob(db, newJob, NewJob(Publish, cut, now), broker, now);
  }

  /** `update_cut`, without the caption and hashtag columns. Saving a form that changes nothing leaves the
      guide column, and so every fingerprint comparison, exactly as it was. */
  method UpdateCut(db: Session, cut: nat, form: seq<BeatForm>, derive: string -> seq<string>, ghost s: Sys)
    returns (reply: Reply)
    requires s.db == db.durable == db.work
    modifies db
    ensures db.work == db.durable
    ensures reply == Refused(404) <==> cut !in s.db.cuts
    ensures reply == Refused(409) <==> cut in s.db.cuts && s.db.cuts[cut].status != CutInReview
    ensures reply.Served? <==> cut in s.db.cuts && s.db.cuts[cut].status == CutInReview
    ensures !reply.Served? || s.db.cuts[cut].guide.None? ==> db.durable == s.db
    ensures reply.Served? && s.db.cuts[cut].guide.Some? ==>
              var e := EditGuide(cut, PatchGuide(s.db.cuts[cut].guide.value, form, derive));
              Enabled(s, e) && db.durable == DbAfter(s, e)
  {
    if cut !in db.work.cuts { return Refused(404); }
    var row := db.work.cuts[cut];
    if row.status != CutInReview { return Refused(409); }
    if row.guide.Some? {
      var guide, changed := UpdateGuide(row.guide.value, form, derive);
      if changed {
        db.work := db.work.(cuts := db.work.cuts[cut := row.(guide := Some(guide))]);
      }
      EditsKeepBeats(row.guide.value, form, 0, "", derive);
      assert db.work == SetCut(s.db, cut, row.(guide := Some(guide)));
    }
    db.Commit();
    reply := Served;
  }

  method ApproveCut(db: Session, cut: nat, ghost s: Sys) returns (reply: Reply)
    requires s.db == db.durable == db.work
    modifies db
    ensures db.work == db.durable
    ensures reply.Served? <==> Enabled(s, Approve(cut))
    ensures db.durable == if reply.Served? then DbAfter(s, Approve(cut)) else s.db
    ensures reply == Refused(404) <==> cut !in s.db.cuts
    ensures reply == Refused(409) <==> cut in s.db.cuts && s.db.cuts[cut].status != CutInReview
  {
    if cut !in db.work.cuts { return Refused(404); }
    if db.work.cuts[cut].status != CutInReview { return Refused(409); }
    var ok := db.TransitionCut(cut, CutApproved);
    assert ok;
    db.Commit();
    reply := Served;
  }

  /** `choose_hook_variant`. `index` is None when the form field is no integer; `variants` is the cut's
      `hook_variants` column and `isHook` says whether a beat's type is "hook". */
  method ChooseHookVariant(db: Session, cut: nat, index: Option<int>, variants: seq<string>, isHook: Beat -> bool,
                           derive: string -> seq<string>, ghost s: Sys)
    returns (reply: Reply)
    requires s.db == db.durable == db.work
    modifies db
    ensures db.work == db.durable
    ensures reply.Served? <==>
            && cut in s.db.cuts && s.db.cuts[cut].status == CutInReview
            && index.Some? && 0 <= index.value < |variants|
            && s.db.cuts[cut].guide.Some? && s.db.cuts[cut].guide.value.beats != []
            && isHook(s.db.cuts[cut].guide.value.beats[0])
    ensures reply.Served? ==>
              var e := EditGuide(cut, ReplaceBeatVo(s.db.cuts[cut].guide.value, 0, variants[index.value], derive));
              Enabled(s, e) && db.durable == DbAfter(s, e)
    ensures !reply.Served? ==> db.durable == s.db && reply.code in {404, 409, 422}
    ensures reply == Refused(404) <==> cut !in s.db.cuts
    ensures reply == Refused(409) <==> cut in s.db.cuts && s.db.cuts[cut].status != CutInReview
  {
    if cut !in db.work.cuts { return Refused(404); }
    var row := db.work.cuts[cut];
    if row.status != CutInReview { return Refused(409); }
    if index.None? { return Refused(422); }
    if variants == [] || !(0 <= index.value < |variants|) || row.guide.None? { return Refused(422); }
    var beats := row.guide.value.beats;
    if beats == [] || !isHook(beats[0]) { return Refused(422); }
    var replaced := ReplaceBeatVo(row.guide.value, 0, variants[index.value], derive);
    db.work := db.work.(cuts := db.work.cuts[cut := row.(guide := Some(replaced))]);
    db.Commit();
    reply := Served;
  }

  function NewCut(reel: nat): Cut {
    Cut(reel, CutDraft, None, {}, map[], None, None, None, None)
  }

  /** The platform loop of `create_reel`. */
  method AddCuts(db: Session, reel: nat, cutIds: seq<nat>)
    requires forall c | c in cutIds :: c !in db.work.cuts
    modifies db
    ensures db.durable == old(db.durable)
    ensures db.work == old(db.work).(cuts := old(db.work).cuts + map c: nat | c in cutIds :: NewCut(reel))
  {
    ghost var before := db.work;
    for k := 0 to |cutIds|
      invariant db.durable == old(db.durable) && db.work == before.(cuts := db.work.cuts)
      invariant forall c :: c in db.work.cuts <==> c in before.cuts || c in cutIds[..k]
      invariant forall c | c in db.work.cuts ::
                db.work.cuts[c] == if c in before.cuts then before.cuts[c] else NewCut(reel)
    {
      db.work := db.work.(cuts := db.work.cuts[cutIds[k] := NewCut(reel)]);
      assert cutIds[..k + 1] == cutIds[..k] + [cutIds[k]];
    }
    assert cutIds[..|cutIds|] == cutIds;
    assert db.work.cuts == before.cuts + map c: nat | c in cutIds :: NewCut(reel);
  }

  lemma NewRowsAreTheEvents(s: Sys, reel: nat, cutIds: seq<nat>, newJob: nat)
    requires reel !in s.db.reels && newJob !in s.db.jobs && forall c | c in cutIds :: c !in s.db.cuts
    ensures var e := Event.CreateReel(reel, set c: nat | c in cutIds :: c, newJob);
            && Enabled(s, e)
            && DbAfter(s, e) == Db(s.db.jobs[newJob := NewJob(Enrich, reel, s.clock)],
                                   s.db.reels[reel := Reel(ReelEnriching)],
                                   s.db.cuts + map c: nat | c in cutIds :: NewCut(reel))
  {
    var ids := set c: nat | c in cutIds :: c;
    assert (map c: nat | c in cutIds :: NewCut(reel))
           == (map c | c in ids :: Cut(reel, CutDraft, None, {}, map[], None, None, None, None));
  }

  /** `create_reel`. `blank` says that nothing is left of the context once hidden characters are gone,
      `reel` and `cutIds` are the identifiers assigned to the new rows, one cut per selected platform. */
  method CreateReel(db: Session, blank: bool, reel: nat, cutIds: seq<nat>, newJob: nat, broker: Broker, now: nat,
                    ghost s: Sys)
    returns (reply: Reply)
    requires s.db == db.durable == db.work && s.clock == now
    requires reel !in db.durable.reels && newJob !in db.durable.jobs
    requires forall c | c in cutIds :: c !in db.durable.cuts
    modifies db
    ensures blank ==> reply == Refused(422) && db.durable == s.db
    ensures !blank ==>
              && Enabled(s, Event.CreateReel(reel, set c: nat | c in cutIds :: c, newJob))
              && db.durable == Enqueued(DbAfter(s, Event.CreateReel(reel, set c: nat | c in cutIds :: c, newJob)),
                                        newJob, broker, now)
              && reply == if broker.Sends? then Served else Refused(503)
    ensures db.work == db.durable
  {
    if blank { return Refused(422); }
    db.work := db.work.(reels := db.work.reels[reel := Reel(ReelDraft)]);
    var ok := db.TransitionReel(reel, ReelEnriching);
    assert ok;
    AddCuts(db, reel, cutIds);
    NewRowsAreTheEvents(s, reel, cutIds, newJob);
    assert db.work.reels == s.db.reels[reel := Reel(ReelEnriching)];
    reply := EnqueueJob(db, newJob, NewJob(Enrich, reel, now), broker, now);
  }

  // ---------- A refused send ----------

  /** What `EnqueueJob` leaves when the broker refuses. Whatever events, short of a harmful sweep of this cut,
      come between the commit that put job `j` on it and the refusal: if the job was claimed after all it is
      left alone, and otherwise it is failed and the cut it alone answered for is out of flight, so the
      operator's next request is not turned away. With a fault in the recorder's own commit,
      `ExactlyOnce.ReconnectIsExactlyOnce` says the rest. */
  lemma RefusedSendFreesItsCut(s: Sys, es: seq<Event>, j: nat, cut: nat, now: nat, others: Db -> Db, later: Db -> Db)
    requires Inv(WatchCut(cut), s) && LiveFor(s.db, j, OfCut(cut)) && Possible(s, es) && Nominal(WatchCut(cut), s, es)
    requires others(s.db) == After(s, es).db
    ensures var db, db' := After(s, es).db, Enqueued(s.db, j, Refuses(others, Landed, later), now);
            if j in db.jobs && db.jobs[j].status == Pending
            then FailedAlone(db, db', j) && Flight(db', OfCut(cut)).None? else db' == db
  {
    OwnerStays(s, es, j);
    RewriteAfterLossIsTheOnlyWrite(WatchCut(cut), s, es, j, Pending, None, now);
  }

  /** The requests that can meet a refusal leave such a state (`Correspondence.Step` gives its invariant). */
  lemma RequestsTakeTheirCut(s: Sys, e: Event)
    requires Enabled(s, e) && (e.TriggerRender? || e.TriggerPublish?)
    ensures LiveFor(Next(s, e).db, e.newJob, OfCut(e.cut)) && Flight(s.db, OfCut(e.cut)).None?
  {
  }
}
