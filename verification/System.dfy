/** The whole system as a state machine: the rows, every message and worker run, and a clock.

    A message and the run it starts are one record. It begins as `Sending` (committed work whose
    broker call is still to be made), becomes `Queued` once the broker has it, and then is claimed and
    executed. The broker may lose a message (`Crash`) or deliver it again (`Redeliver`); a worker may
    crash, be shut down or be superseded at any point. Each event is one committed transaction or one
    read; within those limits events interleave freely. */
module System {
  import opened Wrappers
  import opened GuideEdit
  import opened PinFingerprint
  import opened Rows
  import opened Tx

  /** Who is about to send the message; it decides what a refused send does. */
  datatype Origin = FromRouter | FromReaper | FromRetry(fence: Option<nat>) | FromEnrich(enrichJob: nat)

  datatype Phase =
    | Sending(origin: Origin)
    | Queued
    | Claimed   // the claim is committed, its token not yet read back
    | Owned     // the token is captured
    | Working   // prepare has loaded the owner row
    | Ended

  /** The owner row as `prepare` loaded it; the session never refreshes it on its own. */
  datatype View = NoView | ReelView(status: ReelStatus) | CutView(cut: Cut)

  /** `claimTok` is the value this run's own claim wrote; `tok` is what it read back and fences with.
      The rest is the local state of a render (`built`, the number of beats it has done, in guide order,
      onwards; `resolving` between the read that finds no pins to reuse for the next beat and the write of
      what the resolution found) or a publish (`gated` onwards). */
  datatype Run = Run(
    job: nat, retries: nat, phase: Phase, claimTok: nat, tok: nat, view: View,
    built: nat, builtPins: set<Pin>, resolving: bool, refreshed: Option<Cut>, pinsSeen: Option<set<Pin>>,
    gated: bool, uploaded: bool, posted: bool)
  {
    predicate Active() { phase.Claimed? || phase.Owned? || phase.Working? }

    predicate Holder() { phase.Owned? || phase.Working? }
  }

  function NewRun(job: nat, retries: nat, phase: Phase): Run {
    Run(job, retries, phase, 0, 0, NoView, 0, {}, false, None, None, false, false, false)
  }

  datatype Sys = Sys(db: Db, runs: seq<Run>, picked: map<nat, nat>, clock: nat)

  const INIT := Sys(Db(map[], map[], map[]), [], map[], 0)

  /** How far the cleanup after a failed after_commit got (see `Sessions.StampFailedAndRunCleanup`). */
  datatype Cleanup = NothingRecorded | StampOnly | Cleaned

  datatype Event =
    // Routers
    | CreateReel(reel: nat, cuts: set<nat>, newJob: nat)
    | TriggerRender(cut: nat, newJob: nat)
    | TriggerPublish(cut: nat, newJob: nat)
    | EditGuide(cut: nat, edited: Guide)
    | Approve(cut: nat)
    // Messages
    | Send(i: nat)
    | SendFails(i: nat, delivered: bool, cleanup: Cleanup)
    | Redeliver(i: nat)
    | Crash(i: nat)
    // Worker runs
    | ClaimJob(i: nat)
    | PreclaimError(i: nat, transient: bool, landed: bool)
    | ReadBack(i: nat)
    | ReadBackError(i: nat, transient: bool)
    | Load(i: nat)
    | TouchJob(i: nat)
    | BeatJob(i: nat)
    | ReadPins(i: nat)
    | PinBeat(i: nat, pins: set<Pin>)
    | RefreshCut(i: nat)
    | SnapPins(i: nat)
    | PassGate(i: nat)
    | Upload(i: nat)
    | RecordPost(i: nat, post: nat)
    | FinishEnrich(i: nat, newJob: nat)
    | FinishGenerate(i: nat, guides: map<nat, Guide>)
    | FinishRender(i: nat)
    | FinishPublish(i: nat)
    | BodyFails(i: nat, transient: bool)
    | Shutdown(i: nat)
    // Reaper
    | Reap(job: nat, asOf: nat)
    | SelectOrphan(job: nat, asOf: nat)
    | SweepOrphan(job: nat)
    // Time
    | Tick(seconds: nat)

  // ---------- Helpers ----------

  function JobOf(s: Sys, i: nat): Job
    requires i < |s.runs| && s.runs[i].job in s.db.jobs
  {
    s.db.jobs[s.runs[i].job]
  }

  predicate IsRun(s: Sys, i: nat) {
    i < |s.runs| && s.runs[i].job in s.db.jobs
  }

  predicate RunIn(s: Sys, i: nat, kind: JobKind) {
    && IsRun(s, i) && s.runs[i].phase.Working? && JobOf(s, i).kind == kind
    && (kind in {Enrich, Generate} ==> s.runs[i].view.ReelView? && JobOf(s, i).ownerId in s.db.reels)
    && (kind in {Render, Publish} ==> s.runs[i].view.CutView? && JobOf(s, i).ownerId in s.db.cuts)
  }

  /** The run's token is the row's and the row is running: a fenced write from `running` lands. */
  predicate Lands(s: Sys, i: nat)
    requires i < |s.runs|
  {
    Matches(s.db, s.runs[i].job, Running, Some(s.runs[i].tok))
  }

  function PinsOfBeat(pins: set<Pin>, beat: int): set<Pin> {
    set p | p in pins && p.beat == beat
  }

  /** Only pins of this beat, and (cut, beat, order) stays unique. */
  predicate BeatPins(pins: set<Pin>, beat: int) {
    && (forall p | p in pins :: p.beat == beat)
    && (forall p, q | p in pins && q in pins && p.order == q.order :: p == q)
  }

  function Repin(all: set<Pin>, beat: int, pins: set<Pin>): set<Pin> {
    all - PinsOfBeat(all, beat) + pins
  }

  /** Every pin of the beat was resolved from this direction. */
  predicate UpToDate(cut: Cut, beat: int, direction: string) {
    forall p | p in cut.pins && p.beat == beat :: p in cut.resolvedFrom && cut.resolvedFrom[p] == direction
  }

  /** The beat has pins, and they are current: they are handed back, and the ledger is left alone. (Asset
      rows are never deleted, so each pin still has its asset.) */
  predicate Reuses(cut: Cut, beat: int, direction: string) {
    PinsOfBeat(cut.pins, beat) != {} && UpToDate(cut, beat, direction)
  }

  /** What a resolution found replaces the beat's pins. */
  function RepinCut(cut: Cut, beat: int, direction: string, pins: set<Pin>): Cut {
    cut.(pins := Repin(cut.pins, beat, pins),
         resolvedFrom := cut.resolvedFrom - PinsOfBeat(cut.pins, beat) + map p | p in pins :: direction)
  }

  /** The beat loop of a render takes the beats of the guide it loaded one after another. */
  predicate HasNextBeat(r: Run) {
    r.view.CutView? && r.view.cut.guide.Some? && r.built < |r.view.cut.guide.value.beats|
  }

  /** The index the next beat carries; nothing makes indices distinct. */
  function NextBeat(r: Run): int
    requires HasNextBeat(r)
  {
    r.view.cut.guide.value.beats[r.built].index
  }

  function NextDirection(r: Run): string
    requires HasNextBeat(r)
  {
    r.view.cut.guide.value.beats[r.built].direction
  }

  ghost function CutOf(s: Sys, i: nat): Cut
    requires IsRun(s, i) && JobOf(s, i).ownerId in s.db.cuts
  {
    s.db.cuts[JobOf(s, i).ownerId]
  }

  function SetCut(db: Db, c: nat, cut: Cut): Db {
    db.(cuts := db.cuts[c := cut])
  }

  function SetReel(db: Db, r: nat, status: ReelStatus): Db {
    db.(reels := db.reels[r := Reel(status)])
  }

  /** `_persist_guide`: the accepted guides land on their cuts. */
  function WithGuides(db: Db, guides: map<nat, Guide>): Db {
    db.(cuts := map c | c in db.cuts :: if c in guides then db.cuts[c].(guide := Some(guides[c])) else db.cuts[c])
  }

  /** The three checks a publish makes before anything leaves the machine, on the cut it loaded and the
      pins as they are now. `assert_safe_to_publish` only narrows this further. */
  ghost predicate GatePasses(loaded: Cut, pins: set<Pin>) {
    && (loaded.pinsFp.Some? ==> loaded.pinsFp.value == PinsFingerprint(pins))
    && (loaded.guideFp.Some? ==> loaded.guide.Some? && loaded.guideFp.value == GuideFp(loaded.guide.value))
  }

  /** The run an event belongs to. */
  function Actor(e: Event): Option<nat> {
    match e
    case Send(i) => Some(i)
    case SendFails(i, _, _) => Some(i)
    case Crash(i) => Some(i)
    case ClaimJob(i) => Some(i)
    case PreclaimError(i, _, _) => Some(i)
    case ReadBack(i) => Some(i)
    case ReadBackError(i, _) => Some(i)
    case Load(i) => Some(i)
    case TouchJob(i) => Some(i)
    case BeatJob(i) => Some(i)
    case ReadPins(i) => Some(i)
    case PinBeat(i, _) => Some(i)
    case RefreshCut(i) => Some(i)
    case SnapPins(i) => Some(i)
    case PassGate(i) => Some(i)
    case Upload(i) => Some(i)
    case RecordPost(i, _) => Some(i)
    case FinishEnrich(i, _) => Some(i)
    case FinishGenerate(i, _) => Some(i)
    case FinishRender(i) => Some(i)
    case FinishPublish(i) => Some(i)
    case BodyFails(i, _) => Some(i)
    case Shutdown(i) => Some(i)
    case _ => None
  }

  /** The events by which a run or its message comes to an end or to a retry. */
  predicate Ending(e: Event) {
    e.SendFails? || e.PreclaimError? || e.ReadBackError? || e.BodyFails? || e.Shutdown? || e.Crash?
    || e.FinishEnrich? || e.FinishGenerate? || e.FinishRender? || e.FinishPublish?
  }

  // ---------- Which events can happen ----------

  ghost predicate Enabled(s: Sys, e: Event) {
    match e
    case CreateReel(reel, cuts, newJob) =>
      newJob !in s.db.jobs && reel !in s.db.reels && cuts !! s.db.cuts.Keys
    case TriggerRender(cut, newJob) =>
      && newJob !in s.db.jobs && cut in s.db.cuts
      && s.db.cuts[cut].guide.Some? && s.db.cuts[cut].postId.None?
      && s.db.cuts[cut].status in {CutDraft, CutInReview, CutFailed}
    case TriggerPublish(cut, newJob) =>
      && newJob !in s.db.jobs && cut in s.db.cuts
      && s.db.cuts[cut].recorded.Some?
      && s.db.cuts[cut].status in {CutApproved, CutScheduled, CutFailed}
    case EditGuide(cut, edited) =>
      && cut in s.db.cuts && s.db.cuts[cut].status == CutInReview
      && s.db.cuts[cut].guide.Some? && SameBeats(s.db.cuts[cut].guide.value, edited)
    case Approve(cut) =>
      cut in s.db.cuts && s.db.cuts[cut].status == CutInReview
    case Send(i) =>
      IsRun(s, i) && s.runs[i].phase.Sending?
    case SendFails(i, _, _) =>
      IsRun(s, i) && s.runs[i].phase.Sending?
    case Redeliver(i) =>
      IsRun(s, i) && !s.runs[i].phase.Sending?
    case Crash(i) =>
      IsRun(s, i)
    case ClaimJob(i) =>
      IsRun(s, i) && s.runs[i].phase.Queued?
    case PreclaimError(i, _, _) =>
      IsRun(s, i) && s.runs[i].phase.Queued?
    case ReadBack(i) =>
      IsRun(s, i) && s.runs[i].phase.Claimed?
    case ReadBackError(i, _) =>
      IsRun(s, i) && s.runs[i].phase.Claimed?
    case Load(i) =>
      && IsRun(s, i) && s.runs[i].phase.Owned?
      && (match JobOf(s, i).kind
          case Enrich => JobOf(s, i).ownerId in s.db.reels
          case Generate => JobOf(s, i).ownerId in s.db.reels && s.db.reels[JobOf(s, i).ownerId].status == ReelGenerating
          case Render => JobOf(s, i).ownerId in s.db.cuts && CutOf(s, i).postId.None? && CutOf(s, i).guide.Some?
          case Publish => JobOf(s, i).ownerId in s.db.cuts)
    case TouchJob(i) =>
      IsRun(s, i) && s.runs[i].phase.Working?
    case BeatJob(i) =>
      IsRun(s, i) && s.runs[i].Holder()
    case ReadPins(i) =>
      RunIn(s, i, Render) && s.runs[i].refreshed.None? && !s.runs[i].resolving && HasNextBeat(s.runs[i])
    case PinBeat(i, pins) =>
      && RunIn(s, i, Render) && s.runs[i].refreshed.None? && s.runs[i].resolving && HasNextBeat(s.runs[i])
      && BeatPins(pins, NextBeat(s.runs[i]))
    case RefreshCut(i) =>
      && RunIn(s, i, Render) && s.runs[i].refreshed.None?
      && s.runs[i].view.cut.guide.Some? && s.runs[i].built == |s.runs[i].view.cut.guide.value.beats|
      && CutOf(s, i).postId.None? && CutOf(s, i).guide.Some?
    case SnapPins(i) =>
      RunIn(s, i, Render) && s.runs[i].refreshed.Some? && s.runs[i].pinsSeen.None?
    case PassGate(i) =>
      && RunIn(s, i, Publish) && s.runs[i].view.cut.recorded.Some? && s.runs[i].view.cut.postId.None?
      && GatePasses(s.runs[i].view.cut, CutOf(s, i).pins)
    case Upload(i) =>
      RunIn(s, i, Publish) && s.runs[i].gated && !s.runs[i].uploaded
    case RecordPost(i, _) =>
      RunIn(s, i, Publish) && s.runs[i].uploaded && !s.runs[i].posted
    case FinishEnrich(i, newJob) =>
      RunIn(s, i, Enrich) && newJob !in s.db.jobs && s.runs[i].view.status in {ReelDraft, ReelEnriching}
    case FinishGenerate(i, guides) =>
      && RunIn(s, i, Generate) && s.runs[i].view.status == ReelGenerating
      && (forall c | c in guides :: c in s.db.cuts && s.db.cuts[c].reelId == JobOf(s, i).ownerId)
    case FinishRender(i) =>
      && RunIn(s, i, Render) && s.runs[i].pinsSeen.Some? && s.runs[i].refreshed.Some?
      && s.runs[i].view.cut.guide.Some? && s.runs[i].refreshed.value.guide.Some?
      && s.runs[i].refreshed.value.status == CutRendering
    case FinishPublish(i) =>
      && RunIn(s, i, Publish) && s.runs[i].view.cut.status == CutPublishing && s.runs[i].view.cut.recorded.Some?
      && (s.runs[i].posted || s.runs[i].view.cut.postId.Some?)
    case BodyFails(i, _) =>
      IsRun(s, i) && s.runs[i].Holder()
    case Shutdown(i) =>
      IsRun(s, i) && s.runs[i].Holder()
    case Reap(job, asOf) =>
      job in s.db.jobs && asOf <= s.clock && s.db.jobs[job].status in {Pending, Running}
    case SelectOrphan(job, asOf) =>
      asOf <= s.clock && OrphanCandidate(s.db, job, asOf)
    case SweepOrphan(job) =>
      job in s.picked
    case Tick(_) =>
      true
  }

  // ---------- What events do ----------

  ghost function DbAfter(s: Sys, e: Event): Db
    requires Enabled(s, e)
  {
    match e
    case CreateReel(reel, cuts, newJob) =>
      Db(s.db.jobs[newJob := NewJob(Enrich, reel, s.clock)],
         s.db.reels[reel := Reel(ReelEnriching)],
         s.db.cuts + map c | c in cuts :: Cut(reel, CutDraft, None, {}, map[], None, None, None, None))
    case TriggerRender(cut, newJob) =>
      SetCut(SetJob(s.db, newJob, NewJob(Render, cut, s.clock)), cut, s.db.cuts[cut].(status := CutRendering))
    case TriggerPublish(cut, newJob) =>
      SetCut(SetJob(s.db, newJob, NewJob(Publish, cut, s.clock)), cut, s.db.cuts[cut].(status := CutPublishing))
    case EditGuide(cut, edited) =>
      SetCut(s.db, cut, s.db.cuts[cut].(guide := Some(edited)))
    case Approve(cut) =>
      SetCut(s.db, cut, s.db.cuts[cut].(status := CutApproved))
    case SendFails(i, _, cleanup) =>
      (match s.runs[i].phase.origin
       case FromRouter => Fail(s.db, s.runs[i].job, Pending, None, s.clock)
       case FromReaper => s.db
       case FromRetry(fence) => Fail(s.db, s.runs[i].job, Pending, fence, s.clock)
       case FromEnrich(enrichJob) =>
         match cleanup
         case NothingRecorded => s.db
         case StampOnly => FailKeepOwner(s.db, enrichJob, s.clock)
         case Cleaned => StampAndAbandon(s.db, enrichJob, s.runs[i].job, s.clock))
    case ClaimJob(i) =>
      Claim(s.db, s.runs[i].job, s.clock)
    case PreclaimError(i, transient, landed) =>
      var db := if landed then Claim(s.db, s.runs[i].job, s.clock) else s.db;
      if transient && s.runs[i].retries < RetryBudget(JobOf(s, i).kind, false) then db
      else Fail(db, s.runs[i].job, Pending, None, s.clock)
    case ReadBackError(i, transient) =>
      if transient && s.runs[i].retries < RetryBudget(JobOf(s, i).kind, false) then s.db
      else Fail(s.db, s.runs[i].job, Pending, None, s.clock)
    case TouchJob(i) =>
      Touch(s.db, s.runs[i].job, s.clock)
    case BeatJob(i) =>
      Heartbeat(s.db, s.runs[i].job, s.runs[i].tok, s.clock)
    case PinBeat(i, pins) =>
      SetCut(s.db, JobOf(s, i).ownerId, RepinCut(CutOf(s, i), NextBeat(s.runs[i]), NextDirection(s.runs[i]), pins))
    case RecordPost(i, post) =>
      SetCut(s.db, JobOf(s, i).ownerId, CutOf(s, i).(postId := Some(post)))
    case FinishEnrich(i, newJob) =>
      if !Lands(s, i) then s.db
      else SetReel(SetJob(DoneStamp(s.db, s.runs[i].job, s.clock), newJob,
                          NewJob(Generate, JobOf(s, i).ownerId, s.clock)),
                   JobOf(s, i).ownerId, ReelGenerating)
    case FinishGenerate(i, guides) =>
      if !Lands(s, i) then s.db
      else
        WithGuides(SetReel(DoneStamp(s.db, s.runs[i].job, s.clock), JobOf(s, i).ownerId, ReelGuideReady), guides)
    case FinishRender(i) =>
      if !Lands(s, i) then s.db
      else
        var r := s.runs[i];
        SetCut(DoneStamp(s.db, r.job, s.clock), JobOf(s, i).ownerId,
               CutOf(s, i).(status := CutInReview,
                            recorded := Some(Recording(r.view.cut.guide.value, r.builtPins)),
                            pinsFp := Some(PinsFingerprint(r.pinsSeen.value)),
                            guideFp := Some(GuideFp(r.refreshed.value.guide.value))))
    case FinishPublish(i) =>
      if !Lands(s, i) then s.db
      else SetCut(DoneStamp(s.db, s.runs[i].job, s.clock), JobOf(s, i).ownerId, CutOf(s, i).(status := CutPublished))
    case BodyFails(i, transient) =>
      if transient && s.runs[i].retries < MaxRetries(JobOf(s, i).kind)
      then RetryReset(s.db, s.runs[i].job, s.runs[i].tok, s.clock)
      else Fail(s.db, s.runs[i].job, Running, Some(s.runs[i].tok), s.clock)
    case Shutdown(i) =>
      Fail(s.db, s.runs[i].job, Running, Some(s.runs[i].tok), s.clock)
    case Reap(job, asOf) =>
      ReapOne(s.db, job, s.db.jobs[job].status, asOf, s.clock)
    case SweepOrphan(job) =>
      ReapOne(s.db, job, Done, s.picked[job], s.clock)
    case _ => s.db
  }

  /** The record's next life as a retry message, when this failure is retried. */
  function Retried(r: Run, fence: Option<nat>): Run {
    NewRun(r.job, r.retries + 1, Sending(FromRetry(fence)))
  }

  ghost function RunAfter(s: Sys, i: nat, e: Event): Run
    requires Enabled(s, e) && Actor(e) == Some(i)
  {
    var r := s.runs[i];
    match e
    case Send(_) => r.(phase := Queued)
    case SendFails(_, delivered, _) => r.(phase := if delivered then Queued else Ended)
    case Crash(_) => r.(phase := Ended)
    case ClaimJob(_) =>
      if Matches(s.db, r.job, Pending, None)
      then r.(phase := Claimed, claimTok := JobOf(s, i).token + 1) else r.(phase := Ended)
    case PreclaimError(_, transient, _) =>
      if transient && r.retries < RetryBudget(JobOf(s, i).kind, false) then Retried(r, None) else r.(phase := Ended)
    case ReadBack(_) => r.(phase := Owned, tok := JobOf(s, i).token)
    case ReadBackError(_, transient) =>
      if transient && r.retries < RetryBudget(JobOf(s, i).kind, false) then Retried(r, None) else r.(phase := Ended)
    case Load(_) =>
      (match JobOf(s, i).kind
       case Enrich | Generate => r.(phase := Working, view := ReelView(s.db.reels[JobOf(s, i).ownerId].status))
       case Render | Publish => r.(phase := Working, view := CutView(CutOf(s, i))))
    case ReadPins(_) =>
      if Reuses(CutOf(s, i), NextBeat(r), NextDirection(r))
      then r.(built := r.built + 1, builtPins := r.builtPins + PinsOfBeat(CutOf(s, i).pins, NextBeat(r)))
      else r.(resolving := true)
    case PinBeat(_, pins) => r.(built := r.built + 1, builtPins := r.builtPins + pins, resolving := false)
    case RefreshCut(_) => r.(refreshed := Some(CutOf(s, i)))
    case SnapPins(_) => r.(pinsSeen := Some(CutOf(s, i).pins))
    case PassGate(_) => r.(gated := true)
    case Upload(_) => r.(uploaded := true)
    case RecordPost(_, _) => r.(posted := true)
    case FinishEnrich(_, _) => r.(phase := Ended)
    case FinishGenerate(_, _) => r.(phase := Ended)
    case FinishRender(_) => r.(phase := Ended)
    case FinishPublish(_) => r.(phase := Ended)
    case BodyFails(_, transient) =>
      if transient && r.retries < MaxRetries(JobOf(s, i).kind) && Lands(s, i)
      then Retried(r, Some(r.tok)) else r.(phase := Ended)
    case Shutdown(_) => r.(phase := Ended)
    case _ => r
  }

  /** The message record an event creates. */
  function Spawned(s: Sys, e: Event): Option<Run> {
    match e
    case CreateReel(_, _, newJob) => Some(NewRun(newJob, 0, Sending(FromRouter)))
    case TriggerRender(_, newJob) => Some(NewRun(newJob, 0, Sending(FromRouter)))
    case TriggerPublish(_, newJob) => Some(NewRun(newJob, 0, Sending(FromRouter)))
    case Redeliver(i) =>
      if i < |s.runs| then Some(NewRun(s.runs[i].job, s.runs[i].retries, Queued)) else None
    case FinishEnrich(i, newJob) =>
      if i < |s.runs| && Lands(s, i) then Some(NewRun(newJob, 0, Sending(FromEnrich(s.runs[i].job)))) else None
    case Reap(job, asOf) =>
      if job in s.db.jobs && Resumable(s.db.jobs[job], asOf) then Some(NewRun(job, 0, Sending(FromReaper))) else None
    case _ => None
  }

  ghost function RunsAfter(s: Sys, e: Event): (runs: seq<Run>)
    requires Enabled(s, e)
    ensures |s.runs| <= |runs| <= |s.runs| + 1
    ensures forall i | 0 <= i < |s.runs| :: runs[i] == if Actor(e) == Some(i) then RunAfter(s, i, e) else s.runs[i]
    ensures |runs| > |s.runs| <==> Spawned(s, e).Some?
    ensures Spawned(s, e).Some? ==> runs[|s.runs|] == Spawned(s, e).value
  {
    var acted := if Actor(e).Some? then s.runs[Actor(e).value := RunAfter(s, Actor(e).value, e)] else s.runs;
    if Spawned(s, e).Some? then acted + [Spawned(s, e).value] else acted
  }

  ghost function Next(s: Sys, e: Event): Sys
    requires Enabled(s, e)
  {
    Sys(DbAfter(s, e), RunsAfter(s, e),
        if e.SelectOrphan? then s.picked[e.job := e.asOf] else s.picked,
        if e.Tick? then s.clock + e.seconds else s.clock)
  }

  // ---------- Runs of the whole system ----------

  /** Every event of the trace was enabled when it happened. */
  ghost predicate Possible(s: Sys, es: seq<Event>)
    decreases |es|
  {
    es == [] || (Enabled(s, es[0]) && Possible(Next(s, es[0]), es[1..]))
  }

  ghost function After(s: Sys, es: seq<Event>): Sys
    requires Possible(s, es)
    decreases |es|
  {
    if es == [] then s else After(Next(s, es[0]), es[1..])
  }
}
