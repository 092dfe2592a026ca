/** The rows the lifecycle protocol reads and writes, and the constant tables of `api/state.py`.

    Three tables matter: `jobs`, `reels` and `cuts`. A `Db` value is their committed contents; a
    committed transaction is a function from `Db` to `Db` (module `Tx`). */
module Rows {
  import opened Wrappers
  import opened GuideEdit
  import opened PinFingerprint

  datatype JobKind = Enrich | Generate | Render | Publish

  datatype JobStatus = Pending | Running | Done | Failed

  datatype ReelStatus = ReelDraft | ReelEnriching | ReelGenerating | ReelGuideReady | ReelFailed

  datatype CutStatus =
    | CutDraft | CutRendering | CutInReview | CutApproved
    | CutScheduled | CutPublishing | CutPublished | CutFailed

  // ---------- The transition tables ----------

  const REEL_TRANSITIONS: map<ReelStatus, set<ReelStatus>> := map[
    ReelDraft := {ReelGenerating, ReelEnriching},
    ReelEnriching := {ReelGenerating, ReelFailed},
    ReelGenerating := {ReelGuideReady, ReelFailed},
    ReelGuideReady := {ReelFailed},
    ReelFailed := {ReelDraft}
  ]

  const CUT_TRANSITIONS: map<CutStatus, set<CutStatus>> := map[
    CutDraft := {CutRendering},
    CutRendering := {CutInReview, CutFailed},
    CutInReview := {CutRendering, CutApproved},
    CutApproved := {CutPublishing, CutScheduled},
    CutScheduled := {CutPublishing},
    CutPublishing := {CutPublished, CutFailed},
    CutFailed := {CutDraft, CutApproved}
  ]

  predicate Allowed<S(==)>(table: map<S, set<S>>, current: S, target: S) {
    current in table && target in table[current]
  }

  // ---------- Rows ----------

  /** The owner row a Job is responsible for while it is in flight. */
  datatype Owner = OfReel(reel: nat) | OfCut(cut: nat)

  /** `error` keeps only whether the column is set. `resets` is not a column: it counts the retry
      resets of this row, so that claims can be accounted for. */
  datatype Job = Job(
    kind: JobKind, ownerId: nat, status: JobStatus, token: nat, resumes: nat, resets: nat,
    error: bool, beat: Option<nat>, touched: nat)
  {
    predicate Live() { status == Pending || status == Running }

    function Owner(): Owner {
      match kind
      case Enrich | Generate => OfReel(ownerId)
      case Render | Publish => OfCut(ownerId)
    }

    /** When a running job last proved it was alive: the COALESCE of the reaper's query. */
    function LastBeat(): nat { if beat.Some? then beat.value else touched }
  }

  datatype Reel = Reel(status: ReelStatus)

  /** What a recorded video was really built from. `Cut.recorded` is set exactly when the row has a
      `video_path`; the fingerprint columns are what the publish gate can see of it. */
  datatype Recording = Recording(guide: Guide, pins: set<Pin>)

  /** sha256 of the guide's canonical JSON, taken to be injective: the digest keeps its preimage. */
  datatype GuideFp = GuideFp(preimage: Guide)

  /** `pins` are the cut's `cut_assets` rows, `resolvedFrom` is the column of that name, row by row: a
      digest of the visual direction the pin was resolved from, taken to be injective. */
  datatype Cut = Cut(
    reelId: nat, status: CutStatus, guide: Option<Guide>, pins: set<Pin>, resolvedFrom: map<Pin, string>,
    recorded: Option<Recording>, guideFp: Option<GuideFp>, pinsFp: Option<PinsFp>, postId: Option<nat>)

  datatype Db = Db(jobs: map<nat, Job>, reels: map<nat, Reel>, cuts: map<nat, Cut>)

  // ---------- Owner states in flight (JOB_IN_FLIGHT) ----------

  function ReelFlight(status: ReelStatus): Option<JobKind> {
    match status
    case ReelEnriching => Some(Enrich)
    case ReelGenerating => Some(Generate)
    case _ => None
  }

  function CutFlight(status: CutStatus): Option<JobKind> {
    match status
    case CutRendering => Some(Render)
    case CutPublishing => Some(Publish)
    case _ => None
  }

  /** The kind of Job that must resolve the owner's present state, or None when it is not in flight. */
  function Flight(db: Db, o: Owner): Option<JobKind> {
    match o
    case OfReel(r) => if r in db.reels then ReelFlight(db.reels[r].status) else None
    case OfCut(c) => if c in db.cuts then CutFlight(db.cuts[c].status) else None
  }

  // ---------- Constants of the worker and the reaper ----------

  const STALE := 5 * 60
  const PENDING_STALE := 4 * 60 * 60
  const DONE_ORPHAN_STALE := 15 * 60
  const PRECLAIM_MAX_RETRIES := 3

  /** How often the reaper may resume a job of this kind; 0 for a kind it never resumes. */
  function ResumeBudget(k: JobKind): nat {
    match k
    case Enrich => 2
    case Render => 2
    case Generate => 1
    case Publish => 0
  }

  function MaxRetries(k: JobKind): nat {
    match k
    case Enrich => 0
    case Generate => 2
    case Render => 2
    case Publish => 0
  }

  /** `_retry_budget`: a run that never claimed its job may retry even when the task itself may not. */
  function RetryBudget(k: JobKind, owned: bool): nat {
    if owned || MaxRetries(k) >= PRECLAIM_MAX_RETRIES then MaxRetries(k) else PRECLAIM_MAX_RETRIES
  }

  function BeatIndices(g: Guide): set<int> {
    set b | b in g.beats :: b.index
  }

  /** The indices of the first `n` beats. */
  function FirstIndices(g: Guide, n: nat): set<int>
    requires n <= |g.beats|
  {
    set k | 0 <= k < n :: g.beats[k].index
  }

  /** No two beats share an index. The guide schema does not ask for this. */
  predicate DistinctBeats(g: Guide) {
    forall i, j | 0 <= i < j < |g.beats| :: g.beats[i].index != g.beats[j].index
  }

  /** Beats that share an index share their visual direction. */
  predicate OneDirectionPerIndex(g: Guide) {
    forall i, j | 0 <= i < j < |g.beats| && g.beats[i].index == g.beats[j].index ::
      g.beats[i].direction == g.beats[j].direction
  }
}
