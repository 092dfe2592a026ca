# Job lifecycle, staleness gate, caption timing and bounded fetching

A Dafny model of the parts of the reel maker where several processes, or several clocks, have to agree:

- **The job lifecycle.** HTTP routes, Celery workers and a periodic reaper share `jobs`, `reels` and
  `cuts` through compare-and-set writes, a fencing counter (`claim_token`), heartbeats, retries, bounded
  resumes and owner rollback. Messages may be lost or delivered again; workers may crash, stall, be shut
  down or be superseded at any point.
- **The cut lifecycle and its staleness gate.** Edits, renders that snapshot fingerprints, the per-beat
  pin ledger, and the publish gate that must catch any edit or re-pin since the video was recorded.
- **Timing.** Caption spans, the partition of recognised words, the reel-wide caption timeline and how it
  is printed.
- **Bounded fetching.** The render-wide asset budget, the redirect loop, the capped read and the bounded
  inflate.

## How it is laid out

`Rows` holds the tables and the constants, `Tx` every committed transaction as a function on the rows,
`System` the state machine: messages, runs, rows, clock, and one event per committed transaction or read;
`Steps` says what an event can make of the record it acts on.
`Sessions`, `Routers` and `Bodies` are the code in its own imperative form, on a database session with a
durable and a pending state; each method is proved to leave exactly the rows of its `Tx` function or of
its `System` event. The theorems about whole runs of the system are in `Correspondence`, `Fencing`,
`TimedExclusion`, `Heartbeats`, `Claims`, `Recovery` (what the reaper and the failure paths bring about, in
the code's own numbers), `Lifecycle` (which event moves which status, and what has to be approved),
`GateSoundness`, `Snapshots`, `Publishing`, `ExactlyOnce`, `TwinBeats` and `Counterexamples` (with `Traces`
building the concrete runs). `GuideEdit`,
`PinFingerprint`, `PinLedger`, `CaptionSpans`, `WordStream`, `Timeline`, `Srt`, `SafeFetch`, `Inflate` and
`AssetBudget` stand on their own.

`dafny verify dfyconfig.toml` checks everything.

## What holds only under a premise

- *Timely* (`TimedExclusion.Timely`, one Job at a time): while a run of the Job is alive, the row's
  heartbeat is never older than five minutes. It follows from what an operator can check of the runs
  themselves (`Heartbeats.Punctual`): each reads its token back within five minutes of its claim and
  beats at least every five minutes after (`Heartbeats.PunctualRunsAreTimely`). Mutual exclusion of a
  Job's bodies rests on it.
- *No harmful sweep* (`Correspondence.HarmfulSweep`, for the owners watched): the done-orphan sweep rolls
  none of them back. The owner/Job correspondence rests on it, of one cut, of the reels, or of everything;
  for the reels it always holds (`Correspondence.ReelsAlwaysCorrespond`).
- *Healthy for a cut* (`GateSoundness.Healthy`): the Jobs of this one cut are timely and no sweep rolls it
  back. The soundness of its gate rests on that; what happens to other cuts and reels does not matter. Runs
  of the cut's Jobs that read back and beat in time make it healthy (`Heartbeats.PunctualCutsAreHealthy`,
  `Heartbeats.PunctualGateIsSound`).
- sha256 is injective on the values hashed; pins, guides and directions stand for their own digests.

## What the code does not keep

Each of these is a run of the model as the code stands, and beside it the exact condition under which the
promise holds.

1. **The done-orphan sweep fails a live render** (`worker/tasks/maintenance.py:100-136`). A successful
   render leaves an old `done` Job without an error; when the operator renders the cut again more than
   fifteen minutes later, the sweep takes the old Job for a lost cleanup and fails the cut under the new
   render (`Counterexamples.SweepFailsALiveRender`). A step keeps the correspondence if and only if it is
   not such a sweep (`Correspondence.StepKeepsCorrespondenceIff`), and every candidate the sweep can ever
   select is a false positive (`Correspondence.EveryCandidateIsAFalsePositive`).
2. **Two live runs can hold one token** (`worker/tasks/common.py:784-818`). The claim commits before its
   token is read back; a worker that stalls in between past the staleness limit reads the token of its
   successor, and both pass every fence (`Counterexamples.TwoRunsShareAToken`). A step breaks the
   distinctness of held tokens if and only if it is a read-back that finds in the row the token another
   live run holds (`Fencing.TokensStayDistinctIff`); without one, at most one run of a Job ever passes the
   fence (`Fencing.OneRunPassesTheFence`).
3. **A recorded post can be overwritten** (`worker/tasks/publish.py:72-82`). The early commit of the post
   id is not fenced: a publish that stalls mid-upload, is reaped and retried by the operator replaces the
   id its successor recorded (`Counterexamples.PostIsOverwritten`). In every run of the system a step
   changes a recorded id if and only if it records another post of this cut, and only a run that loaded
   the cut before it was posted can do so (`Publishing.PostIsReplacedIff`); in a run that is healthy for
   the cut, ids are written once (`GateSoundness.PostsAreWrittenOnce`).
4. **The gate can pass a video built from other assets** (`engine/render/asset_sourcer.py:970`,
   `worker/tasks/render.py:176`). A superseded render that re-pins a beat between its successor's build
   and the successor's snapshot makes the recorded fingerprint that of pins the video does not show
   (`Counterexamples.SupersededRepinDefeatsTheGate`). In every run of the system, and for every guide,
   a render records the truth about its pins if and only if, at every beat index, the last pins any run put
   there before its snapshot are those it put or reused itself (`Snapshots.RecordedPinsAreTruthfulIff`). In a
   run that is healthy for the cut the gate is sound and exact (`GateSoundness.GateIsSound`,
   `GateSoundness.GateIsExact`; item 8 says for which guides).
5. **A NaN duration is reported as changed every time** (`engine/generation/guide_edit.py:52-56`): the
   form is idempotent, its change flag is exact up to this, and exactly this
   (`GuideEdit.PatchTwiceIsPatchOnce`). It is a finding about the edit functions: on the configured
   database (`api/config.py:11`) the guide is a JSON column (`api/models.py:92`), which rejects NaN, so
   such a request would fail at its commit.
6. **Half a cleanup can be committed**, a failed follow-up job under a reel that is still generating, when
   both the savepoint rollback and the full rollback of a failed cleanup hook fail
   (`Sessions.HalfACleanup`); otherwise it cannot (`Sessions.CleanupOutcomes`).
7. **Cues and clips drift apart** from the first beat shorter than 0.5 s on, because clips are floored
   and cue offsets are not (`Timeline.CuesLineUpWithClipsIff`).
8. **Beats that share an index but not a direction defeat the gate**
   (`engine/generation/guide_schema.py:10-11`, `worker/tasks/render.py:63-79`). Nothing makes a guide's beat
   indices distinct, and pins are keyed by index. Of two such beats with one visual direction the second
   reuses what the first found, and all is well; with different directions each evicts the other's pins
   (`PinLedger.ChangedDirectionResolves`), so an undisturbed render can record a fingerprint that covers less
   than the video shows. For every guide with such a pair there is a healthy run that passes the gate so
   (`TwinBeats.TwinBeatsDefeatTheGate`), and for no other guide (`TwinBeats.GateVouchesForPinsIff`).

## Model

| member | source | states |
|---|---|---|
| `Sessions.Session.Advance` | worker/tasks/common.py:124-150 | the compare-and-set writes iff the row exists, is in the expected status and, when fenced, carries the run's token; otherwise nothing changes |
| `Sessions.Session.Heartbeat` | worker/tasks/common.py:173-205 | commits the body's pending writes together with the beat, or drops them all and reports the job lost, iff the fence holds or not |
| `Sessions.Session.LockJob` | worker/tasks/common.py:208-222 | the same fence without a commit; a lost job drops what was pending |
| `Sessions.Session.RollbackOwner` | worker/tasks/common.py:227-248 | fails the owner iff it is still in the in-flight state of this job type; the table never forbids that move |
| `Sessions.Session.TransitionReel` | api/state.py:39-43 | a reel moves iff the table has the edge |
| `Sessions.Session.TransitionCut` | api/state.py:39-43 | a cut moves iff the table has the edge |
| `Sessions.Session.FailJob` | worker/tasks/common.py:322-361 | a matching job fails and its owner is freed in one transaction, any other row is untouched |
| `Sessions.Session.FailJobKeepOwner` | worker/tasks/common.py:579-598 | done to failed without touching the owner |
| `Sessions.Session.SettleFailure` | worker/tasks/common.py:507-576 | after dropping the body's writes: the rows of the failure event of the state machine, and a retry message iff that event schedules one, for owned and never-claimed runs |
| `Sessions.Session.SettleCommitted` | worker/tasks/common.py:570-576 | its branch for a run that had stamped its job done: never a retry; what is committed is the failure with the whole cleanup, the failure alone or nothing, unless both rollbacks fail |
| `Recovery.BodyFailureActs` | worker/tasks/common.py:507-576 | a body that fails while its run holds the Job: a transient failure leaves it pending with one more fenced retry message while retries are left (generate and render two, the others none), any other fails Job and owner; an overtaken run changes nothing |
| `Recovery.StartFailureActs` | worker/tasks/common.py:288-291 | a run that fails before it holds its Job is retried three times whatever its type, and then a still pending Job fails with its owner |
| `Recovery.ShutdownActs` | worker/tasks/common.py:629-645 | a worker told to stop fails the Job it holds, and its owner |
| `Recovery.RefusedMessageActs` | worker/tasks/common.py:648-677 | a refused first message or retry fails a Job nobody took meanwhile, and its owner; any other Job is left alone |
| `Sessions.Session.FinalizeOrReconnect` | worker/tasks/common.py:601-626 | the rows after the write when the first commit lands, is lost, or lands unseen, with other sessions acting before the second try |
| `Sessions.Session.RecoverFromHookFailure` | worker/tasks/common.py:472-504 | success means the open transaction holds the fail-stamp and none of the hook's writes; those survive only if both rollbacks failed |
| `Sessions.Session.StampFailedAndRunCleanup` | worker/tasks/common.py:389-469 | what the transaction holds after the stamp and the hook, for every way the hook can end and every recovery step can fail |
| `Sessions.CleanupOutcomes` | worker/tasks/common.py:389-504 | unless both rollbacks fail, what is committed is nothing, the stamp alone, or the stamp with the whole cleanup |
| `Sessions.HalfACleanup` | worker/tasks/common.py:472-504 | with both failing, a failed follow-up job under a still generating reel is committable, which is none of the three outcomes |
| `Sessions.Session.ReapOne` | worker/tasks/maintenance.py:176-260 | it acts iff the row still has the status seen and is pending for more than four hours, running without a beat for more than five minutes, or done and untouched for more than fifteen; it resumes iff running with resumes left (enrich and render two, generate one, publish none), else fails and frees the owner |
| `Recovery.ReaperActs` | worker/tasks/maintenance.py:139-260 | in every state reached without a harmful sweep of the owner, a pass over a live Job does what its row calls for: a message lost for four hours fails the Job and frees its owner, a worker silent for five minutes gets its Job resumed with exactly one new message while resumes are left and failed after that, and any other Job is left alone |
| `Recovery.PendingClockStarts` | worker/tasks/maintenance.py:95-97 | a row that turns pending says when it did, so no message counts as lost before its four hours are over |
| `Recovery.OrphanPassActs` | worker/tasks/maintenance.py:100-136 | the orphan pass selects exactly the done Jobs without an error, untouched for fifteen minutes, whose owner is in their in-flight state; sweeping one fails it and its owner, or it alone when the owner moved on, or nothing when it was touched |
| `Recovery.FailedOwnerIsFree` | worker/tasks/common.py:227-248 | an owner that failed with its Job is out of flight, and no other owner's flight changes |
| `Sessions.Session.Complete` | worker/tasks/common.py:836-853 | the done-stamp lands with everything the body left pending, or all of it is discarded |
| `Bodies.ClaimMessage` | worker/tasks/common.py:779-790 | a message is claimed iff the guard saw a pending job and the row still is; the rows are those of the claim event |
| `Lifecycle.ClaimTakesPending` | worker/tasks/common.py:779-790 | a message takes its Job iff the row is pending then: running under the next token with a fresh beat, the run knowing the token as its claim; otherwise nothing is written and the message is over |
| `Lifecycle.ReadsSeeTheRows` | worker/tasks/common.py:790-831 | each read of a run (its token, its owner, the cut again, the pins) sees the row as it is at that moment and writes nothing |
| `Lifecycle.LandingsWrite` | worker/tasks/common.py:836-853 | the last write of a render or publish lands whole while the run holds its Job and not at all otherwise: Job done without error, video and both fingerprints or the published status, other cuts untouched |
| `Bodies.EndEnrich` | worker/tasks/enrich_context.py:105-119 | the reel's move, the follow-up job and the done-stamp land as the enrich event says, iff the run still holds its job and may make the move; else nothing |
| `Bodies.PersistGuide` | worker/tasks/generate.py:682-695 | every cut holds afterwards the last guide whose platform it is the first listed cut of, and is as before when there is none; no other table changes |
| `Bodies.EachPlatformGetsItsGuide` | worker/tasks/generate.py:686-692 | with every cut listed once, the first cut of a platform holds the last guide of that platform |
| `Bodies.EndGenerate` | worker/tasks/generate.py:765-771 | guides, reel move and done-stamp land together iff the fence and the transition allow, else nothing; what lands are the guides of `PersistGuide` |
| `Bodies.EndRender` | worker/tasks/render.py:148-189 | recorded video, both fingerprints (for any row order of the pins query), status and done-stamp land together iff the fence and the transition allow, else nothing |
| `Bodies.PlanPublish` | worker/tasks/publish.py:40-56 | uploads iff there is a video, no recorded post and all checks pass; only finalizes iff a post is recorded already |
| `Bodies.RecordPostId` | worker/tasks/publish.py:77-82 | the early commit records the post id whatever has become of the job |
| `Bodies.EndPublish` | worker/tasks/publish.py:84-84 | the cut's move and the done-stamp land together iff the fence and the transition allow |
| `Routers.EnqueueJob` | api/enqueue.py:19-41 | job row and owner change commit together; a refused send fails a still pending job, frees its owner and answers 503 |
| `Routers.TriggerRender` | api/routers/cuts.py:98-137 | serves exactly the requests whose event is enabled, leaving its rows; 404 iff no cut, 422 iff no guide, 409 iff posted or neither draft, in review nor failed; a refusal leaves the rows alone |
| `Routers.TriggerPublish` | api/routers/cuts.py:228-263 | the same for publishing: 422 iff no video, 409 iff neither approved, scheduled nor failed |
| `Routers.UpdateCut` | api/routers/cuts.py:154-211 | served iff in review; the guide column becomes exactly the patched guide and stays as it was when the form changes nothing |
| `Routers.ApproveCut` | api/routers/cuts.py:214-225 | approves iff in review |
| `Routers.ChooseHookVariant` | api/routers/cuts.py:299-319 | replaces the hook's voice-over iff in review with an existing variant and a hook beat first |
| `Routers.CreateReel` | api/routers/reels.py:44-124 | reel, its cuts and its enrich job appear together, the reel already enriching, or nothing on a blank context |
| `Routers.AddCuts` | api/routers/reels.py:99-106 | the platform loop adds exactly one draft cut per selected platform |
| `Routers.RefusedSendFreesItsCut` | api/enqueue.py:19-41 | what a refused send leaves after any healthy events since the commit: a claimed job is left alone, a pending one fails and its cut is out of flight |
| `Routers.RequestsTakeTheirCut` | api/routers/cuts.py:119-132 | a render or publish request takes a cut nobody had in flight, and its new Job owns it |
| `Lifecycle.RequestsAreServed` | api/routers/cuts.py:98-263 | which requests a cut allows in which status (render from draft, review or failure with a guide and no post; publish once approved or after a failure with a video; approval in review), and what each leaves: the cut's new status, a pending Job of it with nothing used up, its first message, and nothing else |
| `Lifecycle.CutMovesOnly` | api/state.py:9-24 | wherever the cut and its Jobs correspond, each move of its status is one of seven, made by the one event that may make it: three requests, two landing bodies, and a failure out of rendering or publishing |
| `Lifecycle.ReelMovesOnly` | api/state.py:1-7 | in every reachable state a reel goes from enriching to generating to guide_ready by the bodies' last writes and fails only on the way |
| `Lifecycle.GuidesChangeInReview` | api/routers/cuts.py:160-163 | in every reachable state a guide, once there, changes only by an edit of a cut in review |
| `Lifecycle.RenderedNeedsApproval` | api/routers/cuts.py:228-250 | in every run, after a render of a cut has landed no publish of it can be requested before it is approved or fails |
| `Lifecycle.UploadsAreApproved` | api/routers/cuts.py:214-263 | in a run in which the cut never fails, whenever an upload may begin somebody has approved the cut since its last render |
| `Correspondence.StepKeepsCorrespondenceIff` | worker/tasks/maintenance.py:100-136 | for any set of owners watched (all, one cut and the reels, the reels): a step keeps "in flight exactly when one live Job of that type owns it" iff it is not a sweep that rolls a watched owner back |
| `Correspondence.TraceKeepsInv` | worker/tasks/common.py:680-760 | the correspondence, and one live Job per watched owner, over every run without such a sweep |
| `Correspondence.ReelsAlwaysCorrespond` | worker/tasks/maintenance.py:100-136 | for reels over every run whatever |
| `Correspondence.Step` | worker/tasks/common.py:227-248 | one step of it: routes, claims, failures, retries, done-stamps, resumes, cleanup |
| `Correspondence.OneLiveJobPerOwner` | api/routers/cuts.py:18-44 | an owner is in a type's in-flight state iff a live Job of that type exists for it, and that Job is the only one |
| `Correspondence.EveryCandidateIsAFalsePositive` | worker/tasks/maintenance.py:100-136 | whatever the orphan query selects has a newer live render Job behind it |
| `Correspondence.HandOffIsAtomic` | worker/tasks/enrich_context.py:105-119 | reel move, new generate Job and enrich done-stamp: all visible or none |
| `Correspondence.HandOffIsCleanedUp` | worker/tasks/enrich_context.py:29-46 | after a refused enqueue and its cleanup the follow-up Job is running and owns the generating reel, or both failed, or it had finished and so had the reel |
| `Correspondence.FailKeeps` | worker/tasks/common.py:322-351 | failing a live Job frees exactly its own owner |
| `Correspondence.NewCutJob` | api/routers/cuts.py:119-132 | a new render or publish Job takes a cut nobody owned |
| `Correspondence.EnrichDone` | worker/tasks/enrich_context.py:105-119 | ownership of the reel passes from the enrich Job to the generate Job without a gap |
| `Correspondence.CutDone` | worker/tasks/common.py:836-853 | a done render or publish takes its cut out of flight with itself |
| `Correspondence.InitInv` | api/routers/reels.py:79-118 | the empty database satisfies the invariant |
| `Fencing.RowsMoveOneWay` | worker/tasks/common.py:784-853 | every event moves a row by one of: claim (token plus one), retry reset, resume within budget, done-stamp, failure; failed is terminal and done is stamped once |
| `Fencing.TokensIdentifyClaims` | worker/tasks/common.py:784-820 | in every reachable state no two live runs of a Job made the same claim, and a run's token is never ahead of the row |
| `Fencing.ActingPhase` | worker/tasks/common.py:784-820 | only a claim makes a run active, with the row's next token; a read-back takes the row's token as it is; nothing else touches either |
| `Fencing.NewRecord` | worker/tasks/common.py:552-569 | a message that appears is not active and claims nothing |
| `Fencing.TokensStayDistinctIff` | worker/tasks/common.py:790-818 | a step makes two live runs of a Job hold one token iff it is a read-back of the token another holds |
| `Fencing.OneRunPassesTheFence` | worker/tasks/common.py:790-850 | over runs without such a read-back at most one run of a Job passes the fence |
| `Fencing.SharedTokenMeansLateReadBack` | worker/tasks/common.py:790-818 | two runs hold one token only if one read it back after a later claim; two runs can pass the fence only then |
| `Fencing.SupersededRunIsHarmless` | worker/tasks/common.py:173-222 | a run whose token is behind the row changes no status, token, error or owner on any path and schedules no retry |
| `Fencing.SupersededStretchIsHarmless` | worker/tasks/common.py:507-576 | the same over everything it still does until it ends |
| `Fencing.SupersededRejectIsHarmless` | worker/tasks/common.py:648-658 | a rejected retry of a superseded run changes nothing |
| `Fencing.OvertakenForGood` | worker/tasks/common.py:124-150 | once overtaken, a token never passes a fence again |
| `Fencing.EndedForGood` | worker/tasks/common.py:695-700 | an ended Job is never claimed again, and a failed one stays failed |
| `TimedExclusion.BodiesExclude` | worker/tasks/common.py:294-319 | with heartbeats in time two bodies of one Job never run at once and every live run fences with its own claim's token |
| `TimedExclusion.LiveRunIsNeverReaped` | worker/tasks/maintenance.py:71-93 | the reaper neither resumes nor fails a Job whose run is alive, whenever its pass began |
| `TimedExclusion.RunningRowIsLeftAlone` | worker/tasks/maintenance.py:176-260 | a running row that is not stale changes only by the run that holds it |
| `Heartbeats.PunctualRunsAreTimely` | worker/tasks/common.py:294-319 | a read-back within five minutes of the claim and beats no further apart keep the row fresh |
| `Heartbeats.PunctualBodiesExclude` | worker/tasks/common.py:784-853 | hence no two live runs of such a Job, over any run of the system |
| `Heartbeats.CalmRunsArePunctual` | worker/tasks/common.py:294-319 | the premise can be met: in a run in which no time passes every Job's runs are on time |
| `Heartbeats.BeatMoves` | worker/tasks/common.py:173-222 | any event leaves a heartbeat alone or sets it to the present |
| `Claims.ClaimsAreConserved` | worker/tasks/common.py:784-790 | for any schedule: claims equal entries into pending that were claimed, and resumes never exceed the type's budget |
| `Claims.ResetsAreBounded` | worker/tasks/common.py:552-569 | without redelivery, resets made and still possible stay within (1 + resumes) times the retry budget |
| `Claims.ClaimsAreBounded` | worker/tasks/common.py:288-291 | hence at most (1 + resume budget)(1 + retry budget) claims |
| `Claims.LifecycleMeasureFalls` | worker/tasks/maintenance.py:205-223 | resumes left, resets left, status rank: falls with every status change and never rises |
| `Claims.MeasureIsNatural` | worker/tasks/maintenance.py:205-223 | and is never negative in a reachable state |
| `Claims.LifecyclesAreBounded` | worker/tasks/common.py:288-291 | hence, without redelivery, at most 2 (1 + resume budget)(1 + retry budget) + 2 status changes of a Job |
| `Claims.NewRows` | api/enqueue.py:19-32 | jobs appear pending, unclaimed, with exactly one first message |
| `GateSoundness.GateIsSound` | engine/publish/gate.py:80-125 | in a run that is healthy for this cut, whenever the checks of its publish pass or its upload begins, every recorded fingerprint vouches for the video: its guide is the cut's and, if beats of one index in it have one direction, so are its pins |
| `Heartbeats.PunctualGateIsSound` | worker/tasks/common.py:294-319 | the same, from the read-backs and heartbeats of the runs of this cut's Jobs |
| `Heartbeats.PunctualCutsAreHealthy` | worker/tasks/common.py:294-319 | runs on time and no sweep of the cut make every state of the run healthy for it |
| `GateSoundness.GateIsExact` | engine/publish/gate.py:80-125 | the gate passes iff every fingerprint the last render recorded belongs to what the cut holds; a column still null blocks nothing; for the pins, from a guide with one direction per index |
| `GateSoundness.HealthyRunsKeepGateInv` | worker/tasks/render.py:148-189 | the invariant behind it, for one cut, over whole runs of edit, render, failed render and retried publish |
| `GateSoundness.CutIsFrozen` | api/routers/cuts.py:164-208 | guide, pins, video and fingerprints of a cut change only through the one run alive on it |
| `GateSoundness.FinishedRenderIsTruthful` | worker/tasks/render.py:165-189 | what a finishing render snapshots is what it built from and what the cut holds |
| `GateSoundness.SoleRun` | worker/tasks/common.py:784-820 | at most one run is alive on an owner |
| `GateSoundness.PostsAreWrittenOnce` | worker/tasks/publish.py:77-82 | in a run that is healthy for the cut a post id is only ever written where there is none |
| `Snapshots.RecordedPinsAreTruthfulIff` | worker/tasks/render.py:165-189 | in any run and for any guide: a landing render records the fingerprint of the pins it built from iff, at every beat index, the last pins any run put there before its snapshot are those it put or reused itself |
| `Snapshots.TracksUntilStray` | engine/render/asset_sourcer.py:953-970 | with distinct indices: while the ledger agrees with what a render has built, a step ends that iff it is another run's re-pin of a finished beat with other pins |
| `Snapshots.DriftIff` | worker/tasks/render.py:63-79 | over a whole build, index by index: what was built is what the ledger holds iff the last pins put there were the render's own |
| `Snapshots.PinsBelongToGuides` | engine/generation/guide_edit.py:86-98 | in any run: pins belong to beats of their cut's guide, and a loaded guide has the beats of the cut's |
| `Publishing.PublishHappensAtMostOnce` | worker/tasks/publish.py:26-35 | under arbitrary redelivery a publish Job is claimed at most once, never pending again, and at most one of its runs uploads |
| `Publishing.PostedForGood` | worker/tasks/publish.py:45-84 | a recorded post id is never cleared, no later render is accepted at the request, the load or the final re-read, and no publish that loads the cut later uploads |
| `Publishing.PostStays` | api/routers/cuts.py:109-112 | no event clears the post id |
| `Publishing.PostIsReplacedIff` | worker/tasks/publish.py:72-82 | in any run: a step changes a recorded id iff it records another post of this cut, and its run loaded the cut before it was posted |
| `Publishing.OnlyRecordsWritePosts` | worker/tasks/publish.py:77-82 | no other step writes a post id |
| `ExactlyOnce.RewriteAfterLandingIsNothing` | worker/tasks/common.py:601-626 | if the first commit landed, the second write changes nothing, after any events |
| `ExactlyOnce.RewriteAfterLossIsTheOnlyWrite` | worker/tasks/common.py:601-626 | if it was lost, the second write fails the Job and frees the one owner it alone answers for, or finds it moved on and changes nothing |
| `ExactlyOnce.RewriteSparesANewOwner` | worker/tasks/common.py:601-626 | an owner another Job took meanwhile is not touched |
| `ExactlyOnce.ReconnectIsExactlyOnce` | worker/tasks/common.py:601-626 | the whole recorder around arbitrary events of the system: landed, landed unseen or lost, the Job fails at most once and only its own owner is freed |
| `Counterexamples.SweepFailsALiveRender` | worker/tasks/maintenance.py:113-132 | a reachable failed cut with a live render Job |
| `Counterexamples.TwoRunsShareAToken` | worker/tasks/common.py:790-818 | two reachable live runs that both pass the fence |
| `Counterexamples.PostIsOverwritten` | worker/tasks/publish.py:72-82 | a reachable step that replaces a recorded post id |
| `TwinBeats.TwinBeatsDefeatTheGate` | worker/tasks/render.py:63-79 | for every guide with two beats of one index and different directions there is a healthy run that passes the gate with a video built from more than the pins |
| `TwinBeats.GateVouchesForPinsIff` | engine/render/asset_sourcer.py:932-970 | over healthy runs the gate vouches for the pins of every video recorded from a guide iff its beats of one index have one direction |
| `Counterexamples.SupersededRepinDefeatsTheGate` | engine/render/asset_sourcer.py:955-970 | a reachable cut whose recorded fingerprint matches its pins while the video shows others |
| `GuideEdit.SetBeatField` | engine/generation/guide_edit.py:38-83 | the array's beat becomes the edited beat, the flag says whether it changed, no change leaves the list untouched |
| `GuideEdit.PatchBeatInPlace` | api/routers/cuts.py:181-199 | the four edits of one beat in the route's order |
| `GuideEdit.UpdateGuide` | api/routers/cuts.py:177-208 | the result is the patched guide, reassigned only if a beat changed |
| `GuideEdit.NormalizeLinesLoop` | engine/generation/guide_edit.py:25-35 | the loop computes the clean, non-blank, split lines, at most five |
| `GuideEdit.NormalizeTextIdempotent` | engine/generation/guide_edit.py:14-22 | normalizing a text twice is normalizing it once |
| `GuideEdit.NormalizeLinesIdempotent` | engine/generation/guide_edit.py:25-35 | the same for lines, for every input |
| `GuideEdit.EditBeatSettles` | engine/generation/guide_edit.py:38-83 | the flag is set iff the normalized value differs, and the value is in place afterwards unless it is NaN |
| `GuideEdit.PatchTwiceIsPatchOnce` | api/routers/cuts.py:177-208 | the same form again changes nothing, and reports a change iff it carries a NaN duration |
| `GuideEdit.ChangeFlagIsExact` | api/routers/cuts.py:200-208 | without NaN the flag is set iff the guide differs |
| `GuideEdit.EditsKeepBeats` | engine/generation/guide_edit.py:86-98 | neither edit changes which beats the guide has |
| `GuideEdit.PatchByPosition` | api/routers/cuts.py:181-199 | beat i takes the i-th fields of the form and no others: each field's normalized value where it is given and differs, what was there otherwise; a changed script brings its derived lines, and a beat the form has nothing for is as before |
| `GuideEdit.VariantReplacesOneBeat` | engine/generation/guide_edit.py:86-98 | the swap writes the chosen text and the lines derived from it into its beat and touches nothing else |
| `GuideEdit.StripCuts` | engine/generation/guide_edit.py:22-22 | stripping takes white space off both ends, as much as there is, and nothing else |
| `GuideEdit.LineEndSplits` | engine/generation/guide_edit.py:14-22 | each CRLF, and each CR no LF follows, becomes one LF, with the text on both sides normalized by itself |
| `GuideEdit.FirstLineEnds` | engine/generation/guide_edit.py:31-31 | a line ends at its first break, a CRLF counting as one |
| `PinFingerprint.FingerprintIsCanonical` | engine/render/asset_sourcer.py:857-865 | equal fingerprints iff the same pins, whatever order the rows came in |
| `PinFingerprint.StoredFingerprintIsCanonical` | engine/render/asset_sourcer.py:884-896 | the same of the text in the column, and it is the literal for no pins iff there are none: no digest reads like it |
| `PinFingerprint.PinsFingerprintIsCanonical` | engine/render/asset_sourcer.py:888-896 | on pin sets: independent of row order, and it determines the set |
| `PinFingerprint.JoinedInjective` | engine/render/asset_sourcer.py:864-864 | the text `b:o:a` joined by bars is uniquely decodable, negative numbers included |
| `PinFingerprint.PinTextInjective` | engine/render/asset_sourcer.py:864-864 | one triple's text determines it |
| `PinFingerprint.SortedIsUnique` | engine/render/asset_sourcer.py:864-864 | sorting removes the row order and nothing else |
| `PinLedger.Ledger.ResolveOrReuse` | engine/render/asset_sourcer.py:899-971 | reuses iff every pin has the direction and some asset exists; at every commit, those inside the resolution included, the table is the whole old or the whole new one; results and table are determined |
| `PinLedger.Ledger.Resolve` | engine/render/asset_sourcer.py:945-952 | commits inside the resolution make durable only what was pending before |
| `PinLedger.Ledger.Reuse` | engine/render/asset_sourcer.py:932-941 | exactly the existing assets of the pins, in order |
| `PinLedger.Ledger.AddPins` | engine/render/asset_sourcer.py:959-969 | one pin per found asset, at its place |
| `PinLedger.NewPinsAreTheFinds` | engine/render/asset_sourcer.py:959-969 | there is a new pin exactly for every place where something was found: at that place, with that asset, for that direction |
| `PinLedger.OrderSorts` | engine/render/asset_sourcer.py:922-930 | the pins are read in the order of their places, all of them |
| `PinLedger.RepinTouchesOneBeat` | engine/render/asset_sourcer.py:953-969 | the beat holds exactly the new pins, every other beat of every cut its old ones |
| `PinLedger.RepinKeepsKeysUnique` | api/models.py:203-207 | (cut, beat, order) stays unique |
| `PinLedger.RepeatCallReusesIff` | engine/render/asset_sourcer.py:932-943 | a repeat call reuses iff the first pinned anything, and then returns the same assets in the same order |
| `PinLedger.ChangedDirectionResolves` | engine/render/asset_sourcer.py:932-932 | pins of another direction are never reused |
| `PinLedger.RepinIsPinBeat` | engine/render/asset_sourcer.py:953-970 | a call that resolves is one re-pin event of the state machine |
| `PinLedger.DecisionIsReadPins` | engine/render/asset_sourcer.py:922-943 | the call reuses iff the state machine's read event does and some pinned asset still exists |
| `PinLedger.ResolvingIsPinBeat` | engine/render/asset_sourcer.py:953-970 | the table after a call that resolves is the state machine's ledger after its re-pin event, directions included; other cuts' ledgers stay |
| `PinLedger.ReuseIsReadPinsIff` | engine/render/asset_sourcer.py:932-943 | a call that reuses hands back one asset per pin whose asset row exists, which is what the state machine's read event takes iff all of them exist |
| `CaptionSpans.ProportionalSpans` | engine/render/compositor.py:327-359 | placed items are a non-empty prefix that tiles the beat from its start to exactly its end; every placed item but the last lasts its weight's part of the beat, or 0.3 s if that is more; an item is left out only when no time is left; and when no part is below 0.3 s all are placed, in proportion, the last with what the weights lack of the total on top |
| `CaptionSpans.LengthsAreInProportion` | engine/render/compositor.py:327-359 | when no floor applies and the weights make up the total, any two lengths are to each other as the weights are, the last included |
| `CaptionSpans.TilingIsUnique` | engine/render/compositor.py:327-359 | that determines the spans |
| `CaptionSpans.AllPlacedIff` | engine/render/compositor.py:347-358 | all items are placed iff the floored shares before the last leave it time |
| `CaptionSpans.SharesReachingTheFloorAreAllPlaced` | engine/render/compositor.py:327-359 | shares at the floor and weights within the total: all placed, each with exactly its share, the last with the rest |
| `CaptionSpans.SpansAreOrdered` | engine/render/compositor.py:350-358 | spans never overlap |
| `CaptionSpans.SpansStayInside` | engine/render/compositor.py:350-358 | spans stay inside the beat |
| `CaptionSpans.FloorBoundsPlacement` | engine/render/compositor.py:343-345 | how many items a beat can hold |
| `CaptionSpans.LastSpanReachesTheFloorIff` | engine/render/compositor.py:347-358 | every span but the last reaches the floor, and the last does iff no item's turn comes in the beat's last 0.3 s |
| `WordStream.WhisperTimestamps` | engine/render/compositor.py:246-271 | each line runs from its first to its last word, clipped to the beat, at least 0.4 s; the clamp of the last index never bites |
| `WordStream.WordsArePartitioned` | engine/render/compositor.py:265-266 | for m >= n >= 1 the ranges are non-empty, disjoint, in bounds and cover all words |
| `WordStream.LinesShareTheWordsEvenly` | engine/render/compositor.py:265-266 | every line gets m / n words or one more, and line i begins with word i * m / n, rounded down |
| `WordStream.EveryWordHasOneLine` | engine/render/compositor.py:265-266 | every word lies in exactly one range |
| `WordStream.LinesStartInOrder` | engine/render/compositor.py:267-270 | line starts never go backwards when word starts do not |
| `WordStream.OnlyTheFloorOverlaps` | engine/render/compositor.py:267-269 | lines overlap iff the 0.4 s floor makes them |
| `Timeline.CaptionCues` | engine/render/compositor.py:574-596 | the fallback cues of a beat tile it |
| `Timeline.SentencesLastAsTheirWords` | engine/render/compositor.py:574-596 | every placed sentence but the last lasts its words' part of the beat or the floor, and when none needs the floor any two sentences last as their words |
| `Timeline.WordlessSentencesLastTheFloor` | engine/render/compositor.py:574-596 | sentences without a word between them last 0.3 s each, up to the last placed |
| `Timeline.ReelCues` | engine/render/compositor.py:756-774 | the cues are every beat's own, moved by the durations before it |
| `Timeline.CueOfASentence` | engine/render/compositor.py:756-774 | sentence k of beat i is shown at its own times moved by the durations of the beats before, with its own beat and number |
| `Timeline.FallbackCuesAreOrderedIff` | engine/render/compositor.py:756-774 | fallback cues over a reel never overlap iff the durations between any two captioned beats add up to at least nothing |
| `Timeline.CuesAreOrdered` | engine/render/compositor.py:756-774 | no negative duration suffices, recognised segments included |
| `Timeline.SilentBeatKeepsOrderIff` | engine/render/compositor.py:574-596 | a silent beat between two captioned ones keeps their captions apart iff its duration is not negative, which the schema rejects before a render |
| `Timeline.CuesLineUpWithClipsIff` | engine/render/compositor.py:489-489 | cues start with their clips on every beat iff every beat lasts 0.5 s; otherwise they run ahead from the first shorter one |
| `Srt.FormatTimestamp` | engine/render/srt.py:15-21 | fields in range that name the nearest millisecond, ties to even |
| `Srt.PrintingKeepsOrder` | engine/render/srt.py:15-21 | printing is monotone and off by at most half a millisecond |
| `Srt.StampsAreUnique` | engine/render/srt.py:17-21 | no two printed stamps name one moment |
| `Srt.PrintedCuesStayOrdered` | engine/render/srt.py:24-46 | ordered cues are ordered as printed |
| `Srt.WriteSrt` | engine/render/srt.py:24-46 | numbered from 1 in order; no file iff there is nothing to write |
| `SafeFetch.Net.EnterBudget` | engine/render/safe_fetch.py:78-87 | nesting only tightens the deadline |
| `SafeFetch.Net.LeaveBudget` | engine/render/safe_fetch.py:84-87 | leaving restores the outer deadline |
| `SafeFetch.Net.Clip` | engine/render/safe_fetch.py:90-93 | the earlier of the two deadlines |
| `SafeFetch.Net.OpenDownload` | engine/render/safe_fetch.py:257-323 | it succeeds iff within four hops every hop before the last redirects, the last one delivers, and all of them are allowed, resolved and in time, and then hands over that hop's response; at most four requests, each to a URL the caller allows, none begun after the deadline, each where the one before was redirected; too many redirects iff all four redirected |
| `SafeFetch.RequestsFollowRedirects` | engine/render/safe_fetch.py:309-322 | the first request is for the URL asked for, each later one for where the response before it pointed, joined to the URL before |
| `SafeFetch.Net.OneHop` | engine/render/safe_fetch.py:285-322 | a hop makes its request iff it is in time, allowed and resolved |
| `SafeFetch.Net.IterCapped` | engine/render/safe_fetch.py:466-492 | never yields more than the limit, only chunks read in time, and reads to the end iff encoding, declared length, length and time allow |
| `Inflate.Attempt` | engine/render/safe_fetch.py:351-364 | the loop computes the bounded decoding and terminates, given a decoder that consumes input or emits output |
| `Inflate.DecodeBounded` | engine/render/safe_fetch.py:337-368 | accepted output never exceeds the limit; only a zlib error moves on to the next setting |
| `Inflate.DecodingReads` | engine/render/safe_fetch.py:351-364 | every decoding reads chunks, at most a mebibyte at a time, up to one of four ends: all input read and the stream complete, which yields the chunks in order; all input read and the stream cut short; a zlib error on input still there; or the first chunk that does not fit |
| `Inflate.ReadingDecodes` | engine/render/safe_fetch.py:351-364 | and any reading up to such an end is the decoding |
| `Inflate.CapIsExact` | engine/render/safe_fetch.py:354-364 | the cap refuses exactly the bodies that inflate to more and changes no other |
| `Inflate.OutputIsCapped` | engine/render/safe_fetch.py:357-359 | accepted output is within the room left |
| `AssetBudget.Sourcer.RenderBeats` | worker/tasks/render.py:63-80 | beats run one after another with the speech in between; each gets what the asset time of the earlier ones leaves of 1200 s, and begins nothing later; the black frames are exactly the beats that showed nothing, and what a beat shows or misses is what its sources offered meanwhile; the first beat that raises ends the render, and the outer budget is restored either way |
| `AssetBudget.TimeIsAssetsAndSpeech` | worker/tasks/render.py:63-80 | the time of a render is the asset time and the speech, nothing else |
| `AssetBudget.StartMeansTimeLeft` | worker/tasks/render.py:63-70 | everything a beat begins, it begins while the asset time so far, counted on from the block's own clock reading, is short of 1200 s |
| `AssetBudget.NothingBeginsAfterTheBudget` | worker/tasks/render.py:59-62 | once earlier beats used the budget up, no later beat begins a download or a paid generation, however long speech took |
| `AssetBudget.Sourcer.Search` | engine/render/asset_sourcer.py:424-438 | the hits are looked at in order and the first one is picked that is cached, or looked at before the clipped deadline with a download that delivers; downloads begin strictly before that deadline, and with the budget spent exactly the first cached hit is served |
| `AssetBudget.Sourcer.Download` | engine/render/asset_sourcer.py:221-240 | a hit is got iff some hop of its chain hands over a successful response whose body can be read and is kept, or after a 429, where that is retried, the second try does; one decision to start, requests only to allowed URLs and none after the deadline |
| `AssetBudget.Sourcer.Generate` | engine/render/asset_sourcer.py:492-511 | it delivers iff the file is cached, or the paid call is made and delivers; the call is made iff nothing is cached and the budget is not spent |
| `AssetBudget.Sourcer.Resolve` | engine/render/asset_sourcer.py:773-832 | what is shown came from current pins, from a hit shown in the meantime or from a generator; nothing is shown only when every hit was looked at and missed, nothing was cached and, with budget left, no generator delivers; nothing begins outside the budget, and nothing at all for a beat with current pins |

## Left out

- SQL, Celery, Redis and HTTP themselves: only their contracts are kept (atomic compare-and-set, commits that may fail ambiguously, messages lost, duplicated or refused, crashes at any point).
- Files on disk, ffmpeg, MoviePy, Whisper, speech synthesis and Pillow. A stalled render overwriting the output file of its successor is outside the gate property.
- LLM calls, prompts, the judge and the scoring axes: no property without the semantics of their regular expressions, and the sums around them are easy.
- Platform uploads, OAuth, metrics, credentials, insights, templates and migrations.
- Sockets, DNS and URL parsing: whether a host resolves in time, whether the watchdog fired and which URLs are allowed are parameters.
- Floating-point rounding in the timing code: times are exact reals, and infinite or NaN durations, which the guide schema rejects before a render, are excluded there.
- sha256: digests are taken to be injective on the values used, so they keep their preimage.
- GateSoundness.GateIsSound: `assert_safe_to_publish` and the credential lookup are not part of the gate modelled; they only narrow it.
- PinLedger.Ledger.ResolveOrReuse: one session at a time; in the state machine a call is a read and, if it resolves, one atomic re-pin, and the unique constraint is what rejects two sessions that re-pin one beat at once.
- PinLedger.ReuseIsReadPinsIff: the state machine takes asset rows to stay, as no code deletes one; where one is gone, a reused beat shows fewer assets than are pinned.
- Sessions.Session.FinalizeOrReconnect: an error on the second session, and an error that is not a lost connection, leave the function and are not modelled.
- Sessions.Session.SettleFailure: the branch for a run that already stamped its job done is `SettleCommitted`.
- AssetBudget.Sourcer.Resolve: which asset is chosen, its license and its caching are left to `PinLedger` and to arguments; so is whether the beat's pins are reused.
- Routers.UpdateCut: the caption and hashtag columns, which no fingerprint covers, are not modelled, nor that the commit fails on a NaN duration.
- Routers.CreateReel: voice, colour, niche and target length are stored unread by the protocol and are not modelled.
- Routers.AddCuts: the cut's platform and target length are likewise not modelled.
- Bodies.PersistGuide: caption, hashtags and hook variants, which the gate and the protocol do not read, are not modelled.
- Bodies.EndRender: thumbnail, duration, black-frame and subtitle columns, which nothing else depends on, are not modelled.
- The state machine excludes the committed half of a cleanup (`Sessions.HalfACleanup`), which takes two failing rollbacks in a row.
- Rows are never deleted, so the branches for a vanished job, reel or cut of a run are not reached in the state machine; the session code keeps them where it is modelled.
- `scheduled` cuts: the tables allow the status, and no code in the repository sets it.
- Listing helpers, fragments and the thumbnail choice: they read, or write columns nothing else depends on.
