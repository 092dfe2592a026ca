/** What an event can make of the record it acts on, in three groups: the record ends or turns into its
    retry, it is started, or its body goes on. */
module Steps {
  import opened Wrappers
  import opened GuideEdit
  import opened PinFingerprint
  import opened Rows
  import opened Tx
  import opened System

  /** The last write of a body. */
  predicate Finishes(e: Event) {
    e.FinishEnrich? || e.FinishGenerate? || e.FinishRender? || e.FinishPublish?
  }

  /** The writes and reads in the middle of a body, and the heartbeats. */
  predicate InBody(e: Event) {
    e.TouchJob? || e.BeatJob? || e.ReadPins? || e.PinBeat? || e.RefreshCut? || e.SnapPins?
    || e.PassGate? || e.Upload? || e.RecordPost?
  }

  /** The record has ended, went to the broker after all, or is its own retry message. */
  predicate Fallen(r: Run, r': Run) {
    || r' == r.(phase := Ended)
    || (r.phase.Sending? && r' == r.(phase := Queued))
    || (r'.phase.Sending? && r'.phase.origin.FromRetry? && r' == Retried(r, r'.phase.origin.fence))
  }

  /** Only the local state of the body changed. */
  predicate SameLife(r: Run, r': Run) {
    && r'.job == r.job && r'.retries == r.retries && r'.phase == r.phase
    && r'.claimTok == r.claimTok && r'.tok == r.tok && r'.view == r.view
  }

  lemma EndingRun(s: Sys, e: Event, i: nat)
    requires Enabled(s, e) && Actor(e) == Some(i) && Ending(e)
    ensures Fallen(s.runs[i], RunAfter(s, i, e))
  {
    if Finishes(e) { FinishingRun(s, e, i); } else { FailingRun(s, e, i); }
  }

  lemma FinishingRun(s: Sys, e: Event, i: nat)
    requires Enabled(s, e) && Actor(e) == Some(i) && Finishes(e)
    ensures RunAfter(s, i, e) == s.runs[i].(phase := Ended)
  {
  }

  lemma FailingRun(s: Sys, e: Event, i: nat)
    requires Enabled(s, e) && Actor(e) == Some(i) && Ending(e) && !Finishes(e)
    ensures Fallen(s.runs[i], RunAfter(s, i, e))
  {
  }

  lemma BodyRun(s: Sys, e: Event, i: nat)
    requires Enabled(s, e) && Actor(e) == Some(i) && InBody(e)
    ensures SameLife(s.runs[i], RunAfter(s, i, e)) && s.runs[i].Holder()
  {
    if e.ReadPins? || e.PinBeat? || e.RefreshCut? || e.SnapPins? { RenderRun(s, e, i); } else { OtherBodyRun(s, e, i); }
  }

  lemma RenderRun(s: Sys, e: Event, i: nat)
    requires Enabled(s, e) && Actor(e) == Some(i) && (e.ReadPins? || e.PinBeat? || e.RefreshCut? || e.SnapPins?)
    ensures SameLife(s.runs[i], RunAfter(s, i, e)) && s.runs[i].phase.Working?
  {
  }

  lemma OtherBodyRun(s: Sys, e: Event, i: nat)
    requires Enabled(s, e) && Actor(e) == Some(i)
    requires e.TouchJob? || e.BeatJob? || e.PassGate? || e.Upload? || e.RecordPost?
    ensures SameLife(s.runs[i], RunAfter(s, i, e)) && s.runs[i].Holder()
  {
  }
}
