/** The reel-wide caption timeline: the cue-offset loop of `composite_cut`, `_proportional_caption_cues`,
    the beat clips they are shown over, and how `engine/render/srt.py` prints them.

    Times are exact reals. A cue's `beat` and `item` say which sentence it shows. */
module Timeline {
  import opened Wrappers
  import opened CaptionSpans

  /** One beat: the word counts of its sentences, the segments Whisper heard (beat-relative), and its
      duration. */
  datatype Spoken = Spoken(words: seq<nat>, heard: seq<Span>, duration: real)

  datatype Cue = Cue(beat: nat, item: nat, from: real, to: real)

  // ---------- Cues ----------

  /** `sum(word_counts) or len(sentences)`. */
  function TotalWords(words: seq<nat>): real {
    if Sum(words) == 0 then |words| as real else Sum(words) as real
  }

  lemma {:induction false} SumOfCounts(words: seq<nat>)
    ensures Sum(words) >= 0
  {
    if words != [] { SumOfCounts(words[..|words| - 1]); }
  }

  /** What the fallback places for one beat: sentences tile it. */
  ghost predicate FallbackOf(spans: seq<Span>, b: Spoken) {
    if b.words == [] then spans == []
    else TotalWords(b.words) != 0.0 && Tiles(spans, Floors(b.words, TotalWords(b.words), b.duration), b.duration, 0.0)
  }

  /** `_proportional_caption_cues`. */
  method CaptionCues(b: Spoken) returns (spans: seq<Span>)
    ensures FallbackOf(spans, b)
  {
    if b.words == [] { return []; }
    SumOfCounts(b.words);
    spans := ProportionalSpans(b.words, TotalWords(b.words), b.duration, 0.0);
  }

  /** Every placed sentence but the last lasts as long as its words are of all the beat's words, and never
      less than 0.3 s; and when no sentence needs that floor, all are placed and any two of them, the last
      included, last as their words. */
  lemma SentencesLastAsTheirWords(spans: seq<Span>, b: Spoken)
    requires FallbackOf(spans, b) && Sum(b.words) > 0
    ensures |spans| <= |b.words| && EachGetsItsPart(spans, b.words, Sum(b.words) as real, b.duration)
    ensures b.duration > 0.0
            && (forall k | 0 <= k < |b.words| ::
                  b.words[k] > 0 && PartReachesFloor(b.words[k], Sum(b.words) as real, b.duration)) ==>
              && |spans| == |b.words|
              && forall i, j | 0 <= i < |spans| && 0 <= j < |spans| ::
                   SameRatio(Length(spans[i]), Length(spans[j]), b.words[i], b.words[j])
  {
    var total := Sum(b.words) as real;
    TilesArePartsOfTheBeat(spans, b.words, total, b.duration, 0.0);
    if NoneIsFloored(b.words, total, b.duration) {
      UnflooredPartsAreExact(spans, b.words, total, b.duration, 0.0);
      forall i, j | 0 <= i < |spans| && 0 <= j < |spans|
        ensures SameRatio(Length(spans[i]), Length(spans[j]), b.words[i], b.words[j])
      {
        LengthsAreInProportion(spans, b.words, total, b.duration, i, j);
      }
    }
  }

  lemma {:induction false} NoWords(words: seq<nat>, k: nat)
    requires Sum(words) == 0 && k < |words|
    ensures words[k] == 0
  {
    SumOfCounts(words[..|words| - 1]);
    if k < |words| - 1 { NoWords(words[..|words| - 1], k); }
  }

  lemma NoPartOfNothing(length: real, total: real, duration: real)
    requires total > 0.0 && IsPart(length, 0, total, duration)
    ensures length == 0.3
  {
    assert Open(0);
  }

  /** Sentences without a word between them last 0.3 s each, up to the last placed. */
  lemma WordlessSentencesLastTheFloor(spans: seq<Span>, b: Spoken)
    requires FallbackOf(spans, b) && Sum(b.words) == 0
    ensures forall k | 0 <= k < |spans| - 1 :: Length(spans[k]) == 0.3
  {
    if b.words != [] {
      TilesArePartsOfTheBeat(spans, b.words, |b.words| as real, b.duration, 0.0);
      forall k | 0 <= k < |spans| - 1
        ensures Length(spans[k]) == 0.3
      {
        NoWords(b.words, k);
        NoPartOfNothing(Length(spans[k]), |b.words| as real, b.duration);
      }
    }
  }

  /** Where beat `i` begins on the reel, as the cue loop and the voice-over tracks reckon it. */
  function Offset(beats: seq<Spoken>, i: nat): real
    requires i <= |beats|
  {
    if i == 0 then 0.0 else Offset(beats, i - 1) + beats[i - 1].duration
  }

  function Shifted(spans: seq<Span>, beat: nat, offset: real): seq<Cue> {
    seq(|spans|, k requires 0 <= k < |spans| => Cue(beat, spans[k].item, offset + spans[k].from, offset + spans[k].to))
  }

  /** The cues of the first `n` beats, given each beat's own segments. */
  function Joined(beats: seq<Spoken>, parts: seq<seq<Span>>, n: nat): seq<Cue>
    requires n <= |beats| == |parts|
  {
    if n == 0 then [] else Joined(beats, parts, n - 1) + Shifted(parts[n - 1], n - 1, Offset(beats, n - 1))
  }

  /** Each beat's segments: what Whisper heard, or the fallback where it heard nothing. */
  ghost predicate PartsOf(beats: seq<Spoken>, parts: seq<seq<Span>>) {
    |parts| == |beats|
    && forall i | 0 <= i < |beats| ::
         if beats[i].heard != [] then parts[i] == beats[i].heard else FallbackOf(parts[i], beats[i])
  }

  /** The inner loop: one beat's segments, moved to the reel's timeline. */
  method AddCues(cues: seq<Cue>, segments: seq<Span>, beat: nat, offset: real) returns (more: seq<Cue>)
    ensures more == cues + Shifted(segments, beat, offset)
  {
    more := cues;
    for k := 0 to |segments|
      invariant more == cues + Shifted(segments, beat, offset)[..k]
    {
      more := more + [Cue(beat, segments[k].item, offset + segments[k].from, offset + segments[k].to)];
    }
    assert Shifted(segments, beat, offset)[..|segments|] == Shifted(segments, beat, offset);
  }

  /** The cue loop of `composite_cut`. */
  method ReelCues(beats: seq<Spoken>) returns (cues: seq<Cue>)
    ensures exists parts :: PartsOf(beats, parts) && cues == Joined(beats, parts, |beats|)
  {
    cues := [];
    ghost var parts: seq<seq<Span>> := [];
    var offset := 0.0;
    for i := 0 to |beats|
      invariant |parts| == i && PartsOf(beats[..i], parts) && cues == Joined(beats[..i], parts, i)
      invariant offset == Offset(beats, i)
    {
      var segments := beats[i].heard;
      if segments == [] { segments := CaptionCues(beats[i]); }
      cues := AddCues(cues, segments, i, offset);
      ghost var earlier := parts;
      parts := parts + [segments];
      offset := offset + beats[i].duration;
      JoinedOfPrefix(beats[..i], beats[i], earlier, segments);
      OffsetOfPrefix(beats, i, i);
      assert beats[..i] + [beats[i]] == beats[..i + 1];
    }
    assert beats[..|beats|] == beats;
  }

  lemma {:induction false} OffsetOfPrefix(beats: seq<Spoken>, n: nat, i: nat)
    requires i <= n <= |beats|
    ensures Offset(beats[..n], i) == Offset(beats, i)
    decreases i
  {
    if i > 0 { OffsetOfPrefix(beats, n, i - 1); }
  }

  lemma OffsetExtends(beats: seq<Spoken>, b: Spoken, i: nat)
    requires i <= |beats|
    ensures Offset(beats + [b], i) == Offset(beats, i)
  {
    assert (beats + [b])[..|beats|] == beats;
    OffsetOfPrefix(beats + [b], |beats|, i);
  }

  lemma {:induction false} JoinedExtends(beats: seq<Spoken>, b: Spoken, parts: seq<seq<Span>>, p: seq<Span>, n: nat)
    requires n <= |beats| == |parts|
    ensures Joined(beats + [b], parts + [p], n) == Joined(beats, parts, n)
    decreases n
  {
    if n > 0 {
      JoinedExtends(beats, b, parts, p, n - 1);
      OffsetExtends(beats, b, n - 1);
      assert (parts + [p])[n - 1] == parts[n - 1];
    }
  }

  lemma JoinedOfPrefix(beats: seq<Spoken>, b: Spoken, parts: seq<seq<Span>>, p: seq<Span>)
    requires |beats| == |parts|
    ensures Joined(beats + [b], parts + [p], |beats| + 1)
            == Joined(beats, parts, |beats|) + Shifted(p, |beats|, Offset(beats, |beats|))
  {
    JoinedExtends(beats, b, parts, p, |beats|);
    OffsetExtends(beats, b, |beats|);
  }

  // ---------- Order ----------

  /** Each cue ends before any later one begins. */
  ghost predicate Ordered(cues: seq<Cue>) {
    forall i, j | 0 <= i < j < |cues| :: cues[i].to <= cues[j].from
  }

  /** One beat's segments are in order and stay inside the beat. */
  ghost predicate Within(part: seq<Span>, duration: real) {
    && (forall i, j | 0 <= i < j < |part| :: part[i].to <= part[j].from)
    && (forall i | 0 <= i < |part| :: 0.0 <= part[i].from <= part[i].to <= duration)
  }

  /** And they fill it. */
  ghost predicate Spans(part: seq<Span>, duration: real) {
    && Within(part, duration)
    && (part != [] ==> part[0].from == 0.0 && part[|part| - 1].to == duration)
  }

  lemma FallbackSpans(part: seq<Span>, b: Spoken)
    requires FallbackOf(part, b)
    ensures Spans(part, b.duration)
    ensures part != [] <==> b.words != [] && b.duration > 0.0
  {
    if b.words != [] {
      var floors := Floors(b.words, TotalWords(b.words), b.duration);
      forall i, j | 0 <= i < j < |part|
        ensures part[i].to <= part[j].from
      {
        SpansAreOrdered(part, floors, b.duration, 0.0, i, j);
      }
      forall i | 0 <= i < |part|
        ensures 0.0 <= part[i].from <= part[i].to <= b.duration
      {
        SpansStayInside(part, floors, b.duration, 0.0, i);
      }
    }
  }

  /** Between two captioned beats the timeline never runs backwards. */
  ghost predicate NoBacktrack(beats: seq<Spoken>, parts: seq<seq<Span>>, n: nat)
    requires n <= |beats| == |parts|
  {
    forall i, j | 0 <= i < j < n && parts[i] != [] && parts[j] != [] :: Offset(beats, i + 1) <= Offset(beats, j)
  }

  /** Every joined cue is some beat's cue. */
  lemma {:induction false} CueIsOfABeat(beats: seq<Spoken>, parts: seq<seq<Span>>, n: nat, p: nat)
    requires n <= |beats| == |parts| && p < |Joined(beats, parts, n)|
    ensures exists i, k ::
              0 <= i < n && 0 <= k < |parts[i]|
              && Joined(beats, parts, n)[p] == Shifted(parts[i], i, Offset(beats, i))[k]
    decreases n
  {
    var before := Joined(beats, parts, n - 1);
    if p < |before| {
      CueIsOfABeat(beats, parts, n - 1, p);
    } else {
      assert Joined(beats, parts, n)[p] == Shifted(parts[n - 1], n - 1, Offset(beats, n - 1))[p - |before|];
    }
  }

  lemma {:induction false} ForwardMeansOrdered(beats: seq<Spoken>, parts: seq<seq<Span>>, n: nat)
    requires n <= |beats| == |parts| && forall i | 0 <= i < n :: Within(parts[i], beats[i].duration)
    requires NoBacktrack(beats, parts, n)
    ensures Ordered(Joined(beats, parts, n))
    decreases n
  {
    if n > 0 {
      ForwardMeansOrdered(beats, parts, n - 1);
      var before, here := Joined(beats, parts, n - 1), Shifted(parts[n - 1], n - 1, Offset(beats, n - 1));
      forall p, q | 0 <= p < |before| && 0 <= q < |here|
        ensures before[p].to <= here[q].from
      {
        EarlierCueEnds(beats, parts, n - 1, p);
      }
    }
  }

  lemma EarlierCueEnds(beats: seq<Spoken>, parts: seq<seq<Span>>, n: nat, p: nat)
    requires n < |beats| == |parts| && parts[n] != [] && forall i | 0 <= i < n :: Within(parts[i], beats[i].duration)
    requires NoBacktrack(beats, parts, n + 1) && p < |Joined(beats, parts, n)|
    ensures Joined(beats, parts, n)[p].to <= Offset(beats, n)
  {
    CueIsOfABeat(beats, parts, n, p);
    var i, k :| 0 <= i < n && 0 <= k < |parts[i]|
        && Joined(beats, parts, n)[p] == Shifted(parts[i], i, Offset(beats, i))[k];
    assert Offset(beats, i + 1) == Offset(beats, i) + beats[i].duration;
  }

  /** Where a beat's cues sit among the joined ones. */
  lemma {:induction false} CuesOfABeat(beats: seq<Spoken>, parts: seq<seq<Span>>, n: nat, i: nat) returns (at: nat)
    requires i < n <= |beats| == |parts|
    ensures at == |Joined(beats, parts, i)| && at + |parts[i]| <= |Joined(beats, parts, n)|
    ensures Joined(beats, parts, n)[at..at + |parts[i]|] == Shifted(parts[i], i, Offset(beats, i))
    decreases n
  {
    at := |Joined(beats, parts, i)|;
    if i < n - 1 {
      var _ := CuesOfABeat(beats, parts, n - 1, i);
    }
  }

  /** Sentence `k` of beat `i` is shown with its beat's and its own number, its times moved by the durations
      of the beats before. */
  lemma CueOfASentence(beats: seq<Spoken>, parts: seq<seq<Span>>, i: nat, k: nat) returns (p: nat)
    requires i < |beats| == |parts| && k < |parts[i]|
    ensures p == |Joined(beats, parts, i)| + k < |Joined(beats, parts, |beats|)|
    ensures Joined(beats, parts, |beats|)[p]
            == Cue(i, parts[i][k].item, Offset(beats, i) + parts[i][k].from, Offset(beats, i) + parts[i][k].to)
  {
    var at := CuesOfABeat(beats, parts, |beats|, i);
    p := at + k;
    assert Joined(beats, parts, |beats|)[at..at + |parts[i]|][k] == Joined(beats, parts, |beats|)[p];
  }

  lemma {:induction false} JoinedGrows(beats: seq<Spoken>, parts: seq<seq<Span>>, i: nat, j: nat)
    requires i <= j <= |beats| == |parts|
    ensures |Joined(beats, parts, i)| <= |Joined(beats, parts, j)|
    decreases j
  {
    if i < j { JoinedGrows(beats, parts, i, j - 1); }
  }

  lemma OrderedMeansForward(beats: seq<Spoken>, parts: seq<seq<Span>>, i: nat, j: nat)
    requires i < j < |beats| == |parts| && parts[i] != [] && parts[j] != []
    requires Spans(parts[i], beats[i].duration) && Spans(parts[j], beats[j].duration)
    requires Ordered(Joined(beats, parts, |beats|))
    ensures Offset(beats, i + 1) <= Offset(beats, j)
  {
    var cues := Joined(beats, parts, |beats|);
    var a := CuesOfABeat(beats, parts, |beats|, i);
    var b := CuesOfABeat(beats, parts, |beats|, j);
    JoinedGrows(beats, parts, i + 1, j);
    var last := a + |parts[i]| - 1;
    assert cues[last] == cues[a..a + |parts[i]|][|parts[i]| - 1];
    assert cues[b] == cues[b..b + |parts[j]|][0];
  }

  /** A beat whose sentences the fallback can show. */
  predicate Captioned(b: Spoken) {
    b.words != [] && b.duration > 0.0
  }

  /** The durations between two captioned beats never add up to less than nothing. */
  ghost predicate RunsForward(beats: seq<Spoken>) {
    forall i, j | 0 <= i < j < |beats| && Captioned(beats[i]) && Captioned(beats[j]) ::
           Offset(beats, i + 1) <= Offset(beats, j)
  }

  /** Fallback captions over a whole reel are in order and never overlap, exactly when the timeline does
      not run backwards between two captioned beats. */
  lemma FallbackCuesAreOrderedIff(beats: seq<Spoken>, parts: seq<seq<Span>>)
    requires PartsOf(beats, parts) && forall b | b in beats :: b.heard == []
    ensures Ordered(Joined(beats, parts, |beats|)) <==> RunsForward(beats)
  {
    forall i | 0 <= i < |beats|
      ensures Spans(parts[i], beats[i].duration) && (parts[i] != [] <==> Captioned(beats[i]))
    {
      assert beats[i] in beats;
      FallbackSpans(parts[i], beats[i]);
    }
    assert RunsForward(beats) <==> NoBacktrack(beats, parts, |beats|);
    if NoBacktrack(beats, parts, |beats|) {
      ForwardMeansOrdered(beats, parts, |beats|);
    }
    if Ordered(Joined(beats, parts, |beats|)) {
      forall i, j | 0 <= i < j < |beats| && parts[i] != [] && parts[j] != []
        ensures Offset(beats, i + 1) <= Offset(beats, j)
      {
        OrderedMeansForward(beats, parts, i, j);
      }
    }
  }

  lemma {:induction false} OffsetsRise(beats: seq<Spoken>, i: nat, j: nat)
    requires i <= j <= |beats| && forall b | b in beats :: b.duration >= 0.0
    ensures Offset(beats, i) <= Offset(beats, j)
    decreases j
  {
    if i < j {
      OffsetsRise(beats, i, j - 1);
      assert beats[j - 1] in beats;
    }
  }

  lemma PartsStayWithin(beats: seq<Spoken>, parts: seq<seq<Span>>)
    requires PartsOf(beats, parts) && forall b | b in beats :: Within(b.heard, b.duration)
    ensures forall i | 0 <= i < |beats| :: Within(parts[i], beats[i].duration)
  {
    forall i | 0 <= i < |beats|
      ensures Within(parts[i], beats[i].duration)
    {
      assert beats[i] in beats;
      if beats[i].heard == [] { FallbackSpans(parts[i], beats[i]); }
    }
  }

  lemma NonNegativeIsForward(beats: seq<Spoken>, parts: seq<seq<Span>>)
    requires |parts| == |beats| && forall b | b in beats :: b.duration >= 0.0
    ensures NoBacktrack(beats, parts, |beats|)
  {
    forall i, j | 0 <= i < j < |beats| && parts[i] != [] && parts[j] != []
      ensures Offset(beats, i + 1) <= Offset(beats, j)
    {
      OffsetsRise(beats, i + 1, j);
    }
  }

  /** In particular when no beat has a negative duration, also over beats where Whisper heard segments, as
      long as those are in order and inside their beat. */
  lemma CuesAreOrdered(beats: seq<Spoken>, parts: seq<seq<Span>>)
    requires PartsOf(beats, parts) && forall b | b in beats :: b.duration >= 0.0 && Within(b.heard, b.duration)
    ensures Ordered(Joined(beats, parts, |beats|))
  {
    PartsStayWithin(beats, parts);
    NonNegativeIsForward(beats, parts);
    ForwardMeansOrdered(beats, parts, |beats|);
  }

  /** One silent beat between two captioned ones: the captions overlap exactly when its duration is
      negative, which the guide schema rejects before a render. */
  lemma SilentBeatKeepsOrderIff(first: Spoken, silent: Spoken, last: Spoken, parts: seq<seq<Span>>)
    requires PartsOf([first, silent, last], parts) && first.heard == silent.heard == last.heard == []
    requires silent.words == [] && Captioned(first) && Captioned(last)
    ensures Ordered(Joined([first, silent, last], parts, 3)) <==> silent.duration >= 0.0
  {
    var beats := [first, silent, last];
    FallbackCuesAreOrderedIff(beats, parts);
    assert Offset(beats, 1) == first.duration && Offset(beats, 2) == first.duration + silent.duration;
    if silent.duration < 0.0 {
      assert Captioned(beats[0]) && Captioned(beats[2]) && Offset(beats, 0 + 1) > Offset(beats, 2);
    }
  }

  // ---------- Cues and clips ----------

  /** A beat's clip is never shorter than this. */
  const MIN_CLIP := 0.5

  /** Where beat `i`'s clip begins in the concatenated video. */
  function ClipStart(beats: seq<Spoken>, i: nat): real
    requires i <= |beats|
  {
    if i == 0 then 0.0 else ClipStart(beats, i - 1) + Max(beats[i - 1].duration, MIN_CLIP)
  }

  lemma {:induction false} ClipsNeverLead(beats: seq<Spoken>, i: nat, j: nat)
    requires i <= j <= |beats|
    ensures ClipStart(beats, j) - ClipStart(beats, i) >= Offset(beats, j) - Offset(beats, i)
    ensures (ClipStart(beats, j) - ClipStart(beats, i) == Offset(beats, j) - Offset(beats, i))
            <==> forall k | i <= k < j :: beats[k].duration >= MIN_CLIP
    decreases j
  {
    if i < j {
      ClipsNeverLead(beats, i, j - 1);
    }
  }

  ghost predicate EveryClipLasts(beats: seq<Spoken>) {
    forall k | 0 <= k < |beats| :: beats[k].duration >= 0.5
  }

  /** Captions and voice-over start with their clip on every beat, and the video ends with the timeline,
      exactly when every beat lasts at least 0.5 s; otherwise they run ahead of the picture from the first
      shorter beat on. */
  lemma CuesLineUpWithClipsIff(beats: seq<Spoken>)
    ensures (forall i | 0 <= i <= |beats| :: ClipStart(beats, i) == Offset(beats, i)) <==> EveryClipLasts(beats)
    ensures forall i, k | 0 <= k < i <= |beats| && beats[k].duration < 0.5 ::
            Offset(beats, i) < ClipStart(beats, i)
  {
    forall i | 0 <= i <= |beats|
      ensures ClipStart(beats, i) >= Offset(beats, i)
      ensures ClipStart(beats, i) == Offset(beats, i) <==> forall k | 0 <= k < i :: beats[k].duration >= MIN_CLIP
    {
      ClipsNeverLead(beats, 0, i);
    }
    assert ClipStart(beats, |beats|) == Offset(beats, |beats|) <==> EveryClipLasts(beats);
  }
}
