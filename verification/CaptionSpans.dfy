/** Proportional timing of one beat: `_proportional_spans` of `engine/render/compositor.py`.

    Times are exact reals. */
module CaptionSpans {
  import opened Wrappers

  /** The shortest window the proportional fallbacks place. */
  const MIN_SPAN := 0.3

  datatype Span = Span(item: nat, from: real, to: real)

  function Max(a: real, b: real): real { if a < b then b else a }

  /** An item's own share of the beat. */
  function Share(w: int, total: real, duration: real): real
    requires total != 0.0
  {
    duration * w as real / total
  }

  /** Every item's share, with the floor applied. */
  function Floors(weights: seq<int>, total: real, duration: real): (floors: seq<real>)
    requires total != 0.0
    ensures |floors| == |weights| && forall i | 0 <= i < |floors| :: floors[i] >= MIN_SPAN
  {
    seq(|weights|, i requires 0 <= i < |weights| => Max(MIN_SPAN, Share(weights[i], total, duration)))
  }

  /** The placed items are a prefix, non-empty unless the beat has no time or no items; they tile the
      beat: the first starts with it, each ends where the next begins, the last ends exactly with it. All
      but the last get their floored share, and an item is left out only when no time is left for it. */
  ghost predicate Tiles(spans: seq<Span>, floors: seq<real>, duration: real, start: real) {
    && |spans| <= |floors|
    && (|spans| == 0 <==> duration <= 0.0 || floors == [])
    && (forall k | 0 <= k < |spans| :: spans[k].item == k && spans[k].from < spans[k].to)
    && (forall k | 0 <= k < |spans| - 1 :: spans[k].to == spans[k + 1].from && spans[k].to == spans[k].from + floors[k])
    && (spans != [] ==> spans[0].from == start && spans[|spans| - 1].to == start + duration)
    && (0 < |spans| < |floors| ==> start + duration <= spans[|spans| - 1].from + floors[|spans| - 1])
  }

  function Length(s: Span): real { s.to - s.from }

  /** A length is the item's part of the beat, or 0.3 s if that is more; folded. */
  ghost predicate IsPart(length: real, w: int, total: real, duration: real) {
    forall o {:trigger Open(o)} :: Open(o) ==>
      && length >= 0.3 && (length == 0.3 || length * total == duration * w as real)
      && (total > 0.0 ==> length * total >= duration * w as real)
      && (total < 0.0 ==> length * total <= duration * w as real)
  }

  /** The item's part, or the 0.3 s it gets instead, is at least this much; folded. */
  ghost predicate NeedsAll(length: real, w: int, total: real, duration: real) {
    forall o {:trigger Open(o)} :: Open(o) ==>
      || length <= 0.3 || (total > 0.0 && length * total <= duration * w as real)
      || (total < 0.0 && length * total >= duration * w as real)
  }

  /** An item's part of the beat is at least 0.3 s; folded. */
  ghost predicate PartReachesFloor(w: int, total: real, duration: real) {
    forall o {:trigger Open(o)} :: Open(o) ==> duration * w as real >= 0.3 * total
  }

  /** A length is to the beat's duration as a weight is to the total; folded. */
  ghost predicate InProportion(length: real, weight: real, total: real, duration: real) {
    forall o {:trigger Open(o)} :: Open(o) ==> length * total == duration * weight
  }

  /** Every placed item but the last has its part of the beat; and items are left out only when the last
      placed one would need the rest of the beat itself. */
  ghost predicate EachGetsItsPart(spans: seq<Span>, weights: seq<int>, total: real, duration: real)
    requires |spans| <= |weights|
  {
    && (forall k | 0 <= k < |spans| - 1 :: IsPart(Length(spans[k]), weights[k], total, duration))
    && (0 < |spans| < |weights| ==> NeedsAll(Length(spans[|spans| - 1]), weights[|spans| - 1], total, duration))
  }

  /** No item's part is shorter than 0.3 s, and the items weigh no more than the total. */
  ghost predicate NoneIsFloored(weights: seq<int>, total: real, duration: real) {
    && total > 0.0 && duration > 0.0 && weights != [] && Sum(weights) as real <= total
    && forall k | 0 <= k < |weights| :: weights[k] > 0 && PartReachesFloor(weights[k], total, duration)
  }

  /** Two lengths are to each other as these weights are; folded. */
  ghost predicate SameRatio(x: real, y: real, w: int, v: int) {
    forall o {:trigger Open(o)} :: Open(o) ==> x * v as real == y * w as real
  }

  /** Every item is placed; the lengths are in proportion to the weights, and the last item gets on top what
      the weights lack of the total. */
  ghost predicate ExactParts(spans: seq<Span>, weights: seq<int>, total: real, duration: real) {
    && |spans| == |weights| > 0
    && (forall k | 0 <= k < |weights| - 1 :: InProportion(Length(spans[k]), weights[k] as real, total, duration))
    && InProportion(Length(spans[|weights| - 1]), LastWeight(weights, total), total, duration)
  }

  /** The last item's weight and what the weights lack of the total. */
  function LastWeight(weights: seq<int>, total: real): real
    requires weights != []
  {
    weights[|weights| - 1] as real + (total - Sum(weights) as real)
  }

  function Sum(weights: seq<int>): int {
    if weights == [] then 0 else Sum(weights[..|weights| - 1]) + weights[|weights| - 1]
  }

  /** The state of the placing loop before item `i`, with the cursor at `t`; folded. */
  ghost predicate Placing(spans: seq<Span>, floors: seq<real>, duration: real, start: real, i: nat, t: real)
    requires i <= |floors|
  {
    forall k {:trigger Open(k)} :: Open(k) ==> PlacedSoFar(spans, floors, duration, start, i, t)
  }

  ghost predicate PlacedSoFar(spans: seq<Span>, floors: seq<real>, duration: real, start: real, i: nat, t: real)
    requires i <= |floors|
  {
    && |spans| <= i
    && (i == 0 ==> t == start)
    && (|spans| == 0 <==> duration <= 0.0 || i == 0)
    && (forall k | 0 <= k < |spans| ::
          spans[k].item == k && spans[k].from < start + duration && spans[k].to == spans[k].from + floors[k])
    && (forall k | 0 <= k < |spans| - 1 :: spans[k].to == spans[k + 1].from)
    && (spans != [] ==> spans[0].from == start)
    && (|spans| == i > 0 ==> spans[i - 1].to == t)
    && (|spans| < i ==> t >= start + duration && (spans != [] ==> spans[|spans| - 1].to >= start + duration))
  }

  /** `_proportional_spans`. */
  method ProportionalSpans(weights: seq<int>, total: real, duration: real, start: real) returns (spans: seq<Span>)
    requires total != 0.0
    ensures Tiles(spans, Floors(weights, total, duration), duration, start)
    ensures |spans| <= |weights| && EachGetsItsPart(spans, weights, total, duration)
    ensures NoneIsFloored(weights, total, duration) ==> ExactParts(spans, weights, total, duration)
  {
    var t: real;
    spans, t := Place(weights, total, duration, start);
    StretchedTiles(spans, Floors(weights, total, duration), duration, start, t);
    spans := StretchedTo(spans, start + duration);
    TilesArePartsOfTheBeat(spans, weights, total, duration, start);
    if NoneIsFloored(weights, total, duration) { UnflooredPartsAreExact(spans, weights, total, duration, start); }
  }

  /** Its loop: one span after another, each at least as long as the floor, while the cursor is inside the
      beat. */
  method Place(weights: seq<int>, total: real, duration: real, start: real) returns (spans: seq<Span>, t: real)
    requires total != 0.0
    ensures Placing(spans, Floors(weights, total, duration), duration, start, |weights|, t)
  {
    spans, t := [], start;
    ghost var floors := Floors(weights, total, duration);
    PlacingStarts(floors, duration, start);
    for i := 0 to |weights|
      invariant Placing(spans, floors, duration, start, i, t)
    {
      var seg := Max(MIN_SPAN, Share(weights[i], total, duration));
      FloorAt(weights, total, duration, i);
      PlacingStep(spans, floors, duration, start, i, t);
      if t < start + duration {
        spans := spans + [Span(i, t, t + seg)];
      }
      t := t + seg;
    }
  }

  /** The last placed span is made to end where the beat does. */
  function StretchedTo(spans: seq<Span>, end: real): seq<Span> {
    if spans == [] then spans else spans[|spans| - 1 := spans[|spans| - 1].(to := end)]
  }

  lemma FloorAt(weights: seq<int>, total: real, duration: real, i: nat)
    requires total != 0.0 && i < |weights|
    ensures Floors(weights, total, duration)[i] == Max(MIN_SPAN, Share(weights[i], total, duration))
  {
  }

  lemma PlacingStarts(floors: seq<real>, duration: real, start: real)
    ensures Placing([], floors, duration, start, 0, start)
  {
  }

  lemma PlacingStep(spans: seq<Span>, floors: seq<real>, duration: real, start: real, i: nat, t: real)
    requires i < |floors| && floors[i] >= MIN_SPAN && Placing(spans, floors, duration, start, i, t)
    ensures
      var after := if t < start + duration then spans + [Span(i, t, t + floors[i])] else spans;
      Placing(after, floors, duration, start, i + 1, t + floors[i])
  {
    assert Open(0);
  }

  lemma StretchedTiles(spans: seq<Span>, floors: seq<real>, duration: real, start: real, t: real)
    requires Placing(spans, floors, duration, start, |floors|, t) && forall i | 0 <= i < |floors| ::
             floors[i] >= MIN_SPAN
    ensures Tiles(StretchedTo(spans, start + duration), floors, duration, start)
  {
    assert Open(0);
  }

  // ---------- What the tiling implies ----------

  /** Where the cursor stands before item `i`. */
  function Cursor(floors: seq<real>, start: real, i: nat): real
    requires i <= |floors|
  {
    if i == 0 then start else Cursor(floors, start, i - 1) + floors[i - 1]
  }

  lemma {:induction false} CursorsRise(floors: seq<real>, start: real, i: nat, j: nat)
    requires i <= j <= |floors| && forall k | 0 <= k < |floors| :: floors[k] >= MIN_SPAN
    ensures Cursor(floors, start, j) >= Cursor(floors, start, i) + MIN_SPAN * (j - i) as real
    decreases j
  {
    if i < j {
      CursorsRise(floors, start, i, j - 1);
    }
  }

  lemma {:induction false} StartsAreCursors(spans: seq<Span>, floors: seq<real>, duration: real, start: real, i: nat)
    requires Tiles(spans, floors, duration, start) && i < |spans|
    ensures spans[i].from == Cursor(floors, start, i)
    decreases i
  {
    if i > 0 {
      StartsAreCursors(spans, floors, duration, start, i - 1);
      assert spans[i - 1].to == spans[i].from;
    }
  }

  /** Spans never overlap. */
  lemma {:induction false} SpansAreOrdered(spans: seq<Span>, floors: seq<real>, duration: real, start: real, i: nat,
                                           j: nat)
    requires Tiles(spans, floors, duration, start) && i < j < |spans|
    ensures spans[i].to <= spans[j].from
    decreases j
  {
    if i < j - 1 {
      SpansAreOrdered(spans, floors, duration, start, i, j - 1);
    }
  }

  /** Spans stay inside the beat. */
  lemma SpansStayInside(spans: seq<Span>, floors: seq<real>, duration: real, start: real, i: nat)
    requires Tiles(spans, floors, duration, start) && i < |spans|
    ensures start <= spans[i].from < spans[i].to <= start + duration
  {
    if i > 0 { SpansAreOrdered(spans, floors, duration, start, 0, i); }
    if i < |spans| - 1 { SpansAreOrdered(spans, floors, duration, start, i, |spans| - 1); }
  }

  /** Every item is placed exactly when the floored shares before the last item leave it some time. */
  lemma AllPlacedIff(spans: seq<Span>, floors: seq<real>, duration: real, start: real)
    requires Tiles(spans, floors, duration, start) && floors != []
    requires forall k | 0 <= k < |floors| :: floors[k] >= MIN_SPAN
    ensures |spans| == |floors| <==> Cursor(floors, start, |floors| - 1) < start + duration
  {
    var n := |spans|;
    if 0 < n {
      StartsAreCursors(spans, floors, duration, start, n - 1);
    }
    if n < |floors| {
      CursorsRise(floors, start, n, |floors| - 1);
    }
  }

  /** The tiling says everything: no two different placements satisfy it. */
  lemma TilingIsUnique(a: seq<Span>, b: seq<Span>, floors: seq<real>, duration: real, start: real)
    requires Tiles(a, floors, duration, start) && Tiles(b, floors, duration, start)
    ensures a == b
  {
    NoneIsShorter(a, b, floors, duration, start);
    NoneIsShorter(b, a, floors, duration, start);
    forall k | 0 <= k < |a|
      ensures a[k] == b[k]
    {
      StartsAreCursors(a, floors, duration, start, k);
      StartsAreCursors(b, floors, duration, start, k);
    }
  }

  lemma NoneIsShorter(a: seq<Span>, b: seq<Span>, floors: seq<real>, duration: real, start: real)
    requires Tiles(a, floors, duration, start) && Tiles(b, floors, duration, start)
    ensures |a| >= |b|
  {
    var n := |a|;
    if 0 < n < |b| {
      StartsAreCursors(a, floors, duration, start, n - 1);
      StartsAreCursors(b, floors, duration, start, n);
      if n < |b| - 1 {
        SpansAreOrdered(b, floors, duration, start, n, |b| - 1);
      }
    }
  }

  /** The floor lets only so many items into a beat. */
  lemma FloorBoundsPlacement(spans: seq<Span>, floors: seq<real>, duration: real, start: real)
    requires Tiles(spans, floors, duration, start) && spans != []
    requires forall k | 0 <= k < |floors| :: floors[k] >= MIN_SPAN
    ensures MIN_SPAN * (|spans| - 1) as real < duration
  {
    StartsAreCursors(spans, floors, duration, start, |spans| - 1);
    CursorsRise(floors, start, 0, |spans| - 1);
  }

  /** The last span is cut at the beat's end, so it alone can be shorter than the floor: it reaches the
      floor exactly when no item's turn comes in the beat's last 0.3 seconds. */
  lemma LastSpanReachesTheFloorIff(spans: seq<Span>, floors: seq<real>, duration: real, start: real)
    requires Tiles(spans, floors, duration, start) && spans != []
    requires forall k | 0 <= k < |floors| :: floors[k] >= MIN_SPAN
    ensures spans[|spans| - 1].to - spans[|spans| - 1].from >= MIN_SPAN
            <==> forall k | 0 <= k < |floors| ::
                   !(Cursor(floors, start, k) < start + duration < Cursor(floors, start, k) + MIN_SPAN)
    ensures forall k | 0 <= k < |spans| - 1 :: spans[k].to - spans[k].from >= MIN_SPAN
  {
    var last := |spans| - 1;
    StartsAreCursors(spans, floors, duration, start, last);
    forall k | 0 <= k < |floors| && k != last
      ensures !(Cursor(floors, start, k) < start + duration < Cursor(floors, start, k) + MIN_SPAN)
    {
      if k < last {
        CursorsRise(floors, start, k, last);
      } else {
        CursorsRise(floors, start, last + 1, k);
      }
    }
  }

  // ---------- Shares ----------

  lemma ShareTimesTotal(w: int, total: real, duration: real)
    requires total != 0.0
    ensures Share(w, total, duration) * total == duration * w as real
  {
  }

  lemma TimesRises(a: real, b: real, total: real)
    ensures total > 0.0 ==> (a <= b <==> a * total <= b * total)
    ensures total < 0.0 ==> (a <= b <==> a * total >= b * total)
  {
  }

  lemma FlooredShareIsPart(w: int, total: real, duration: real)
    requires total != 0.0
    ensures IsPart(Max(MIN_SPAN, Share(w, total, duration)), w, total, duration)
  {
    assert Open(0);
    ShareTimesTotal(w, total, duration);
    TimesRises(Share(w, total, duration), Max(MIN_SPAN, Share(w, total, duration)), total);
  }

  lemma FlooredShareIsNeeded(length: real, w: int, total: real, duration: real)
    requires total != 0.0 && length <= Max(MIN_SPAN, Share(w, total, duration))
    ensures NeedsAll(length, w, total, duration)
  {
    ShareTimesTotal(w, total, duration);
    TimesRises(length, Share(w, total, duration), total);
  }

  lemma TilesArePartsOfTheBeat(spans: seq<Span>, weights: seq<int>, total: real, duration: real, start: real)
    requires total != 0.0 && Tiles(spans, Floors(weights, total, duration), duration, start)
    ensures |spans| <= |weights| && EachGetsItsPart(spans, weights, total, duration)
  {
    forall k | 0 <= k < |spans| - 1
      ensures IsPart(Length(spans[k]), weights[k], total, duration)
    {
      FloorAt(weights, total, duration, k);
      FlooredShareIsPart(weights[k], total, duration);
    }
    if 0 < |spans| < |weights| {
      var last := |spans| - 1;
      FloorAt(weights, total, duration, last);
      FlooredShareIsNeeded(Length(spans[last]), weights[last], total, duration);
    }
  }

  lemma ReachesTheFloor(w: int, total: real, duration: real)
    requires total > 0.0 && PartReachesFloor(w, total, duration)
    ensures Share(w, total, duration) >= MIN_SPAN
  {
    assert Open(0);
    ShareTimesTotal(w, total, duration);
    TimesRises(MIN_SPAN, Share(w, total, duration), total);
  }

  lemma ShareIsInProportion(length: real, w: int, total: real, duration: real)
    requires total > 0.0 && length == Share(w, total, duration)
    ensures InProportion(length, w as real, total, duration)
  {
    ShareTimesTotal(w, total, duration);
  }

  lemma RestIsInProportion(length: real, before: int, rest: real, total: real, duration: real)
    requires total > 0.0 && length == duration - Share(before, total, duration) && rest == total - before as real
    ensures InProportion(length, rest, total, duration)
  {
    ShareTimesTotal(before, total, duration);
    assert length * total == duration * total - duration * before as real;
  }

  lemma UnflooredPartsAreExact(spans: seq<Span>, weights: seq<int>, total: real, duration: real, start: real)
    requires NoneIsFloored(weights, total, duration)
    requires Tiles(spans, Floors(weights, total, duration), duration, start)
    ensures ExactParts(spans, weights, total, duration)
  {
    forall k | 0 <= k < |weights|
      ensures Share(weights[k], total, duration) >= MIN_SPAN
    {
      ReachesTheFloor(weights[k], total, duration);
    }
    SharesReachingTheFloorAreAllPlaced(spans, weights, total, duration, start);
    forall k | 0 <= k < |weights| - 1
      ensures InProportion(Length(spans[k]), weights[k] as real, total, duration)
    {
      ShareIsInProportion(Length(spans[k]), weights[k], total, duration);
    }
    RestIsTheLasts(spans, weights, total, duration, start);
  }

  lemma RestIsTheLasts(spans: seq<Span>, weights: seq<int>, total: real, duration: real, start: real)
    requires total > 0.0 && weights != [] && |spans| == |weights|
    requires forall k | 0 <= k < |weights| :: Share(weights[k], total, duration) >= MIN_SPAN
    requires Tiles(spans, Floors(weights, total, duration), duration, start)
    ensures InProportion(Length(spans[|weights| - 1]), LastWeight(weights, total), total, duration)
  {
    LastLength(spans, weights, total, duration, start);
    WhatIsLeft(weights, total);
    RestIsInProportion(Length(spans[|weights| - 1]), Sum(weights[..|weights| - 1]), LastWeight(weights, total), total,
                       duration);
  }

  lemma WhatIsLeft(weights: seq<int>, total: real)
    requires weights != []
    ensures LastWeight(weights, total) == total - Sum(weights[..|weights| - 1]) as real
  {
  }

  lemma LastLength(spans: seq<Span>, weights: seq<int>, total: real, duration: real, start: real)
    requires total > 0.0 && weights != [] && |spans| == |weights|
    requires forall k | 0 <= k < |weights| :: Share(weights[k], total, duration) >= MIN_SPAN
    requires Tiles(spans, Floors(weights, total, duration), duration, start)
    ensures Length(spans[|weights| - 1]) == duration - Share(Sum(weights[..|weights| - 1]), total, duration)
  {
    StartsAreCursors(spans, Floors(weights, total, duration), duration, start, |weights| - 1);
    UnflooredCursor(weights, total, duration, start, |weights| - 1);
  }

  lemma SameTimes(a: real, b: real, total: real)
    requires a * total == b * total && total != 0.0
    ensures a == b
  {
  }

  lemma CrossMultiplied(x: real, y: real, w: real, v: real, total: real, duration: real)
    requires total != 0.0 && InProportion(x, w, total, duration) && InProportion(y, v, total, duration)
    ensures x * v == y * w
  {
    assert Open(0);
    assert (x * v) * total == (x * total) * v == (duration * w) * v;
    assert (y * w) * total == (y * total) * w == (duration * v) * w;
    assert (duration * w) * v == (duration * v) * w;
    SameTimes(x * v, y * w, total);
  }

  /** When the weights make up the total, any two lengths are to each other as the weights are, the last
      included. */
  lemma LengthsAreInProportion(spans: seq<Span>, weights: seq<int>, total: real, duration: real, i: nat, j: nat)
    requires total > 0.0 && ExactParts(spans, weights, total, duration) && i < |spans| && j < |spans|
    requires Sum(weights) as real == total
    ensures SameRatio(Length(spans[i]), Length(spans[j]), weights[i], weights[j])
  {
    assert LastWeight(weights, total) == weights[|weights| - 1] as real;
    CrossMultiplied(Length(spans[i]), Length(spans[j]), weights[i] as real, weights[j] as real, total, duration);
  }

  lemma ShareAdds(a: int, b: int, total: real, duration: real)
    requires total > 0.0
    ensures Share(a + b, total, duration) == Share(a, total, duration) + Share(b, total, duration)
  {
    assert duration * (a + b) as real == duration * a as real + duration * b as real;
  }

  lemma ShareGrows(a: int, b: int, total: real, duration: real)
    requires total > 0.0 && duration > 0.0 && a < b && b as real <= total
    ensures Share(a, total, duration) < Share(b, total, duration) <= duration
  {
    assert duration * a as real < duration * b as real <= duration * total;
  }

  lemma {:induction false} UnflooredCursor(weights: seq<int>, total: real, duration: real, start: real, i: nat)
    requires total > 0.0 && i <= |weights|
    requires forall k | 0 <= k < |weights| :: Share(weights[k], total, duration) >= MIN_SPAN
    ensures Cursor(Floors(weights, total, duration), start, i) == start + Share(Sum(weights[..i]), total, duration)
    decreases i
  {
    if i == 0 {
      assert Share(0, total, duration) == 0.0;
    } else {
      UnflooredCursor(weights, total, duration, start, i - 1);
      assert weights[..i][..i - 1] == weights[..i - 1];
      ShareAdds(Sum(weights[..i - 1]), weights[i - 1], total, duration);
    }
  }

  /** When every share reaches the floor and the weights sum to at most the total, every item is placed
      and gets exactly its share, the last one whatever is left. */
  lemma SharesReachingTheFloorAreAllPlaced(spans: seq<Span>, weights: seq<int>, total: real, duration: real,
                                           start: real)
    requires total > 0.0 && duration > 0.0 && weights != [] && Sum(weights) as real <= total
    requires forall k | 0 <= k < |weights| :: weights[k] > 0 && Share(weights[k], total, duration) >= MIN_SPAN
    requires Tiles(spans, Floors(weights, total, duration), duration, start)
    ensures |spans| == |weights|
    ensures forall k | 0 <= k < |weights| - 1 :: spans[k].to == spans[k].from + Share(weights[k], total, duration)
    ensures spans[|weights| - 1].to >= spans[|weights| - 1].from + Share(weights[|weights| - 1], total, duration)
  {
    EveryItemFits(spans, weights, total, duration, start);
    SharesAreFloors(weights, total, duration);
  }

  lemma EveryItemFits(spans: seq<Span>, weights: seq<int>, total: real, duration: real, start: real)
    requires total > 0.0 && duration > 0.0 && weights != [] && Sum(weights) as real <= total
    requires weights[|weights| - 1] > 0
    requires forall k | 0 <= k < |weights| :: Share(weights[k], total, duration) >= MIN_SPAN
    requires Tiles(spans, Floors(weights, total, duration), duration, start)
    ensures |spans| == |weights|
    ensures spans[|weights| - 1].to >= spans[|weights| - 1].from + Floors(weights, total, duration)[|weights| - 1]
  {
    SharesAreFloors(weights, total, duration);
    UnflooredCursor(weights, total, duration, start, |weights| - 1);
    LastShareFits(weights, total, duration);
    RoomForTheLast(spans, Floors(weights, total, duration), duration, start);
  }

  lemma SharesAreFloors(weights: seq<int>, total: real, duration: real)
    requires total > 0.0 && forall k | 0 <= k < |weights| :: Share(weights[k], total, duration) >= MIN_SPAN
    ensures forall k | 0 <= k < |weights| :: Floors(weights, total, duration)[k] == Share(weights[k], total, duration)
  {
  }

  lemma LastShareFits(weights: seq<int>, total: real, duration: real)
    requires total > 0.0 && duration > 0.0 && weights != [] && Sum(weights) as real <= total
    requires weights[|weights| - 1] > 0
    ensures Share(Sum(weights[..|weights| - 1]), total, duration) + Share(weights[|weights| - 1], total, duration)
            <= duration
  {
    ShareAdds(Sum(weights[..|weights| - 1]), weights[|weights| - 1], total, duration);
    ShareGrows(Sum(weights[..|weights| - 1]), Sum(weights), total, duration);
  }

  /** With room left for the whole last share, everything is placed and the last span is stretched. */
  lemma RoomForTheLast(spans: seq<Span>, floors: seq<real>, duration: real, start: real)
    requires Tiles(spans, floors, duration, start) && floors != []
    requires forall k | 0 <= k < |floors| :: floors[k] >= MIN_SPAN
    requires Cursor(floors, start, |floors| - 1) + floors[|floors| - 1] <= start + duration
    ensures |spans| == |floors|
    ensures spans[|floors| - 1].to >= spans[|floors| - 1].from + floors[|floors| - 1]
  {
    AllPlacedIff(spans, floors, duration, start);
    StartsAreCursors(spans, floors, duration, start, |floors| - 1);
  }
}
