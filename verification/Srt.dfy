/** How cues are printed: `engine/render/srt.py`. */
module Srt {
  import opened Wrappers
  import opened Timeline

  /** The four fields of `HH:MM:SS,mmm`. */
  datatype Stamp = Stamp(hours: int, minutes: int, seconds: int, millis: int)

  /** The moment a stamp names, in milliseconds. */
  function MillisOf(s: Stamp): int {
    ((s.hours * 60 + s.minutes) * 60 + s.seconds) * 1000 + s.millis
  }

  /** Python's `round` on a float: to the nearest integer, ties to the even one. */
  function Round(x: real): (r: int)
    ensures -0.5 <= r as real - x <= 0.5
    ensures x - x.Floor as real == 0.5 ==> r % 2 == 0
  {
    var low := x.Floor;
    var rest := x - low as real;
    if rest < 0.5 || (rest == 0.5 && low % 2 == 0) then low else low + 1
  }

  function FormatTimestamp(seconds: real): (s: Stamp)
    ensures 0 <= s.hours && 0 <= s.minutes < 60 && 0 <= s.seconds < 60 && 0 <= s.millis < 1000
    ensures MillisOf(s) == Round((if seconds < 0.0 then 0.0 else seconds) * 1000.0)
  {
    var total := Round((if seconds < 0.0 then 0.0 else seconds) * 1000.0);
    var (hours, rest) := (total / 3_600_000, total % 3_600_000);
    var (minutes, rest') := (rest / 60_000, rest % 60_000);
    var (secs, millis) := (rest' / 1_000, rest' % 1_000);
    Stamp(hours, minutes, secs, millis)
  }

  lemma RoundIsMonotone(x: real, y: real)
    requires x <= y
    ensures Round(x) <= Round(y)
  {
    assert x.Floor <= y.Floor;
  }

  /** Printing never puts a later moment before an earlier one, and is off by at most half a millisecond. */
  lemma PrintingKeepsOrder(a: real, b: real)
    requires a <= b
    ensures MillisOf(FormatTimestamp(a)) <= MillisOf(FormatTimestamp(b))
    ensures 0.0 <= a ==> -0.0005 <= MillisOf(FormatTimestamp(a)) as real / 1000.0 - a <= 0.0005
  {
    RoundIsMonotone((if a < 0.0 then 0.0 else a) * 1000.0, (if b < 0.0 then 0.0 else b) * 1000.0);
  }

  /** No two stamps with fields in range name the same moment. */
  lemma StampsAreUnique(s: Stamp, t: Stamp)
    requires 0 <= s.minutes < 60 && 0 <= s.seconds < 60 && 0 <= s.millis < 1000
    requires 0 <= t.minutes < 60 && 0 <= t.seconds < 60 && 0 <= t.millis < 1000
    requires MillisOf(s) == MillisOf(t)
    ensures s == t
  {
    SameDigits((s.hours * 60 + s.minutes) * 60 + s.seconds, s.millis, (t.hours * 60 + t.minutes) * 60 + t.seconds,
               t.millis, 1000);
    SameDigits(s.hours * 60 + s.minutes, s.seconds, t.hours * 60 + t.minutes, t.seconds, 60);
    SameDigits(s.hours, s.minutes, t.hours, t.minutes, 60);
  }

  lemma SameDigits(a: int, r: int, b: int, s: int, base: nat)
    requires 0 <= r < base && 0 <= s < base && base in {60, 1000} && a * base + r == b * base + s
    ensures a == b && r == s
  {
  }

  /** A cue as written: its number, and when it appears and disappears. */
  datatype Block = Block(number: int, cue: Cue, from: Stamp, to: Stamp)

  /** `write_srt`; None when there is nothing to caption and no file is written. */
  method WriteSrt(cues: seq<Cue>) returns (file: Option<seq<Block>>)
    ensures file.None? <==> cues == []
    ensures file.Some? ==>
              && |file.value| == |cues|
              && forall k | 0 <= k < |cues| ::
                   file.value[k] == Block(k + 1, cues[k], FormatTimestamp(cues[k].from), FormatTimestamp(cues[k].to))
  {
    if cues == [] { return None; }
    var blocks := [];
    var i := 1;
    while i <= |cues|
      invariant 1 <= i <= |cues| + 1 && |blocks| == i - 1
      invariant forall k | 0 <= k < |blocks| ::
                  blocks[k] == Block(k + 1, cues[k], FormatTimestamp(cues[k].from), FormatTimestamp(cues[k].to))
    {
      var cue := cues[i - 1];
      blocks := blocks + [Block(i, cue, FormatTimestamp(cue.from), FormatTimestamp(cue.to))];
      i := i + 1;
    }
    return Some(blocks);
  }

  /** Cues in order stay in order as printed. */
  lemma PrintedCuesStayOrdered(cues: seq<Cue>)
    requires Ordered(cues)
    ensures forall i, j | 0 <= i < j < |cues| ::
              MillisOf(FormatTimestamp(cues[i].to)) <= MillisOf(FormatTimestamp(cues[j].from))
  {
    forall i, j | 0 <= i < j < |cues|
      ensures MillisOf(FormatTimestamp(cues[i].to)) <= MillisOf(FormatTimestamp(cues[j].from))
    {
      PrintingKeepsOrder(cues[i].to, cues[j].from);
    }
  }
}
