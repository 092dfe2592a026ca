/** Timing on-screen lines by recognised words: `_whisper_timestamps` of `engine/render/compositor.py`.

    Times are exact reals. */
module WordStream {
  import opened CaptionSpans

  datatype Word = Word(start: real, end: real)

  datatype Timed = Timed(line: nat, from: real, to: real)

  function Min(a: real, b: real): real { if a < b then a else b }

  // ---------- Cutting m words into n ranges ----------

  lemma MulMono(x: nat, y: nat, n: nat)
    requires x <= y
    ensures x * n <= y * n
  {
    assert y * n == x * n + (y - x) * n;
  }

  lemma MulCancel(x: nat, y: nat, n: nat)
    requires x * n < (y + 1) * n
    ensures x <= y
  {
    if x > y {
      MulMono(y + 1, x, n);
      assert false;
    }
  }

  /** Floor division brackets its argument. */
  lemma DivBracket(a: nat, n: nat)
    requires n > 0
    ensures 0 <= a / n && (a / n) * n <= a < (a / n) * n + n
  {
    assert a == (a / n) * n + a % n;
  }

  /** Adding at least a divisor moves the quotient on. */
  lemma DivMovesOn(a: nat, d: nat, n: nat)
    requires d >= n > 0
    ensures a / n < (a + d) / n
  {
    var p, q := a / n, (a + d) / n;
    DivBracket(a, n);
    DivBracket(a + d, n);
    assert (p + 1) * n == p * n + n && (q + 1) * n == q * n + n;
    MulCancel(p + 1, q, n);
  }

  lemma DivExact(m: nat, n: nat)
    requires n > 0
    ensures n * m / n == m
  {
    DivBracket(n * m, n);
    var q := n * m / n;
    assert (q + 1) * n == q * n + n && (m + 1) * n == m * n + n;
    MulCancel(q, m, n);
    MulCancel(m, q, n);
  }

  /** Where each line's words begin, `i * m // n`, and the end. */
  function CutPoints(m: nat, n: nat): (cuts: seq<nat>)
    requires n > 0
    ensures |cuts| == n + 1
  {
    seq(n + 1, i requires 0 <= i <= n => CutPoint(i, m, n))
  }

  function CutPoint(i: nat, m: nat, n: nat): nat
    requires n > 0
  {
    i * m / n
  }

  /** The ranges between the cut points are in bounds, non-empty, adjoining, and cover all the words. */
  ghost predicate Partition(cuts: seq<nat>, m: nat) {
    && |cuts| > 1 && cuts[0] == 0 && cuts[|cuts| - 1] == m
    && forall i, j | 0 <= i < j < |cuts| :: cuts[i] < cuts[j]
  }

  lemma {:induction false} CutsRise(m: nat, n: nat, i: nat, j: nat)
    requires m >= n >= 1 && i < j <= n
    ensures i * m / n < j * m / n
    decreases j
  {
    assert j * m == (j - 1) * m + m;
    DivMovesOn((j - 1) * m, m, n);
    if i < j - 1 {
      CutsRise(m, n, i, j - 1);
    }
  }

  lemma WordsArePartitioned(m: nat, n: nat)
    requires m >= n >= 1
    ensures Partition(CutPoints(m, n), m)
  {
    DivExact(m, n);
    var cuts := CutPoints(m, n);
    forall i, j | 0 <= i < j < |cuts|
      ensures cuts[i] < cuts[j]
    {
      CutsRise(m, n, i, j);
    }
  }

  lemma CutBrackets(m: nat, n: nat, i: nat)
    requires n >= 1 && i <= n
    ensures CutPoints(m, n)[i] * n <= i * m < (CutPoints(m, n)[i] + 1) * n
  {
    DivBracket(i * m, n);
  }

  /** Two cut points in a row bracket a quotient between them. */
  lemma GapBracket(a: nat, b: nat, x: nat, m: nat, n: nat)
    requires n >= 1 && a * n <= x < (a + 1) * n && b * n <= x + m < (b + 1) * n
    ensures a + m / n <= b <= a + m / n + 1
  {
    var q := m / n;
    DivBracket(m, n);
    assert (a + q) * n == a * n + q * n && (b + 1) * n == b * n + n && (a + 1) * n == a * n + n;
    MulCancel(a + q, b, n);
    assert (a + q + 1 + 1) * n == (a + 1) * n + q * n + n;
    MulCancel(b, a + q + 1, n);
  }

  /** The lines share the words as evenly as whole words allow: each gets `m / n` or one more, and line `i`
      begins with word `i * m / n`, rounded down. */
  lemma LinesShareTheWordsEvenly(m: nat, n: nat, i: nat)
    requires n >= 1 && i < n
    ensures CutPoints(m, n)[i] * n <= i * m < (CutPoints(m, n)[i] + 1) * n
    ensures m / n <= CutPoints(m, n)[i + 1] - CutPoints(m, n)[i] <= m / n + 1
  {
    CutBrackets(m, n, i);
    CutBrackets(m, n, i + 1);
    assert (i + 1) * m == i * m + m;
    GapBracket(CutPoints(m, n)[i], CutPoints(m, n)[i + 1], i * m, m, n);
  }

  /** Every word belongs to exactly one line. */
  lemma EveryWordHasOneLine(cuts: seq<nat>, m: nat, w: nat) returns (line: nat)
    requires Partition(cuts, m) && w < m
    ensures line + 1 < |cuts| && cuts[line] <= w < cuts[line + 1]
    ensures forall i | 0 <= i < |cuts| - 1 && cuts[i] <= w < cuts[i + 1] :: i == line
  {
    line := 0;
    while cuts[line + 1] <= w
      invariant line + 1 < |cuts| && cuts[line] <= w
      decreases |cuts| - line
    {
      line := line + 1;
    }
  }

  // ---------- Timing the lines ----------

  /** Each line runs from its first word to its last, inside the beat, but is shown for at least 0.4 s. */
  ghost predicate TimedBy(timed: seq<Timed>, cuts: seq<nat>, words: seq<Word>, beatStart: real, beatDur: real) {
    && |timed| < |cuts| && Partition(cuts, |words|)
    && forall i | 0 <= i < |timed| ::
         && timed[i].line == i
         && timed[i].from == Max(beatStart, beatStart + words[cuts[i]].start)
         && timed[i].to == Max(timed[i].from + 0.4, Min(beatStart + beatDur, beatStart + words[cuts[i + 1] - 1].end))
  }

  /** The code needs at least as many words as lines; its caller checks that. */
  method WhisperTimestamps(n: nat, words: seq<Word>, beatStart: real, beatDur: real) returns (timed: seq<Timed>)
    requires |words| >= n
    ensures |timed| == n
    ensures n > 0 ==> TimedBy(timed, CutPoints(|words|, n), words, beatStart, beatDur)
  {
    var m := |words|;
    timed := [];
    if n == 0 { return; }
    WordsArePartitioned(m, n);
    ghost var cuts := CutPoints(m, n);
    for i := 0 to n
      invariant |timed| == i && TimedBy(timed, cuts, words, beatStart, beatDur)
    {
      var start, stop := i * m / n, (i + 1) * m / n;
      assert start == cuts[i] && stop == cuts[i + 1];
      var first := words[start];
      var last := words[(if stop < m then stop else m) - 1];
      var absStart := Max(beatStart, beatStart + first.start);
      var absEnd := Min(beatStart + beatDur, beatStart + last.end);
      absEnd := Max(absStart + 0.4, absEnd);
      timed := timed + [Timed(i, absStart, absEnd)];
    }
  }

  /** Words one after another, as a recogniser reports them. */
  ghost predicate InOrder(words: seq<Word>) {
    && (forall j, k | 0 <= j <= k < |words| :: words[j].start <= words[k].start)
    && (forall j, k | 0 <= j < k < |words| :: words[j].end <= words[k].start)
  }

  /** Line starts never go backwards when word starts do not. */
  lemma LinesStartInOrder(timed: seq<Timed>, cuts: seq<nat>, words: seq<Word>, beatStart: real, beatDur: real, i: nat,
                          j: nat)
    requires TimedBy(timed, cuts, words, beatStart, beatDur) && i <= j < |timed|
    requires forall a, b | 0 <= a <= b < |words| :: words[a].start <= words[b].start
    ensures beatStart <= timed[i].from <= timed[j].from
  {
    assert cuts[i] <= cuts[j] < cuts[|cuts| - 1];
  }

  /** A line overlaps the next one exactly when the 0.4 s floor pushes it there. */
  lemma OnlyTheFloorOverlaps(timed: seq<Timed>, cuts: seq<nat>, words: seq<Word>, beatStart: real, beatDur: real,
                             i: nat)
    requires TimedBy(timed, cuts, words, beatStart, beatDur) && i + 1 < |timed| && InOrder(words)
    ensures timed[i].to > timed[i + 1].from <==> timed[i + 1].from < timed[i].from + 0.4
  {
    assert cuts[i + 1] - 1 < cuts[i + 1] < cuts[|cuts| - 1];
  }
}
