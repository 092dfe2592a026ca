/** `compute_pins_fingerprint` and its never-null form: the canonical text `b:o:a|b:o:a|...` of a
    cut's pin rows, sorted, then hashed.

    sha256 is taken to be injective, so a digest keeps the text it was taken from. Everything else is
    proved: the text does not depend on the order the query returned the rows in, and two cuts with
    the same text have the same pins. */
module PinFingerprint {

  /** One `cut_assets` row of a cut: beat index, order within the beat, asset id. */
  datatype Pin = Pin(beat: int, order: int, asset: int)

  /** A value of the `rendered_pins_fingerprint` column: a digest, or the literal stored for a render
      that bound nothing (which is not a digest's 64 hex characters). */
  datatype PinsFp = NoPinsBound | PinsDigest(text: string)

  // ---------- Decimal text ----------

  function Digit(d: nat): (c: char)
    requires d < 10
    ensures '0' <= c <= '9'
  {
    '0' + d as char
  }

  function Digits(n: nat): (s: string)
    ensures |s| > 0 && forall i | 0 <= i < |s| :: '0' <= s[i] <= '9'
  {
    if n < 10 then [Digit(n)] else Digits(n / 10) + [Digit(n % 10)]
  }

  function Decimal(n: int): (s: string)
    ensures ':' !in s && '|' !in s
  {
    if n < 0 then "-" + Digits(-n) else Digits(n)
  }

  function ReadDigits(s: string): int {
    if s == [] then 0 else 10 * ReadDigits(s[..|s| - 1]) + (s[|s| - 1] as int - '0' as int)
  }

  function ReadDecimal(s: string): int {
    if s != [] && s[0] == '-' then -ReadDigits(s[1..]) else ReadDigits(s)
  }

  lemma {:induction false} DigitsReadBack(n: nat)
    ensures ReadDigits(Digits(n)) == n
  {
    if n < 10 {
      assert Digits(n)[..0] == [];
    } else {
      DigitsReadBack(n / 10);
      var s := Digits(n);
      assert s[..|s| - 1] == Digits(n / 10);
    }
  }

  lemma DecimalReadsBack(n: int)
    ensures ReadDecimal(Decimal(n)) == n
  {
    if n < 0 {
      DigitsReadBack(-n);
      assert Decimal(n)[1..] == Digits(-n);
    } else {
      DigitsReadBack(n);
      assert '0' <= Digits(n)[0];
    }
  }

  // ---------- One pin ----------

  function PlaceText(p: Pin): (s: string)
    ensures '|' !in s
  {
    Decimal(p.order) + ":" + Decimal(p.asset)
  }

  function PinText(p: Pin): (s: string)
    ensures '|' !in s
  {
    Decimal(p.beat) + ":" + PlaceText(p)
  }

  /** Cutting two texts at their first separator cuts them in the same place. */
  lemma SplitAtSeparator(sep: char, a: string, x: string, b: string, y: string)
    requires sep !in a && sep !in b
    requires a + [sep] + x == b + [sep] + y
    ensures a == b && x == y
  {
    var s := a + [sep] + x;
    assert forall i | 0 <= i < |a| :: s[i] == a[i] && a[i] != sep;
    assert forall i | 0 <= i < |b| :: s[i] == b[i] && b[i] != sep;
    assert s[|a|] == sep && s[|b|] == sep;
    assert s[..|a|] == a && s[..|b|] == b;
    assert s[|a| + 1..] == x && s[|b| + 1..] == y;
  }

  lemma DecimalInjective(m: int, n: int)
    requires Decimal(m) == Decimal(n)
    ensures m == n
  {
    DecimalReadsBack(m);
    DecimalReadsBack(n);
  }

  /** A number and a text joined by a colon are what both were. */
  lemma NumberedInjective(m: int, x: string, n: int, y: string)
    requires Decimal(m) + ":" + x == Decimal(n) + ":" + y
    ensures m == n && x == y
  {
    SplitAtSeparator(':', Decimal(m), x, Decimal(n), y);
    DecimalInjective(m, n);
  }

  lemma PinTextInjective(p: Pin, q: Pin)
    requires PinText(p) == PinText(q)
    ensures p == q
  {
    NumberedInjective(p.beat, PlaceText(p), q.beat, PlaceText(q));
    NumberedInjective(p.order, Decimal(p.asset), q.order, Decimal(q.asset));
    DecimalInjective(p.asset, q.asset);
  }

  // ---------- The joined text ----------

  function Joined(rows: seq<Pin>): string
    requires rows != []
  {
    if |rows| == 1 then PinText(rows[0]) else PinText(rows[0]) + "|" + Joined(rows[1..])
  }

  lemma JoinedHasSeparator(rows: seq<Pin>)
    requires |rows| > 1
    ensures '|' in Joined(rows)
  {
    assert Joined(rows)[|PinText(rows[0])|] == '|';
  }

  lemma {:induction false} JoinedInjective(r: seq<Pin>, s: seq<Pin>)
    requires r != [] && s != []
    requires Joined(r) == Joined(s)
    ensures r == s
    decreases |r|
  {
    if |r| == 1 && |s| == 1 {
      SameRow(r, s);
    } else if |r| == 1 {
      JoinedHasSeparator(s);
      assert false;
    } else if |s| == 1 {
      JoinedHasSeparator(r);
      assert false;
    } else {
      SameHead(r, s);
      JoinedInjective(r[1..], s[1..]);
      assert r == [r[0]] + r[1..] && s == [s[0]] + s[1..];
    }
  }

  lemma SameRow(r: seq<Pin>, s: seq<Pin>)
    requires |r| == |s| == 1 && Joined(r) == Joined(s)
    ensures r == s
  {
    PinTextInjective(r[0], s[0]);
  }

  lemma SameHead(r: seq<Pin>, s: seq<Pin>)
    requires |r| > 1 && |s| > 1 && Joined(r) == Joined(s)
    ensures r[0] == s[0] && Joined(r[1..]) == Joined(s[1..])
  {
    SplitAtSeparator('|', PinText(r[0]), Joined(r[1..]), PinText(s[0]), Joined(s[1..]));
    PinTextInjective(r[0], s[0]);
  }

  // ---------- Sorting ----------

  /** Python's tuple order on (beat_index, order_in_beat, asset_id). */
  predicate Before(p: Pin, q: Pin) {
    p.beat < q.beat
    || (p.beat == q.beat && (p.order < q.order || (p.order == q.order && p.asset <= q.asset)))
  }

  predicate Sorted(rows: seq<Pin>) {
    forall i, j | 0 <= i < j < |rows| :: Before(rows[i], rows[j])
  }

  lemma PrependSorted(p: Pin, rows: seq<Pin>)
    requires Sorted(rows) && forall q | q in multiset(rows) :: Before(p, q)
    ensures Sorted([p] + rows)
  {
    forall i, j | 0 <= i < j < |rows| + 1
      ensures Before(([p] + rows)[i], ([p] + rows)[j])
    {
      assert rows[j - 1] in multiset(rows);
    }
  }

  lemma HeadIsFirst(p: Pin, rows: seq<Pin>)
    requires rows != [] && Sorted(rows) && Before(p, rows[0])
    ensures forall q | q in multiset(rows) :: Before(p, q)
  {
    forall q | q in multiset(rows)
      ensures Before(p, q)
    {
      var i :| 0 <= i < |rows| && rows[i] == q;
    }
  }

  function Insert(p: Pin, rows: seq<Pin>): (r: seq<Pin>)
    requires Sorted(rows)
    ensures multiset(r) == multiset{p} + multiset(rows)
    ensures Sorted(r)
  {
    if rows == [] then [p]
    else if Before(p, rows[0]) then
      HeadIsFirst(p, rows);
      PrependSorted(p, rows);
      [p] + rows
    else
      assert rows == [rows[0]] + rows[1..];
      HeadIsFirst(rows[0], rows);
      var rest := Insert(p, rows[1..]);
      PrependSorted(rows[0], rest);
      [rows[0]] + rest
  }

  function Sort(rows: seq<Pin>): (r: seq<Pin>)
    ensures multiset(r) == multiset(rows)
    ensures Sorted(r)
  {
    if rows == [] then []
    else
      assert rows == [rows[0]] + rows[1..];
      Insert(rows[0], Sort(rows[1..]))
  }

  /** No row of a sorted list is before its first. */
  lemma FirstIsLeast(p: Pin, rows: seq<Pin>)
    requires Sorted(rows) && p in multiset(rows)
    ensures Before(rows[0], p)
  {
    var i :| 0 <= i < |rows| && rows[i] == p;
  }

  lemma RestOf(rows: seq<Pin>)
    requires rows != []
    ensures multiset(rows[1..]) == multiset(rows) - multiset{rows[0]}
  {
    assert rows == [rows[0]] + rows[1..];
  }

  lemma {:induction false} SortedIsUnique(r: seq<Pin>, s: seq<Pin>)
    requires multiset(r) == multiset(s) && Sorted(r) && Sorted(s)
    ensures r == s
    decreases |r|
  {
    assert |r| == |multiset(r)| == |s|;
    if r != [] {
      FirstIsLeast(r[0], s);
      FirstIsLeast(s[0], r);
      RestOf(r);
      RestOf(s);
      SortedIsUnique(r[1..], s[1..]);
      assert r == [r[0]] + r[1..] && s == [s[0]] + s[1..];
    }
  }

  // ---------- The fingerprint ----------

  /** `compute_pins_fingerprint_for_render` on the rows a query returned, in whatever order. */
  function FingerprintOfRows(rows: seq<Pin>): PinsFp {
    if rows == [] then NoPinsBound else PinsDigest(Joined(Sort(rows)))
  }

  /** Main result: the fingerprints of two row lists agree exactly when they hold the same pins. */
  lemma FingerprintIsCanonical(r: seq<Pin>, s: seq<Pin>)
    ensures FingerprintOfRows(r) == FingerprintOfRows(s) <==> multiset(r) == multiset(s)
  {
    if multiset(r) == multiset(s) {
      SortedIsUnique(Sort(r), Sort(s));
      assert |r| == |multiset(r)| && |s| == |multiset(s)|;
    }
    if FingerprintOfRows(r) == FingerprintOfRows(s) && r != [] && s != [] {
      assert |Sort(r)| == |multiset(Sort(r))| == |r| && |Sort(s)| == |multiset(Sort(s))| == |s|;
      JoinedInjective(Sort(r), Sort(s));
    }
  }

  // ---------- The stored text ----------

  const HEX := "0123456789abcdef"

  /** sha256 as a hex digest: injective, 64 lower-case hexadecimal characters. */
  ghost predicate IsSha256(hash: string -> string) {
    && (forall t :: |hash(t)| == 64 && forall k | 0 <= k < 64 :: hash(t)[k] in HEX)
    && (forall t, u :: hash(t) == hash(u) ==> t == u)
  }

  /** What the column holds: the digest, or the literal. */
  function Stored(hash: string -> string, fp: PinsFp): string {
    if fp.NoPinsBound? then "no-pins-bound" else hash(fp.text)
  }

  /** The text in the column tells two pin sets apart exactly as the fingerprint does; in particular no
      digest reads as the literal of a render that bound nothing, and that literal is stored for no other. */
  lemma StoredFingerprintIsCanonical(hash: string -> string, r: seq<Pin>, s: seq<Pin>)
    requires IsSha256(hash)
    ensures Stored(hash, FingerprintOfRows(r)) == Stored(hash, FingerprintOfRows(s)) <==> multiset(r) == multiset(s)
    ensures Stored(hash, FingerprintOfRows(r)) == "no-pins-bound" <==> r == []
  {
    FingerprintIsCanonical(r, s);
    if r != [] { assert |Stored(hash, FingerprintOfRows(r))| == 64; }
    if s != [] { assert |Stored(hash, FingerprintOfRows(s))| == 64; }
  }

  /** Some order the rows of a pin set can come back in. */
  ghost function Rows(pins: set<Pin>): (rows: seq<Pin>)
    ensures multiset(rows) == multiset(pins)
  {
    if pins == {} then []
    else
      var p :| p in pins;
      assert multiset(pins) == multiset{p} + multiset(pins - {p});
      [p] + Rows(pins - {p})
  }

  /** The fingerprint of a cut whose pins are this set (pins are distinct rows). */
  ghost function PinsFingerprint(pins: set<Pin>): PinsFp {
    FingerprintOfRows(Rows(pins))
  }

  lemma SetsOfMultisets(pins: set<Pin>, others: set<Pin>)
    ensures multiset(pins) == multiset(others) ==> pins == others
  {
    if multiset(pins) == multiset(others) {
      forall p: Pin
        ensures p in pins <==> p in others
      {
        assert p in pins <==> p in multiset(pins);
        assert p in others <==> p in multiset(others);
      }
    }
  }

  /** Whatever order a query lists a pin set in, its fingerprint is the set's; and the fingerprint
      determines the set. */
  lemma PinsFingerprintIsCanonical(pins: set<Pin>, others: set<Pin>, rows: seq<Pin>)
    requires multiset(rows) == multiset(pins)
    ensures FingerprintOfRows(rows) == PinsFingerprint(pins)
    ensures PinsFingerprint(pins) == PinsFingerprint(others) <==> pins == others
  {
    FingerprintIsCanonical(rows, Rows(pins));
    FingerprintIsCanonical(Rows(pins), Rows(others));
    SetsOfMultisets(pins, others);
  }

  lemma EqualFingerprintsEqualPins(pins: set<Pin>, others: set<Pin>)
    requires PinsFingerprint(pins) == PinsFingerprint(others)
    ensures pins == others
  {
    PinsFingerprintIsCanonical(pins, others, Rows(pins));
  }
}
