/** Operator edits of a stored guide: `engine/generation/guide_edit.py` and the beat loop of
    `update_cut` (`api/routers/cuts.py`).

    `derive` stands for `script_parser.derive_on_screen(vo, max_items=5)`; any function will do. A form
    duration may be NaN (`float("nan")` parses), so durations carry IEEE equality explicitly. */
module GuideEdit {
  import opened Wrappers

  // ---------- Guides ----------

  datatype Duration = NaN | Infinite(negative: bool) | Seconds(value: real)

  /** Python's `==` on floats. */
  predicate FloatEq(a: Duration, b: Duration) {
    a == b && !a.NaN?
  }

  /** One beat dict; `rest` is every key no edit touches. */
  datatype Beat = Beat(index: int, duration: Duration, direction: string, script: string, screen: seq<string>,
                       rest: string)

  datatype Guide = Guide(beats: seq<Beat>, rest: string)

  /** The fields the PATCH form carries for one beat. `duration` is None when the field is blank or
      does not parse as a float; the others are None when the key is absent. */
  datatype BeatForm = BeatForm(duration: Option<Duration>, direction: Option<string>, script: Option<string>,
                               screen: Option<string>)

  function FormAt(form: seq<BeatForm>, i: nat): BeatForm {
    if i < |form| then form[i] else BeatForm(None, None, None, None)
  }

  // ---------- Python text ----------

  /** The characters at which `str.splitlines` breaks. */
  predicate IsBreak(c: char) {
    var u := c as int;
    0x0A <= u <= 0x0D || 0x1C <= u <= 0x1E || u == 0x85 || u == 0x2028 || u == 0x2029
  }

  /** The characters `str.strip` removes. */
  predicate IsSpace(c: char) {
    var u := c as int;
    IsBreak(c) || u == 0x09 || u == 0x1F || u == 0x20 || u == 0xA0 || u == 0x1680
    || 0x2000 <= u <= 0x200A || u == 0x202F || u == 0x205F || u == 0x3000
  }

  function StripLeft(s: string): string {
    if s != [] && IsSpace(s[0]) then StripLeft(s[1..]) else s
  }

  function StripRight(s: string): string {
    if s != [] && IsSpace(s[|s| - 1]) then StripRight(s[..|s| - 1]) else s
  }

  function Strip(s: string): string {
    StripRight(StripLeft(s))
  }

  /** CRLF and CR become LF. */
  function LfOnly(s: string): string {
    if s == [] then []
    else if s[0] == '\r' then "\n" + LfOnly(if |s| > 1 && s[1] == '\n' then s[2..] else s[1..])
    else [s[0]] + LfOnly(s[1..])
  }

  function SplitLines(s: string, line: string := ""): seq<string>
    decreases |s|
  {
    if s == [] then if line == [] then [] else [line]
    else if IsBreak(s[0]) then
      [line] + SplitLines(if s[0] == '\r' && |s| > 1 && s[1] == '\n' then s[2..] else s[1..])
    else SplitLines(s[1..], line + [s[0]])
  }

  // ---------- Normalization ----------

  function NormalizeText(value: string): string {
    Strip(LfOnly(value))
  }

  function NonBlank(lines: seq<string>): seq<string> {
    if lines == [] then []
    else (if Strip(lines[0]) == [] then [] else [Strip(lines[0])]) + NonBlank(lines[1..])
  }

  function AllLines(raws: seq<string>): seq<string> {
    if raws == [] then [] else NonBlank(SplitLines(LfOnly(raws[0]))) + AllLines(raws[1..])
  }

  function Capped(lines: seq<string>): seq<string> {
    if |lines| <= 5 then lines else lines[..5]
  }

  function NormalizeLines(raws: seq<string>): seq<string> {
    Capped(AllLines(raws))
  }

  // ---------- Edits ----------

  datatype Field = DurationField(d: Duration) | DirectionField(text: string) | ScriptField(text: string)
    | ScreenField(lines: seq<string>)

  /** `set_beat_field`: the beat afterwards, and whether it reports a change. */
  function EditBeat(b: Beat, f: Field, derive: string -> seq<string>): (Beat, bool) {
    match f
    case DurationField(d) =>
      if FloatEq(d, b.duration) then (b, false) else (b.(duration := d), true)
    case DirectionField(text) =>
      if Strip(text) == Strip(b.direction) then (b, false) else (b.(direction := Strip(text)), true)
    case ScriptField(text) =>
      var vo := NormalizeText(text);
      if vo == NormalizeText(b.script) then (b, false) else (b.(script := vo, screen := derive(vo)), true)
    case ScreenField(lines) =>
      var ls := NormalizeLines(lines);
      if ls == NormalizeLines(b.screen) then (b, false) else (b.(screen := ls), true)
  }

  function EditIf(b: Beat, f: Option<Field>, derive: string -> seq<string>): (Beat, bool) {
    if f.Some? then EditBeat(b, f.value, derive) else (b, false)
  }

  // The calls `update_cut` makes for one beat, in order.

  function DurationOf(f: BeatForm): Option<Field> {
    if f.duration.Some? then Some(DurationField(f.duration.value)) else None
  }

  function DirectionOf(f: BeatForm): Option<Field> {
    if f.direction.Some? && Strip(f.direction.value) != [] then Some(DirectionField(f.direction.value)) else None
  }

  function ScriptOf(f: BeatForm): Option<Field> {
    if f.script.Some? then Some(ScriptField(f.script.value)) else None
  }

  function ScreenOf(f: BeatForm): Option<Field> {
    if f.screen.Some? then Some(ScreenField(SplitLines(f.screen.value))) else None
  }

  function PatchBeat(b: Beat, f: BeatForm, derive: string -> seq<string>): (Beat, bool) {
    var (b1, c1) := EditIf(b, DurationOf(f), derive);
    var (b2, c2) := EditIf(b1, DirectionOf(f), derive);
    var (b3, c3) := EditIf(b2, ScriptOf(f), derive);
    var (b4, c4) := EditIf(b3, ScreenOf(f), derive);
    (b4, c1 || c2 || c3 || c4)
  }

  function PatchBeats(beats: seq<Beat>, form: seq<BeatForm>, derive: string -> seq<string>): seq<Beat> {
    seq(|beats|, i requires 0 <= i < |beats| => PatchBeat(beats[i], FormAt(form, i), derive).0)
  }

  ghost predicate AnyChanged(beats: seq<Beat>, form: seq<BeatForm>, derive: string -> seq<string>) {
    exists i :: 0 <= i < |beats| && PatchBeat(beats[i], FormAt(form, i), derive).1
  }

  /** The guide column after a PATCH: reassigned only when some beat changed. */
  ghost function PatchGuide(g: Guide, form: seq<BeatForm>, derive: string -> seq<string>): Guide {
    if AnyChanged(g.beats, form, derive) then g.(beats := PatchBeats(g.beats, form, derive)) else g
  }

  /** `replace_beat_vo`, as the hook-variant swap calls it. */
  function ReplaceBeatVo(g: Guide, i: nat, vo: string, derive: string -> seq<string>): Guide
    requires i < |g.beats|
  {
    g.(beats := g.beats[i := g.beats[i].(script := vo, screen := derive(vo))])
  }

  // ---------- The mutating code ----------

  method NormalizeLinesLoop(lines: seq<string>) returns (result: seq<string>)
    ensures result == NormalizeLines(lines)
  {
    result := [];
    assert lines[0..] == lines;
    for i := 0 to |lines|
      invariant AllLines(lines) == result + AllLines(lines[i..])
    {
      NextRaw(result, lines, i);
      result := AddLines(result, lines[i]);
    }
    assert AllLines(lines[|lines|..]) == [];
    result := if |result| <= 5 then result else result[..5];
  }

  lemma NextRaw(before: seq<string>, lines: seq<string>, i: nat)
    requires i < |lines|
    ensures before + AllLines(lines[i..])
            == (before + NonBlank(SplitLines(LfOnly(lines[i])))) + AllLines(lines[i + 1..])
  {
    assert lines[i..][1..] == lines[i + 1..] && lines[i..][0] == lines[i];
  }

  /** The inner loop: one raw line's pieces. */
  method AddLines(before: seq<string>, raw: string) returns (result: seq<string>)
    ensures result == before + NonBlank(SplitLines(LfOnly(raw)))
  {
    var pieces := SplitLines(LfOnly(raw));
    result := before;
    assert pieces[0..] == pieces;
    for j := 0 to |pieces|
      invariant before + NonBlank(pieces) == result + NonBlank(pieces[j..])
    {
      var line := Strip(pieces[j]);
      assert pieces[j..][1..] == pieces[j + 1..] && pieces[j..][0] == pieces[j];
      if line != [] {
        result := result + [line];
      }
    }
    assert pieces[|pieces|..] == [];
  }

  /** `set_beat_field`, writing into the beat list. */
  method SetBeatField(beats: array<Beat>, index: nat, f: Field, derive: string -> seq<string>) returns (changed: bool)
    requires index < beats.Length
    modifies beats
    ensures changed == EditBeat(old(beats[index]), f, derive).1
    ensures beats[..] == old(beats[..])[index := EditBeat(old(beats[index]), f, derive).0]
    ensures !changed ==> beats[..] == old(beats[..])
  {
    var beat := beats[index];
    match f
    case DurationField(d) =>
      if FloatEq(d, beat.duration) { return false; }
      beats[index] := beat.(duration := d);
      return true;
    case DirectionField(text) =>
      var direction := Strip(text);
      if direction == Strip(beat.direction) { return false; }
      beats[index] := beat.(direction := direction);
      return true;
    case ScriptField(text) =>
      var vo := NormalizeText(text);
      if vo == NormalizeText(beat.script) { return false; }
      beats[index] := beat.(script := vo, screen := derive(vo));
      return true;
    case ScreenField(lines) =>
      var submitted := NormalizeLinesLoop(lines);
      var stored := NormalizeLinesLoop(beat.screen);
      if submitted == stored { return false; }
      beats[index] := beat.(screen := submitted);
      return true;
  }

  /** The form's edits of one beat, in the order `update_cut` makes them. */
  method PatchBeatInPlace(beats: array<Beat>, i: nat, f: BeatForm, derive: string -> seq<string>)
    returns (changed: bool)
    requires i < beats.Length
    modifies beats
    ensures changed == PatchBeat(old(beats[i]), f, derive).1
    ensures beats[..] == old(beats[..])[i := PatchBeat(old(beats[i]), f, derive).0]
  {
    changed := false;
    var here := false;
    if f.duration.Some? {
      here := SetBeatField(beats, i, DurationField(f.duration.value), derive);
      changed := changed || here;
    }
    if f.direction.Some? && Strip(f.direction.value) != [] {
      here := SetBeatField(beats, i, DirectionField(f.direction.value), derive);
      changed := changed || here;
    }
    if f.script.Some? {
      here := SetBeatField(beats, i, ScriptField(f.script.value), derive);
      changed := changed || here;
    }
    if f.screen.Some? {
      here := SetBeatField(beats, i, ScreenField(SplitLines(f.screen.value)), derive);
      changed := changed || here;
    }
  }

  /** The guide part of `update_cut`: copy the beats, edit the copy, reassign only on a change. */
  method UpdateGuide(guide: Guide, form: seq<BeatForm>, derive: string -> seq<string>) returns (result: Guide,
    changed: bool)
    ensures result == PatchGuide(guide, form, derive)
    ensures changed <==> AnyChanged(guide.beats, form, derive)
  {
    var n := |guide.beats|;
    if n == 0 { return guide, false; }
    var beats := new Beat[n](i requires 0 <= i < n => guide.beats[i]);
    changed := false;
    for i := 0 to n
      invariant beats.Length == n
      invariant forall k | 0 <= k < i :: beats[k] == PatchBeat(guide.beats[k], FormAt(form, k), derive).0
      invariant forall k | i <= k < n :: beats[k] == guide.beats[k]
      invariant changed <==> exists k :: 0 <= k < i && PatchBeat(guide.beats[k], FormAt(form, k), derive).1
    {
      var here := PatchBeatInPlace(beats, i, FormAt(form, i), derive);
      changed := changed || here;
    }
    if changed {
      assert beats[..] == PatchBeats(guide.beats, form, derive);
      result := guide.(beats := beats[..]);
    } else {
      result := guide;
    }
  }

  // ---------- Normalization is idempotent ----------

  predicate Trimmed(s: string) {
    s != [] ==> !IsSpace(s[0]) && !IsSpace(s[|s| - 1])
  }

  lemma {:induction false} StripLeftKeeps(s: string)
    ensures StripLeft(s) != [] ==> !IsSpace(StripLeft(s)[0])
    ensures forall c | c in StripLeft(s) :: c in s
  {
    if s != [] && IsSpace(s[0]) {
      StripLeftKeeps(s[1..]);
    }
  }

  lemma {:induction false} StripRightKeeps(s: string)
    ensures StripRight(s) != [] ==> !IsSpace(StripRight(s)[|StripRight(s)| - 1]) && StripRight(s)[0] == s[0]
    ensures forall c | c in StripRight(s) :: c in s
  {
    if s != [] && IsSpace(s[|s| - 1]) {
      StripRightKeeps(s[..|s| - 1]);
    }
  }

  lemma StripTrims(s: string)
    ensures Trimmed(Strip(s)) && Strip(Strip(s)) == Strip(s)
    ensures forall c | c in Strip(s) :: c in s
  {
    StripLeftKeeps(s);
    StripRightKeeps(StripLeft(s));
  }

  /** Stripping cuts white space off both ends, as much as there is. */
  lemma StripCuts(s: string) returns (before: string, after: string)
    ensures s == before + Strip(s) + after && Trimmed(Strip(s))
    ensures forall c | c in before || c in after :: IsSpace(c)
  {
    StripTrims(s);
    before := StripLeftCuts(s);
    after := StripRightCuts(StripLeft(s));
  }

  lemma {:induction false} StripLeftCuts(s: string) returns (before: string)
    ensures s == before + StripLeft(s) && forall c | c in before :: IsSpace(c)
  {
    before := [];
    if s != [] && IsSpace(s[0]) {
      var rest := StripLeftCuts(s[1..]);
      before := [s[0]] + rest;
      assert s == [s[0]] + s[1..];
    }
  }

  lemma {:induction false} StripRightCuts(s: string) returns (after: string)
    ensures s == StripRight(s) + after && forall c | c in after :: IsSpace(c)
  {
    after := [];
    if s != [] && IsSpace(s[|s| - 1]) {
      var rest := StripRightCuts(s[..|s| - 1]);
      after := rest + [s[|s| - 1]];
      assert s == s[..|s| - 1] + [s[|s| - 1]];
    }
  }

  lemma LfStep(s: string, n: nat)
    requires s != [] && n == (if s[0] == '\r' && |s| > 1 && s[1] == '\n' then 2 else 1)
    ensures LfOnly(s) == (if s[0] == '\r' then "\n" else [s[0]]) + LfOnly(s[n..])
  {
  }

  lemma Regroup(a: string, b: string, c: string, d: string)
    ensures a + (b + c + d) == (a + b) + c + d
  {
  }

  /** A line end in the text leaves what is before it and what is after it to themselves. */
  lemma {:induction false} LineEndSplits(x: string, end: string, y: string)
    requires end == "\r\n" || (end == "\r" && !(y != [] && y[0] == '\n'))
    ensures LfOnly(x + end + y) == LfOnly(x) + "\n" + LfOnly(y)
    decreases |x|
  {
    var s := x + end + y;
    if x == [] {
      LfStep(s, |end|);
      assert s == end + y && s[|end|..] == y;
    } else {
      var n := if x[0] == '\r' && |x| > 1 && x[1] == '\n' then 2 else 1;
      assert s[0] == x[0] && s[1] == (x + end)[1] && s[n..] == x[n..] + end + y;
      LfStep(x, n);
      LfStep(s, n);
      LineEndSplits(x[n..], end, y);
      Regroup(if x[0] == '\r' then "\n" else [x[0]], LfOnly(x[n..]), "\n", LfOnly(y));
    }
  }

  /** A line ends at its first break, a CRLF counting as one break. */
  lemma {:induction false} FirstLineEnds(line: string, x: string, c: char, y: string)
    requires Unbroken(x) && IsBreak(c) && !(c == '\r' && y != [] && y[0] == '\n')
    ensures SplitLines(x + [c] + y, line) == [line + x] + SplitLines(y)
    ensures SplitLines(x + "\r\n" + y, line) == [line + x] + SplitLines(y)
    decreases |x|
  {
    if x == [] {
      assert x + [c] + y == [c] + y && ([c] + y)[1..] == y && line + x == line;
      assert x + "\r\n" + y == "\r\n" + y && ("\r\n" + y)[2..] == y;
    } else {
      FirstLineEnds(line + [x[0]], x[1..], c, y);
      assert (x + [c] + y)[1..] == x[1..] + [c] + y && (x + "\r\n" + y)[1..] == x[1..] + "\r\n" + y;
      assert line + [x[0]] + x[1..] == line + x;
      assert (x + [c] + y)[0] in x && (x + "\r\n" + y)[0] in x;
    }
  }

  lemma {:induction false} LfOnlyHasNoCr(s: string)
    ensures '\r' !in LfOnly(s)
    decreases |s|
  {
    if s != [] {
      LfOnlyHasNoCr(s[1..]);
      if |s| > 1 { LfOnlyHasNoCr(s[2..]); }
    }
  }

  lemma {:induction false} LfOnlyIdentity(s: string)
    requires '\r' !in s
    ensures LfOnly(s) == s
  {
    if s != [] {
      LfOnlyIdentity(s[1..]);
      assert s == [s[0]] + s[1..];
    }
  }

  lemma NormalizeTextIdempotent(value: string)
    ensures NormalizeText(NormalizeText(value)) == NormalizeText(value)
  {
    LfOnlyHasNoCr(value);
    StripTrims(LfOnly(value));
    LfOnlyIdentity(NormalizeText(value));
  }

  predicate Unbroken(s: string) {
    forall c | c in s :: !IsBreak(c)
  }

  /** What every stored on-screen line looks like after normalization. */
  predicate CleanLine(s: string) {
    s != [] && Trimmed(s) && Unbroken(s)
  }

  lemma {:induction false} SplitLinesHaveNoBreaks(s: string, line: string)
    requires Unbroken(line)
    ensures forall l | l in SplitLines(s, line) :: Unbroken(l)
    decreases |s|
  {
    if s != [] {
      if IsBreak(s[0]) {
        SplitLinesHaveNoBreaks(s[1..], "");
        if |s| > 1 { SplitLinesHaveNoBreaks(s[2..], ""); }
      } else {
        SplitLinesHaveNoBreaks(s[1..], line + [s[0]]);
      }
    }
  }

  lemma {:induction false} SplitUnbroken(s: string, line: string)
    requires line + s != [] && Unbroken(s)
    ensures SplitLines(s, line) == [line + s]
    decreases |s|
  {
    if s != [] {
      SplitUnbroken(s[1..], line + [s[0]]);
      assert line + [s[0]] + s[1..] == line + s;
    } else {
      assert line + s == line;
    }
  }

  lemma {:induction false} NonBlankAreClean(lines: seq<string>)
    requires forall l | l in lines :: Unbroken(l)
    ensures forall l | l in NonBlank(lines) :: CleanLine(l)
  {
    if lines != [] {
      assert Unbroken(lines[0]);
      StripTrims(lines[0]);
      assert Unbroken(Strip(lines[0]));
      NonBlankAreClean(lines[1..]);
    }
  }

  lemma {:induction false} AllLinesAreClean(raws: seq<string>)
    ensures forall l | l in AllLines(raws) :: CleanLine(l)
  {
    if raws != [] {
      SplitLinesHaveNoBreaks(LfOnly(raws[0]), "");
      NonBlankAreClean(SplitLines(LfOnly(raws[0])));
      AllLinesAreClean(raws[1..]);
    }
  }

  lemma CleanLineIsFixed(s: string)
    requires CleanLine(s)
    ensures NonBlank(SplitLines(LfOnly(s))) == [s]
  {
    LfOnlyIdentity(s);
    SplitUnbroken(s, "");
    assert "" + s == s;
    assert Strip(s) == s;
    assert NonBlank([s]) == [s] + NonBlank([]);
  }

  lemma {:induction false} CleanLinesAreFixed(lines: seq<string>)
    requires forall l | l in lines :: CleanLine(l)
    ensures AllLines(lines) == lines
  {
    if lines != [] {
      CleanLineIsFixed(lines[0]);
      CleanLinesAreFixed(lines[1..]);
      assert lines == [lines[0]] + lines[1..];
    }
  }

  lemma NormalizeLinesIdempotent(raws: seq<string>)
    ensures NormalizeLines(NormalizeLines(raws)) == NormalizeLines(raws)
  {
    AllLinesAreClean(raws);
    CleanLinesAreFixed(NormalizeLines(raws));
  }

  // ---------- One beat ----------

  predicate HasNaN(f: BeatForm) {
    f.duration.Some? && f.duration.value.NaN?
  }

  /** The beat already holds this field's normalized value. */
  predicate AlreadySet(b: Beat, f: Field) {
    match f
    case DurationField(d) => FloatEq(d, b.duration)
    case DirectionField(text) => Strip(text) == Strip(b.direction)
    case ScriptField(text) => NormalizeText(text) == NormalizeText(b.script)
    case ScreenField(lines) => NormalizeLines(lines) == NormalizeLines(b.screen)
  }

  lemma EditBeatSettles(b: Beat, f: Field, derive: string -> seq<string>)
    ensures EditBeat(b, f, derive).1 <==> !AlreadySet(b, f)
    ensures !EditBeat(b, f, derive).1 ==> EditBeat(b, f, derive).0 == b
    ensures !(f.DurationField? && f.d.NaN?) ==> AlreadySet(EditBeat(b, f, derive).0, f)
    ensures EditBeat(b, f, derive).0.index == b.index
  {
    match f
    case DurationField(_) =>
    case DirectionField(text) => StripTrims(text);
    case ScriptField(text) => NormalizeTextIdempotent(text);
    case ScreenField(lines) => NormalizeLinesIdempotent(lines);
  }

  lemma EditIfSettles(b: Beat, f: Option<Field>, derive: string -> seq<string>)
    ensures f.Some? ==> (EditIf(b, f, derive).1 <==> !AlreadySet(b, f.value))
    ensures !EditIf(b, f, derive).1 ==> EditIf(b, f, derive).0 == b
    ensures f.Some? && !(f.value.DurationField? && f.value.d.NaN?) ==> AlreadySet(EditIf(b, f, derive).0, f.value)
    ensures EditIf(b, f, derive).0.index == b.index
  {
    if f.Some? { EditBeatSettles(b, f.value, derive); }
  }

  /** Whatever the beat held, the form's own values are what it holds afterwards. */
  lemma PatchBeatSettles(b: Beat, f: BeatForm, derive: string -> seq<string>)
    ensures PatchBeat(PatchBeat(b, f, derive).0, f, derive) == (PatchBeat(b, f, derive).0, HasNaN(f))
    ensures !PatchBeat(b, f, derive).1 ==> PatchBeat(b, f, derive).0 == b
    ensures PatchBeat(b, f, derive).1 && !HasNaN(f) ==> PatchBeat(b, f, derive).0 != b
    ensures PatchBeat(b, f, derive).0.index == b.index
  {
    var b1 := EditIf(b, DurationOf(f), derive).0;
    var b2 := EditIf(b1, DirectionOf(f), derive).0;
    var b3 := EditIf(b2, ScriptOf(f), derive).0;
    var b4 := EditIf(b3, ScreenOf(f), derive).0;
    EditIfSettles(b, DurationOf(f), derive);
    EditIfSettles(b1, DirectionOf(f), derive);
    EditIfSettles(b2, ScriptOf(f), derive);
    EditIfSettles(b3, ScreenOf(f), derive);
    EditIfSettles(b4, DurationOf(f), derive);
    EditIfSettles(b4, DirectionOf(f), derive);
    EditIfSettles(b4, ScriptOf(f), derive);
    EditIfSettles(b4, ScreenOf(f), derive);
  }

  // ---------- The form ----------

  predicate FormHasNaN(beats: seq<Beat>, form: seq<BeatForm>) {
    exists i :: 0 <= i < |beats| && HasNaN(FormAt(form, i))
  }

  /** Main result: applying the same form again changes nothing, and reports a change exactly when the
      form carries a NaN duration for one of the beats. */
  lemma PatchTwiceIsPatchOnce(g: Guide, form: seq<BeatForm>, derive: string -> seq<string>)
    ensures var once := PatchGuide(g, form, derive);
            && PatchGuide(once, form, derive) == once
            && (AnyChanged(once.beats, form, derive) <==> FormHasNaN(g.beats, form))
  {
    var once := PatchGuide(g, form, derive);
    forall i | 0 <= i < |g.beats|
      ensures once.beats[i] == PatchBeat(g.beats[i], FormAt(form, i), derive).0
      ensures PatchBeat(once.beats[i], FormAt(form, i), derive) == (once.beats[i], HasNaN(FormAt(form, i)))
    {
      PatchBeatSettles(g.beats[i], FormAt(form, i), derive);
    }
    assert PatchBeats(once.beats, form, derive) == once.beats;
  }

  /** Main result: the change flag is exact, so the fingerprint comparison is disturbed exactly when
      it reports a change (a NaN duration apart). */
  lemma ChangeFlagIsExact(g: Guide, form: seq<BeatForm>, derive: string -> seq<string>)
    requires !FormHasNaN(g.beats, form)
    ensures AnyChanged(g.beats, form, derive) <==> PatchGuide(g, form, derive) != g
  {
    if AnyChanged(g.beats, form, derive) {
      var i :| 0 <= i < |g.beats| && PatchBeat(g.beats[i], FormAt(form, i), derive).1;
      PatchBeatSettles(g.beats[i], FormAt(form, i), derive);
      assert PatchGuide(g, form, derive).beats[i] != g.beats[i];
    }
  }

  /** What one beat takes from its part of the form: a field that is absent, or a blank direction, leaves what
      is there; a field that only differs before normalizing does too; otherwise the beat holds the form's
      normalized value. A script that changed brings its own on-screen lines, which the form's lines are then
      compared with. */
  predicate Takes(b: Beat, f: BeatForm, after: Beat, derive: string -> seq<string>) {
    var newScript := f.script.Some? && NormalizeText(f.script.value) != NormalizeText(b.script);
    var lines := if newScript then derive(NormalizeText(f.script.value)) else b.screen;
    && after.index == b.index && after.rest == b.rest
    && after.duration == (if f.duration.Some? then f.duration.value else b.duration)
    && (if f.direction.Some? && Strip(f.direction.value) !in {[], Strip(b.direction)}
        then after.direction == Strip(f.direction.value) else after.direction == b.direction)
    && after.script == (if newScript then NormalizeText(f.script.value) else b.script)
    && (if f.screen.Some? && NormalizeLines(SplitLines(f.screen.value)) != NormalizeLines(lines)
        then after.screen == NormalizeLines(SplitLines(f.screen.value)) else after.screen == lines)
  }

  /** The form is read by position: beat `i` takes the form's `i`-th fields and no others, and a beat the
      form has nothing for is as before. */
  lemma PatchByPosition(g: Guide, form: seq<BeatForm>, i: nat, derive: string -> seq<string>)
    requires i < |g.beats|
    ensures |PatchGuide(g, form, derive).beats| == |g.beats| && PatchGuide(g, form, derive).rest == g.rest
    ensures i < |form| ==> Takes(g.beats[i], form[i], PatchGuide(g, form, derive).beats[i], derive)
    ensures i >= |form| ==> PatchGuide(g, form, derive).beats[i] == g.beats[i]
  {
    var f := FormAt(form, i);
    PatchBeatTakes(g.beats[i], f, derive);
    PatchBeatSettles(g.beats[i], f, derive);
    if i >= |form| { NothingToTake(g.beats[i], derive); }
  }

  lemma DurationTakes(b: Beat, f: BeatForm, derive: string -> seq<string>)
    ensures EditIf(b, DurationOf(f), derive).0
            == b.(duration := if f.duration.Some? then f.duration.value else b.duration)
  {
  }

  lemma DirectionTakes(b: Beat, f: BeatForm, derive: string -> seq<string>)
    ensures EditIf(b, DirectionOf(f), derive).0
            == if f.direction.Some? && Strip(f.direction.value) !in {[], Strip(b.direction)}
               then b.(direction := Strip(f.direction.value)) else b
  {
  }

  lemma ScriptTakes(b: Beat, f: BeatForm, derive: string -> seq<string>)
    ensures EditIf(b, ScriptOf(f), derive).0
            == if f.script.Some? && NormalizeText(f.script.value) != NormalizeText(b.script)
               then b.(script := NormalizeText(f.script.value), screen := derive(NormalizeText(f.script.value))) else b
  {
  }

  lemma ScreenTakes(b: Beat, f: BeatForm, derive: string -> seq<string>)
    ensures EditIf(b, ScreenOf(f), derive).0
            == if f.screen.Some? && NormalizeLines(SplitLines(f.screen.value)) != NormalizeLines(b.screen)
               then b.(screen := NormalizeLines(SplitLines(f.screen.value))) else b
  {
  }

  lemma PatchBeatTakes(b: Beat, f: BeatForm, derive: string -> seq<string>)
    ensures Takes(b, f, PatchBeat(b, f, derive).0, derive)
  {
    DurationTakes(b, f, derive);
    var b1 := EditIf(b, DurationOf(f), derive).0;
    DirectionTakes(b1, f, derive);
    var b2 := EditIf(b1, DirectionOf(f), derive).0;
    ScriptTakes(b2, f, derive);
    var b3 := EditIf(b2, ScriptOf(f), derive).0;
    ScreenTakes(b3, f, derive);
  }

  lemma NothingToTake(b: Beat, derive: string -> seq<string>)
    ensures PatchBeat(b, BeatForm(None, None, None, None), derive) == (b, false)
  {
  }

  /** Swapping the hook writes the chosen text and the lines derived from it into that beat, and touches
      nothing else. */
  lemma VariantReplacesOneBeat(g: Guide, i: nat, vo: string, derive: string -> seq<string>)
    requires i < |g.beats|
    ensures var h := ReplaceBeatVo(g, i, vo, derive);
            && h.rest == g.rest && |h.beats| == |g.beats|
            && (forall k | 0 <= k < |g.beats| && k != i :: h.beats[k] == g.beats[k])
            && h.beats[i].script == vo && h.beats[i].screen == derive(vo)
            && h.beats[i] == Beat(g.beats[i].index, g.beats[i].duration, g.beats[i].direction, vo, derive(vo),
                                  g.beats[i].rest)
  {
  }

  predicate SameBeats(g: Guide, h: Guide) {
    |g.beats| == |h.beats| && forall i | 0 <= i < |g.beats| :: g.beats[i].index == h.beats[i].index
  }

  /** Both operator edits keep which beats the guide has. */
  lemma EditsKeepBeats(g: Guide, form: seq<BeatForm>, i: nat, vo: string, derive: string -> seq<string>)
    ensures SameBeats(g, PatchGuide(g, form, derive))
    ensures i < |g.beats| ==> SameBeats(g, ReplaceBeatVo(g, i, vo, derive))
  {
    forall k | 0 <= k < |g.beats|
      ensures PatchGuide(g, form, derive).beats[k].index == g.beats[k].index
    {
      PatchBeatSettles(g.beats[k], FormAt(form, k), derive);
    }
  }
}
