/** The pin ledger of `engine/render/asset_sourcer.py`: `resolve_or_reuse` on the `cut_assets` table.

    A pin says which asset plays at which place of a beat. The call commits several times, and the
    resolution it may run commits too, so `log` keeps the committed table after every commit: those are
    the states a crash can leave behind. `resolved_from`, a digest of the visual direction, is taken to
    be injective and holds the direction itself. */
module PinLedger {
  import opened Wrappers
  import opened PinFingerprint
  import opened Rows
  import opened System

  datatype PinRow = PinRow(cut: nat, beat: int, order: nat, asset: int, resolvedFrom: string)

  // ---------- The table ----------

  /** The unique constraint on (cut, beat, order). */
  predicate UniqueKeys(table: seq<PinRow>) {
    forall i, j | 0 <= i < j < |table| ::
      !(table[i].cut == table[j].cut && table[i].beat == table[j].beat && table[i].order == table[j].order)
  }

  predicate Here(row: PinRow, cut: nat, beat: int) {
    row.cut == cut && row.beat == beat
  }

  /** The rows of one beat, in table order. */
  function OfBeat(table: seq<PinRow>, cut: nat, beat: int): seq<PinRow> {
    if table == [] then []
    else (if Here(table[0], cut, beat) then [table[0]] else []) + OfBeat(table[1..], cut, beat)
  }

  /** The rows of every other beat. */
  function Others(table: seq<PinRow>, cut: nat, beat: int): seq<PinRow> {
    if table == [] then []
    else (if Here(table[0], cut, beat) then [] else [table[0]]) + Others(table[1..], cut, beat)
  }

  // ORDER BY order_in_beat

  function Insert(row: PinRow, rows: seq<PinRow>): seq<PinRow> {
    if rows == [] || row.order <= rows[0].order then [row] + rows else [rows[0]] + Insert(row, rows[1..])
  }

  function ByOrder(rows: seq<PinRow>): seq<PinRow> {
    if rows == [] then [] else Insert(rows[0], ByOrder(rows[1..]))
  }

  // ---------- What a call does ----------

  /** The assets found, as pins of the beat; a place where nothing was found gets none. */
  function NewPins(cut: nat, beat: int, direction: string, found: seq<Option<int>>, order: nat := 0): seq<PinRow> {
    if found == [] then []
    else (if found[0].Some? then [PinRow(cut, beat, order, found[0].value, direction)] else [])
         + NewPins(cut, beat, direction, found[1..], order + 1)
  }

  /** The assets of the given pins that still exist. */
  function Existing(rows: seq<PinRow>, assets: set<int>): seq<Option<int>> {
    if rows == [] then []
    else (if rows[0].asset in assets then [Some(rows[0].asset)] else []) + Existing(rows[1..], assets)
  }

  function Assets(found: seq<Option<int>>): set<int> {
    set f | f in found && f.Some? :: f.value
  }

  predicate Current(rows: seq<PinRow>, direction: string) {
    forall r | r in rows :: r.resolvedFrom == direction
  }

  /** Every pin of the beat was resolved from this direction, and some asset of them exists. */
  predicate Reusable(table: seq<PinRow>, assets: set<int>, cut: nat, beat: int, direction: string) {
    && Current(OfBeat(table, cut, beat), direction)
    && Existing(ByOrder(OfBeat(table, cut, beat)), assets) != []
  }

  function Repinned(table: seq<PinRow>, cut: nat, beat: int, direction: string, found: seq<Option<int>>): seq<PinRow> {
    Others(table, cut, beat) + NewPins(cut, beat, direction, found)
  }

  // ---------- The mutating code ----------

  class Ledger {
    var durable: seq<PinRow>
    var work: seq<PinRow>
    var assets: set<int>
    ghost var log: seq<seq<PinRow>>

    constructor (table: seq<PinRow>, known: set<int>)
      ensures durable == table && work == table && assets == known && log == []
    {
      durable, work, assets, log := table, table, known, [];
    }

    method Commit()
      modifies this`durable, this`log
      ensures durable == work && log == old(log) + [work]
    {
      durable := work;
      log := log + [work];
    }

    /** `resolve_beat_assets`: the sources search, cache what they find as asset rows, and commit
        `stages` times along the way (`record_stage`). */
    method Resolve(found: seq<Option<int>>, stages: nat) returns (results: seq<Option<int>>)
      modifies this`durable, this`log, this`assets
      ensures results == found && assets == old(assets) + Assets(found)
      ensures old(log) <= log && forall k | |old(log)| <= k < |log| :: log[k] == work
      ensures durable == if stages > 0 then work else old(durable)
    {
      for k := 0 to stages
        invariant old(log) <= log && forall n | |old(log)| <= n < |log| :: log[n] == work
        invariant assets == old(assets) && durable == if k > 0 then work else old(durable)
      {
        Commit();
      }
      results := found;
      assets := assets + Assets(found);
    }

    /** `resolve_or_reuse`. `found` and `stages` are what the resolution finds and how often it commits,
        should it run. */
    method ResolveOrReuse(cut: nat, beat: int, direction: string, found: seq<Option<int>>, stages: nat)
      returns (results: seq<Option<int>>, resolved: bool)
      modifies this
      ensures work == durable
      ensures resolved <==> !Reusable(old(work), old(assets), cut, beat, direction)
      ensures durable == if resolved then Repinned(old(work), cut, beat, direction, found) else old(work)
      ensures results == if resolved then found else Existing(ByOrder(OfBeat(old(work), cut, beat)), old(assets))
      ensures assets == if resolved then old(assets) + Assets(found) else old(assets)
      // every state a crash can leave behind
      ensures old(log) < log && log[|log| - 1] == durable
      ensures forall k | |old(log)| <= k < |log| :: log[k] in {old(work), durable}
    {
      var pinned := ByOrder(OfBeat(work, cut, beat));
      OrderKeepsCurrency(OfBeat(work, cut, beat), direction);
      Commit();
      var current := AllCurrent(pinned, direction);
      if pinned != [] && current {
        results := Reuse(pinned);
        Commit();
        if results != [] { return results, false; }
      }
      results := Resolve(found, stages);
      work := Others(work, cut, beat);
      AddPins(cut, beat, direction, results);
      Commit();
      resolved := true;
    }

    /** `all(p.resolved_from == fingerprint for p in pinned)`. */
    static method AllCurrent(pinned: seq<PinRow>, direction: string) returns (current: bool)
      ensures current <==> Current(pinned, direction)
    {
      current := true;
      for k := 0 to |pinned|
        invariant current <==> forall r | r in pinned[..k] :: r.resolvedFrom == direction
      {
        assert pinned[..k + 1] == pinned[..k] + [pinned[k]];
        current := current && pinned[k].resolvedFrom == direction;
      }
      assert pinned[..|pinned|] == pinned;
    }

    /** The reuse loop: an asset row that is gone is passed over. */
    method Reuse(pinned: seq<PinRow>) returns (results: seq<Option<int>>)
      ensures results == Existing(pinned, assets)
    {
      results := [];
      assert pinned[..|pinned|] == pinned;
      for k := 0 to |pinned|
        invariant results == Existing(pinned[..k], assets)
      {
        ExistingGrows(pinned, k, assets);
        if pinned[k].asset in assets { results := results + [Some(pinned[k].asset)]; }
      }
    }

    /** The re-pin loop. */
    method AddPins(cut: nat, beat: int, direction: string, results: seq<Option<int>>)
      modifies this`work
      ensures work == old(work) + NewPins(cut, beat, direction, results)
    {
      assert results[0..] == results;
      for order := 0 to |results|
        invariant work + NewPins(cut, beat, direction, results[order..], order)
                  == old(work) + NewPins(cut, beat, direction, results)
      {
        assert results[order..][1..] == results[order + 1..] && results[order..][0] == results[order];
        if results[order].Some? {
          work := work + [PinRow(cut, beat, order, results[order].value, direction)];
        }
      }
      assert results[|results|..] == [];
    }
  }

  lemma Regroup<T>(a: seq<T>, b: seq<T>, c: seq<T>)
    ensures a + (b + c) == a + b + c
  {
  }

  lemma {:induction false} ExistingAppends(a: seq<PinRow>, b: seq<PinRow>, assets: set<int>)
    ensures Existing(a + b, assets) == Existing(a, assets) + Existing(b, assets)
  {
    if a == [] {
      assert a + b == b;
    } else {
      assert (a + b)[1..] == a[1..] + b;
      ExistingAppends(a[1..], b, assets);
      Regroup(if a[0].asset in assets then [Some(a[0].asset)] else [], Existing(a[1..], assets), Existing(b, assets));
    }
  }

  lemma ExistingGrows(rows: seq<PinRow>, k: nat, assets: set<int>)
    requires k < |rows|
    ensures Existing(rows[..k + 1], assets)
            == Existing(rows[..k], assets) + if rows[k].asset in assets then [Some(rows[k].asset)] else []
  {
    assert rows[..k + 1] == rows[..k] + [rows[k]];
    ExistingAppends(rows[..k], [rows[k]], assets);
  }

  // ---------- Order and membership ----------

  lemma {:induction false} InsertKeeps(row: PinRow, rows: seq<PinRow>)
    ensures multiset(Insert(row, rows)) == multiset(rows) + multiset{row}
  {
    if rows != [] && row.order > rows[0].order {
      InsertKeeps(row, rows[1..]);
      assert rows == [rows[0]] + rows[1..];
    }
  }

  lemma {:induction false} OrderKeepsRows(rows: seq<PinRow>)
    ensures multiset(ByOrder(rows)) == multiset(rows)
  {
    if rows != [] {
      OrderKeepsRows(rows[1..]);
      InsertKeeps(rows[0], ByOrder(rows[1..]));
      assert rows == [rows[0]] + rows[1..];
    }
  }

  predicate Sorted(rows: seq<PinRow>) {
    forall i, j | 0 <= i < j < |rows| :: rows[i].order <= rows[j].order
  }

  lemma {:induction false} InsertSorts(row: PinRow, rows: seq<PinRow>)
    requires Sorted(rows)
    ensures Sorted(Insert(row, rows))
  {
    if rows != [] && row.order > rows[0].order {
      InsertSorts(row, rows[1..]);
      InsertKeeps(row, rows[1..]);
      var rest := Insert(row, rows[1..]);
      forall r | r in rest
        ensures rows[0].order <= r.order
      {
        assert r in multiset(rest);
        if r != row { assert r in rows[1..]; }
      }
    }
  }

  /** The query hands the rows over, all of them, by their place in the beat. */
  lemma {:induction false} OrderSorts(rows: seq<PinRow>)
    ensures Sorted(ByOrder(rows)) && multiset(ByOrder(rows)) == multiset(rows)
  {
    OrderKeepsRows(rows);
    if rows != [] {
      OrderSorts(rows[1..]);
      InsertSorts(rows[0], ByOrder(rows[1..]));
    }
  }

  lemma SameRows(rows: seq<PinRow>)
    ensures |ByOrder(rows)| == |rows| && forall r :: r in ByOrder(rows) <==> r in rows
  {
    OrderKeepsRows(rows);
    assert |multiset(ByOrder(rows))| == |multiset(rows)|;
    forall r ensures r in ByOrder(rows) <==> r in rows {
      assert r in ByOrder(rows) <==> r in multiset(ByOrder(rows));
      assert r in rows <==> r in multiset(rows);
    }
  }

  lemma OrderKeepsCurrency(rows: seq<PinRow>, direction: string)
    ensures Current(ByOrder(rows), direction) <==> Current(rows, direction)
  {
    SameRows(rows);
  }

  // ---------- The rows after a call ----------

  lemma {:induction false} OfBeatAppend(a: seq<PinRow>, b: seq<PinRow>, cut: nat, beat: int)
    ensures OfBeat(a + b, cut, beat) == OfBeat(a, cut, beat) + OfBeat(b, cut, beat)
  {
    if a == [] {
      assert a + b == b;
    } else {
      assert (a + b)[1..] == a[1..] + b;
      OfBeatAppend(a[1..], b, cut, beat);
      Regroup(if Here(a[0], cut, beat) then [a[0]] else [], OfBeat(a[1..], cut, beat), OfBeat(b, cut, beat));
    }
  }

  lemma {:induction false} OthersOfBeat(table: seq<PinRow>, cut: nat, beat: int, c: nat, b: int)
    ensures OfBeat(Others(table, cut, beat), c, b) == if c == cut && b == beat then [] else OfBeat(table, c, b)
  {
    if table != [] {
      OthersOfBeat(table[1..], cut, beat, c, b);
      var head := if Here(table[0], cut, beat) then [] else [table[0]];
      OfBeatAppend(head, Others(table[1..], cut, beat), c, b);
    }
  }

  lemma {:induction false} NewPinsOfBeat(cut: nat, beat: int, direction: string, found: seq<Option<int>>, order: nat,
                                         c: nat, b: int)
    ensures OfBeat(NewPins(cut, beat, direction, found, order), c, b)
            == if c == cut && b == beat then NewPins(cut, beat, direction, found, order) else []
  {
    if found != [] {
      NewPinsOfBeat(cut, beat, direction, found[1..], order + 1, c, b);
      var head := if found[0].Some? then [PinRow(cut, beat, order, found[0].value, direction)] else [];
      OfBeatAppend(head, NewPins(cut, beat, direction, found[1..], order + 1), c, b);
    }
  }

  /** The whole new set for this beat, and not a pin of any other beat or cut changed. */
  lemma RepinTouchesOneBeat(table: seq<PinRow>, cut: nat, beat: int, direction: string, found: seq<Option<int>>,
                            c: nat, b: int)
    ensures OfBeat(Repinned(table, cut, beat, direction, found), c, b)
            == if c == cut && b == beat then NewPins(cut, beat, direction, found) else OfBeat(table, c, b)
  {
    OfBeatAppend(Others(table, cut, beat), NewPins(cut, beat, direction, found), c, b);
    OthersOfBeat(table, cut, beat, c, b);
    NewPinsOfBeat(cut, beat, direction, found, 0, c, b);
  }

  // ---------- Uniqueness ----------

  lemma {:induction false} NewPinsAscend(cut: nat, beat: int, direction: string, found: seq<Option<int>>, order: nat)
    ensures var rows := NewPins(cut, beat, direction, found, order);
            && (forall r | r in rows :: Here(r, cut, beat) && r.order >= order && r.resolvedFrom == direction)
            && (forall i, j | 0 <= i < j < |rows| :: rows[i].order < rows[j].order)
  {
    if found != [] {
      NewPinsAscend(cut, beat, direction, found[1..], order + 1);
      var tail := NewPins(cut, beat, direction, found[1..], order + 1);
      assert forall i | 0 <= i < |tail| :: tail[i] in tail;
    }
  }

  /** There is a new pin exactly for every place where something was found: at that place, with that asset,
      for that direction. */
  lemma {:induction false} NewPinsAreTheFinds(cut: nat, beat: int, direction: string, found: seq<Option<int>>,
                                              order: nat, row: PinRow)
    ensures row in NewPins(cut, beat, direction, found, order)
            <==> && row.cut == cut && row.beat == beat && row.resolvedFrom == direction
                 && order <= row.order < order + |found| && found[row.order - order] == Some(row.asset)
  {
    if found != [] {
      NewPinsAreTheFinds(cut, beat, direction, found[1..], order + 1, row);
      if order < row.order < order + |found| {
        assert found[1..][row.order - (order + 1)] == found[row.order - order];
      }
    }
  }

  lemma {:induction false} OthersAreRows(table: seq<PinRow>, cut: nat, beat: int)
    ensures forall r | r in Others(table, cut, beat) :: r in table && !Here(r, cut, beat)
    ensures UniqueKeys(table) ==> UniqueKeys(Others(table, cut, beat))
  {
    if table != [] {
      OthersAreRows(table[1..], cut, beat);
      var rest := Others(table[1..], cut, beat);
      if UniqueKeys(table) {
        assert UniqueKeys(table[1..]);
        assert forall i | 0 <= i < |rest| :: rest[i] in table[1..];
      }
    }
  }

  /** (cut, beat, order) stays unique, so the constraint never rejects the re-pin. */
  lemma RepinKeepsKeysUnique(table: seq<PinRow>, cut: nat, beat: int, direction: string, found: seq<Option<int>>)
    requires UniqueKeys(table)
    ensures UniqueKeys(Repinned(table, cut, beat, direction, found))
  {
    OthersAreRows(table, cut, beat);
    NewPinsAscend(cut, beat, direction, found, 0);
    var kept, added := Others(table, cut, beat), NewPins(cut, beat, direction, found);
    assert forall i | 0 <= i < |kept| :: kept[i] in kept;
    assert forall i | 0 <= i < |added| :: added[i] in added;
  }

  // ---------- Calling again ----------

  lemma {:induction false} SortedStays(rows: seq<PinRow>)
    requires forall i, j | 0 <= i < j < |rows| :: rows[i].order < rows[j].order
    ensures ByOrder(rows) == rows
  {
    if |rows| > 1 {
      SortedStays(rows[1..]);
    }
  }

  /** What a search found, without the places where it found nothing. */
  function Hits(found: seq<Option<int>>): seq<Option<int>> {
    if found == [] then [] else (if found[0].Some? then [found[0]] else []) + Hits(found[1..])
  }

  lemma {:induction false} PinsHoldTheHits(cut: nat, beat: int, direction: string, found: seq<Option<int>>,
                                           order: nat, assets: set<int>)
    requires Assets(found) <= assets
    ensures Existing(NewPins(cut, beat, direction, found, order), assets) == Hits(found)
  {
    if found != [] {
      assert Assets(found[1..]) <= Assets(found);
      assert found[0].Some? ==> found[0].value in Assets(found);
      PinsHoldTheHits(cut, beat, direction, found[1..], order + 1, assets);
      var head := if found[0].Some? then [PinRow(cut, beat, order, found[0].value, direction)] else [];
      ExistingAppends(head, NewPins(cut, beat, direction, found[1..], order + 1), assets);
      assert Existing(head, assets) == if found[0].Some? then [found[0]] else [];
    }
  }

  /** A repeat call with the direction unchanged reuses exactly when the first one pinned anything; it
      then hands back the very assets of the first call, in order, and resolves nothing. A beat that was
      left black has no pin and is searched for again. */
  lemma RepeatCallReusesIff(table: seq<PinRow>, assets: set<int>, cut: nat, beat: int, direction: string,
                            found: seq<Option<int>>)
    requires Assets(found) <= assets
    ensures var again := Repinned(table, cut, beat, direction, found);
            && (Reusable(again, assets, cut, beat, direction) <==> Hits(found) != [])
            && Existing(ByOrder(OfBeat(again, cut, beat)), assets) == Hits(found)
  {
    RepinTouchesOneBeat(table, cut, beat, direction, found, cut, beat);
    NewPinsAscend(cut, beat, direction, found, 0);
    SortedStays(NewPins(cut, beat, direction, found));
    PinsHoldTheHits(cut, beat, direction, found, 0, assets);
  }

  /** A changed direction is never served from old pins. */
  lemma ChangedDirectionResolves(table: seq<PinRow>, assets: set<int>, cut: nat, beat: int, direction: string,
                                 other: string, found: seq<Option<int>>)
    requires other != direction
    ensures !Reusable(Repinned(table, cut, beat, direction, found), assets, cut, beat, other)
  {
    RepinTouchesOneBeat(table, cut, beat, direction, found, cut, beat);
    NewPinsAscend(cut, beat, direction, found, 0);
    var rows := NewPins(cut, beat, direction, found);
    if rows != [] {
      assert rows[0] in rows;
    }
  }

  // ---------- The state machine's view ----------

  /** The pins of a cut as the fingerprint and the state machine see them. */
  function PinsOf(table: seq<PinRow>, cut: nat): set<Pin> {
    set r | r in table && r.cut == cut :: Pin(r.beat, r.order, r.asset)
  }

  lemma {:induction false} OthersKeepRows(table: seq<PinRow>, cut: nat, beat: int)
    ensures forall r :: r in Others(table, cut, beat) <==> r in table && !Here(r, cut, beat)
  {
    if table != [] {
      OthersKeepRows(table[1..], cut, beat);
      assert table == [table[0]] + table[1..];
    }
  }

  /** One call is one `PinBeat` event: it replaces the pins of one beat of one cut. */
  lemma RepinIsPinBeat(table: seq<PinRow>, cut: nat, beat: int, direction: string, found: seq<Option<int>>, c: nat)
    ensures var built := PinsOf(NewPins(cut, beat, direction, found), cut);
            && BeatPins(built, beat)
            && PinsOf(Repinned(table, cut, beat, direction, found), c)
               == if c == cut then Repin(PinsOf(table, cut), beat, built) else PinsOf(table, c)
  {
    OthersKeepRows(table, cut, beat);
    NewPinsAscend(cut, beat, direction, found, 0);
  }

  lemma {:induction false} OfBeatIsRows(table: seq<PinRow>, cut: nat, beat: int)
    ensures forall r :: r in OfBeat(table, cut, beat) <==> r in table && Here(r, cut, beat)
  {
    if table != [] {
      OfBeatIsRows(table[1..], cut, beat);
      assert table == [table[0]] + table[1..];
    }
  }

  lemma {:induction false} ExistingCounts(rows: seq<PinRow>, assets: set<int>)
    ensures |Existing(rows, assets)| <= |rows|
    ensures |Existing(rows, assets)| == |rows| <==> forall r | r in rows :: r.asset in assets
    ensures forall a :: Some(a) in Existing(rows, assets) <==> a in assets && exists r | r in rows :: r.asset == a
  {
    if rows != [] {
      ExistingCounts(rows[1..], assets);
      assert rows == [rows[0]] + rows[1..];
    }
  }

  /** The pins of a beat whose asset can be shown. */
  function Shown(table: seq<PinRow>, assets: set<int>, cut: nat, beat: int): set<Pin> {
    PinsOf(Showable(OfBeat(table, cut, beat), assets), cut)
  }

  function Showable(rows: seq<PinRow>, assets: set<int>): seq<PinRow> {
    if rows == [] then [] else (if rows[0].asset in assets then [rows[0]] else []) + Showable(rows[1..], assets)
  }

  lemma {:induction false} ShowableIsRows(rows: seq<PinRow>, assets: set<int>)
    ensures forall r :: r in Showable(rows, assets) <==> r in rows && r.asset in assets
  {
    if rows != [] {
      ShowableIsRows(rows[1..], assets);
      assert rows == [rows[0]] + rows[1..];
    }
  }

  lemma OnePinAPlace(table: seq<PinRow>, cut: nat, beat: int)
    requires UniqueKeys(table)
    ensures BeatPins(PinsOf(OfBeat(table, cut, beat), cut), beat)
    ensures forall r, q | r in OfBeat(table, cut, beat) && q in OfBeat(table, cut, beat) && r.order == q.order :: r == q
  {
    OfBeatIsRows(table, cut, beat);
    forall r, q | r in OfBeat(table, cut, beat) && q in OfBeat(table, cut, beat) && r.order == q.order
      ensures r == q
    {
      var i :| 0 <= i < |table| && table[i] == r;
      var j :| 0 <= j < |table| && table[j] == q;
    }
  }

  /** A call that reuses leaves the cut's pins alone, and what it hands back is one asset for every pin of
      the beat whose asset row still exists. That is what the `ReadPins` event takes, the pins already
      there, if and only if all of those exist; otherwise the video is built from fewer assets than are
      pinned. */
  lemma ReuseIsReadPinsIff(table: seq<PinRow>, assets: set<int>, cut: nat, beat: int)
    requires UniqueKeys(table)
    ensures var pinned := PinsOf(OfBeat(table, cut, beat), cut);
            && BeatPins(pinned, beat) && pinned == PinsOfBeat(PinsOf(table, cut), beat)
            && Repin(PinsOf(table, cut), beat, pinned) == PinsOf(table, cut)
            && Shown(table, assets, cut, beat) <= pinned
            && (Shown(table, assets, cut, beat) == pinned
                <==> |Existing(ByOrder(OfBeat(table, cut, beat)), assets)| == |OfBeat(table, cut, beat)|)
    ensures forall a :: Some(a) in Existing(ByOrder(OfBeat(table, cut, beat)), assets)
                        <==> exists p | p in Shown(table, assets, cut, beat) :: p.asset == a
  {
    OnePinAPlace(table, cut, beat);
    OfBeatIsRows(table, cut, beat);
    SameRows(OfBeat(table, cut, beat));
    ExistingCounts(ByOrder(OfBeat(table, cut, beat)), assets);
    ShowableIsRows(OfBeat(table, cut, beat), assets);
    ShownIff(OfBeat(table, cut, beat), assets, cut, beat);
  }

  lemma ShownIff(rows: seq<PinRow>, assets: set<int>, cut: nat, beat: int)
    requires forall r | r in rows :: Here(r, cut, beat)
    requires forall r, q | r in rows && q in rows && r.order == q.order :: r == q
    ensures PinsOf(Showable(rows, assets), cut) <= PinsOf(rows, cut)
    ensures PinsOf(Showable(rows, assets), cut) == PinsOf(rows, cut) <==> forall r | r in rows :: r.asset in assets
    ensures forall a :: (exists p | p in PinsOf(Showable(rows, assets), cut) :: p.asset == a)
                        <==> a in assets && exists r | r in rows :: r.asset == a
  {
    ShowableIsRows(rows, assets);
    var shown := PinsOf(Showable(rows, assets), cut);
    forall r | r in rows
      ensures r.asset in assets <==> Pin(r.beat, r.order, r.asset) in shown
    {
    }
    forall a | a in assets && exists r | r in rows :: r.asset == a
      ensures exists p | p in shown :: p.asset == a
    {
      var r :| r in rows && r.asset == a;
      assert Pin(r.beat, r.order, r.asset) in shown;
    }
    if forall r | r in rows :: r.asset in assets {
      assert shown == PinsOf(rows, cut);
    } else {
      var r :| r in rows && r.asset !in assets;
      assert Pin(r.beat, r.order, r.asset) in PinsOf(rows, cut);
    }
  }

  // ---------- A call refines the state machine ----------

  function PinOf(row: PinRow): Pin {
    Pin(row.beat, row.order, row.asset)
  }

  /** The state machine's cut holds the pins this table has for it, and the directions they came from. */
  ghost predicate Holds(cut: Cut, table: seq<PinRow>, id: nat) {
    && cut.pins == PinsOf(table, id)
    && (forall r | r in table && r.cut == id ::
          PinOf(r) in cut.resolvedFrom && cut.resolvedFrom[PinOf(r)] == r.resolvedFrom)
  }

  /** The call and the `ReadPins` event decide alike, but for a beat none of whose assets exists any more. */
  lemma DecisionIsReadPins(table: seq<PinRow>, assets: set<int>, id: nat, cut: Cut, beat: int, direction: string)
    requires Holds(cut, table, id)
    ensures Reusable(table, assets, id, beat, direction)
            <==> Reuses(cut, beat, direction) && exists r | r in OfBeat(table, id, beat) :: r.asset in assets
  {
    var rows := OfBeat(table, id, beat);
    OfBeatIsRows(table, id, beat);
    SameRows(rows);
    ExistingIff(ByOrder(rows), assets);
    DirectionsAgree(table, id, cut, beat, direction);
    if exists r | r in rows :: r.asset in assets {
      var r :| r in rows && r.asset in assets;
      assert PinOf(r) in PinsOfBeat(cut.pins, beat);
    }
  }

  lemma {:induction false} ExistingIff(rows: seq<PinRow>, assets: set<int>)
    ensures Existing(rows, assets) != [] <==> exists r | r in rows :: r.asset in assets
  {
    if rows != [] {
      ExistingIff(rows[1..], assets);
      assert rows == [rows[0]] + rows[1..];
    }
  }

  lemma DirectionsAgree(table: seq<PinRow>, id: nat, cut: Cut, beat: int, direction: string)
    requires Holds(cut, table, id)
    ensures UpToDate(cut, beat, direction) <==> Current(OfBeat(table, id, beat), direction)
  {
    OfBeatIsRows(table, id, beat);
    forall r | r in OfBeat(table, id, beat)
      ensures PinOf(r) in cut.pins && PinOf(r).beat == beat && cut.resolvedFrom[PinOf(r)] == r.resolvedFrom
    {
    }
    forall p | p in cut.pins && p.beat == beat
      ensures exists r :: r in OfBeat(table, id, beat) && PinOf(r) == p
    {
      var r :| r in table && r.cut == id && Pin(r.beat, r.order, r.asset) == p;
      assert r in OfBeat(table, id, beat) && PinOf(r) == p;
    }
  }

  /** A call that resolves is one `PinBeat` event, directions included; the ledgers of other cuts are not
      touched. */
  lemma ResolvingIsPinBeat(table: seq<PinRow>, id: nat, cut: Cut, beat: int, direction: string,
                           found: seq<Option<int>>, other: nat, otherCut: Cut)
    requires Holds(cut, table, id) && other != id && Holds(otherCut, table, other)
    ensures Holds(RepinCut(cut, beat, direction, PinsOf(NewPins(id, beat, direction, found), id)),
                  Repinned(table, id, beat, direction, found), id)
    ensures Holds(otherCut, Repinned(table, id, beat, direction, found), other)
  {
    RepinIsPinBeat(table, id, beat, direction, found, id);
    RepinIsPinBeat(table, id, beat, direction, found, other);
    OthersKeepRows(table, id, beat);
    NewPinsAscend(id, beat, direction, found, 0);
    var after := RepinCut(cut, beat, direction, PinsOf(NewPins(id, beat, direction, found), id));
    forall r | r in Repinned(table, id, beat, direction, found) && r.cut == id
      ensures PinOf(r) in after.resolvedFrom && after.resolvedFrom[PinOf(r)] == r.resolvedFrom
    {
      if r in NewPins(id, beat, direction, found) {
        assert PinOf(r) in PinsOf(NewPins(id, beat, direction, found), id);
      } else {
        assert r in table && r.beat != beat;
      }
    }
  }
}
