/** Bounded inflation: `_decode_bounded` of `engine/render/safe_fetch.py`.

    A zlib decompressor is foreign code. It is a parameter here, together with the one thing the loop needs
    of it: a call that leaves input over consumed some of it or produced some output. */
module Inflate {
  type Bytes = seq<bv8>

  /** One `decompress(data, max_length)` call. */
  datatype Step<S> = Out(chunk: Bytes, unconsumed: Bytes, next: S) | ZlibError

  /** A decompressor: its state when new, its step, and its `eof` flag. */
  datatype Decoder<!S> = Decoder(start: S, step: (S, Bytes, nat) -> Step<S>, eof: S -> bool)

  const CHUNK: nat := 0x10_0000

  /** The decoder contract. */
  ghost predicate Sane<S(!new)>(d: Decoder<S>) {
    forall s: S, data: Bytes | data != [] ::
      match d.step(s, data, CHUNK)
      case ZlibError => true
      case Out(chunk, unconsumed, _) => |unconsumed| <= |data| && (chunk != [] || |unconsumed| < |data|)
  }

  datatype Decoded = Inflated(out: Bytes) | TooLarge | Truncated | Corrupt

  /** What decoding `data` from state `s` gives when at most `room` more bytes may come out. */
  ghost function Decode<S(!new)>(d: Decoder<S>, s: S, data: Bytes, room: nat): Decoded
    requires Sane(d)
    decreases room, |data|
  {
    if data == [] then if d.eof(s) then Inflated([]) else Truncated
    else
      match d.step(s, data, CHUNK)
      case ZlibError => Corrupt
      case Out(chunk, unconsumed, next) =>
        if |chunk| > room then TooLarge
        else
          match Decode(d, next, unconsumed, room - |chunk|)
          case Inflated(out) => Inflated(chunk + out)
          case other => other
  }

  /** One attempt with one decompressor. */
  method Attempt<S(!new)>(d: Decoder<S>, raw: Bytes, limit: nat) returns (r: Decoded)
    requires Sane(d)
    ensures r == Decode(d, d.start, raw, limit)
  {
    var s, out, total, data := d.start, [], 0, raw;
    while data != []
      invariant total == |out| <= limit
      invariant Decode(d, d.start, raw, limit) == After(out, Decode(d, s, data, limit - total))
      decreases limit - total, |data|
    {
      match d.step(s, data, CHUNK)
      case ZlibError => return Corrupt;
      case Out(chunk, unconsumed, next) =>
        total := total + |chunk|;
        if total > limit { return TooLarge; }
        AfterJoins(out, chunk, Decode(d, next, unconsumed, limit - total));
        out := out + chunk;
        data := unconsumed;
        s := next;
    }
    if !d.eof(s) { return Truncated; }
    return Inflated(out);
  }

  /** `r` with `out` in front of whatever it inflated to. */
  function After(out: Bytes, r: Decoded): Decoded {
    match r
    case Inflated(rest) => Inflated(out + rest)
    case other => other
  }

  lemma AfterJoins(a: Bytes, b: Bytes, r: Decoded)
    ensures After(a, After(b, r)) == After(a + b, r)
  {
    if r.Inflated? { assert a + (b + r.out) == (a + b) + r.out; }
  }

  /** `_decode_bounded`: gzip has one window setting, deflate is tried zlib-wrapped and then raw. Only a zlib
      error moves on to the next setting. */
  method DecodeBounded<S(!new)>(decoders: seq<Decoder<S>>, raw: Bytes, limit: nat) returns (r: Decoded)
    requires forall d | d in decoders :: Sane(d)
    ensures raw == [] ==> r == Inflated([])
    ensures raw != [] && r.Corrupt? ==> forall d | d in decoders :: Decode(d, d.start, raw, limit).Corrupt?
    ensures raw != [] && !r.Corrupt? ==>
              exists k :: 0 <= k < |decoders| && r == Decode(decoders[k], decoders[k].start, raw, limit)
                          && forall n | 0 <= n < k :: Decode(decoders[n], decoders[n].start, raw, limit).Corrupt?
    ensures r.Inflated? ==> |r.out| <= limit
  {
    if raw == [] { return Inflated([]); }
    for k := 0 to |decoders|
      invariant forall n | 0 <= n < k :: Decode(decoders[n], decoders[n].start, raw, limit).Corrupt?
    {
      r := Attempt(decoders[k], raw, limit);
      OutputIsCapped(decoders[k], decoders[k].start, raw, limit);
      if !r.Corrupt? { return r; }
    }
    return Corrupt;
  }

  // ---------- The cap ----------

  lemma {:induction false} OutputIsCapped<S(!new)>(d: Decoder<S>, s: S, data: Bytes, room: nat)
    requires Sane(d)
    ensures Decode(d, s, data, room).Inflated? ==> |Decode(d, s, data, room).out| <= room
    decreases room, |data|
  {
    if data != [] {
      match d.step(s, data, CHUNK)
      case ZlibError =>
      case Out(chunk, unconsumed, next) =>
        if |chunk| <= room {
          OutputIsCapped(d, next, unconsumed, room - |chunk|);
        }
    }
  }

  /** The cap changes nothing but the refusal. Whatever a body gives under a larger cap it gives under this
      one too, unless that is more than this cap allows, and then it is refused as too large; and whatever
      is not refused here is the same under every larger cap, so no refusal is premature. */
  lemma {:induction false} CapIsExact<S(!new)>(d: Decoder<S>, s: S, data: Bytes, room: nat, larger: nat)
    requires Sane(d) && room <= larger
    ensures Decode(d, s, data, larger).Inflated? ==>
              Decode(d, s, data, room)
              == if |Decode(d, s, data, larger).out| <= room then Decode(d, s, data, larger) else TooLarge
    ensures Decode(d, s, data, room) != TooLarge ==> Decode(d, s, data, larger) == Decode(d, s, data, room)
    decreases larger, |data|
  {
    if data != [] {
      match d.step(s, data, CHUNK)
      case ZlibError =>
      case Out(chunk, unconsumed, next) =>
        if |chunk| <= room {
          CapIsExact(d, next, unconsumed, room - |chunk|, larger - |chunk|);
        }
    }
  }

  // ---------- What a decoding is ----------

  /** The decompressor, called with at most a mebibyte of output at a time, gives out these chunks and
      comes to this state with this input left. */
  ghost predicate Reads<S(!new)>(d: Decoder<S>, s: S, data: Bytes, chunks: seq<Bytes>, end: S, rest: Bytes)
    decreases |chunks|
  {
    if chunks == [] then s == end && data == rest
    else
      data != []
      && match d.step(s, data, 0x10_0000)
         case ZlibError => false
         case Out(chunk, unconsumed, next) => chunk == chunks[0] && Reads(d, next, unconsumed, chunks[1..], end, rest)
  }

  function Flat(chunks: seq<Bytes>): Bytes {
    if chunks == [] then [] else chunks[0] + Flat(chunks[1..])
  }

  /** How a decoding ends: all input read and the decompressor content, which gives out the chunks in order;
      all input read and the decompressor still waiting; a zlib error on input still there; or the first
      chunk that does not fit. */
  ghost predicate Ends<S(!new)>(d: Decoder<S>, chunks: seq<Bytes>, end: S, rest: Bytes, room: nat, r: Decoded) {
    match r
    case Inflated(out) => rest == [] && d.eof(end) && out == Flat(chunks) && |out| <= room
    case Truncated => rest == [] && !d.eof(end) && |Flat(chunks)| <= room
    case Corrupt => rest != [] && d.step(end, rest, 0x10_0000).ZlibError? && |Flat(chunks)| <= room
    case TooLarge => chunks != [] && |Flat(chunks[..|chunks| - 1])| <= room < |Flat(chunks)|
  }

  /** Every decoding reads chunks up to one of the four ends. */
  lemma {:induction false} DecodingReads<S(!new)>(d: Decoder<S>, s: S, data: Bytes, room: nat)
      returns (chunks: seq<Bytes>, end: S, rest: Bytes)
    requires Sane(d)
    ensures Reads(d, s, data, chunks, end, rest) && Ends(d, chunks, end, rest, room, Decode(d, s, data, room))
    decreases room, |data|
  {
    chunks, end, rest := [], s, data;
    if data != [] {
      match d.step(s, data, CHUNK)
      case ZlibError =>
      case Out(chunk, unconsumed, next) =>
        if |chunk| > room {
          chunks, end, rest := [chunk], next, unconsumed;
          assert chunks[..0] == [] && chunks[1..] == [];
        } else {
          var more;
          more, end, rest := DecodingReads(d, next, unconsumed, room - |chunk|);
          chunks := [chunk] + more;
          assert chunks[1..] == more;
          if more != [] { assert chunks[..|chunks| - 1][1..] == more[..|more| - 1]; }
        }
    }
  }

  /** And whatever reading ends in one of these ways is the decoding. */
  lemma {:induction false} ReadingDecodes<S(!new)>(d: Decoder<S>, s: S, data: Bytes, room: nat, chunks: seq<Bytes>,
                                                   end: S, rest: Bytes, r: Decoded)
    requires Sane(d) && Reads(d, s, data, chunks, end, rest) && Ends(d, chunks, end, rest, room, r)
    ensures Decode(d, s, data, room) == r
    decreases |chunks|
  {
    if chunks != [] {
      var more := chunks[1..];
      if more != [] { assert chunks[..|chunks| - 1][1..] == more[..|more| - 1]; }
      if |chunks[0]| <= room {
        var inner := if r.Inflated? then Inflated(Flat(more)) else r;
        ReadingDecodes(d, d.step(s, data, CHUNK).next, d.step(s, data, CHUNK).unconsumed, room - |chunks[0]|, more,
                       end, rest, inner);
      }
    }
  }
}
