/** The chunked-coding decoder of ChunkedEncoding.h together with the trailer automaton of HttpParser.h.
  *
  * The decoder keeps its whole state in one 64-bit word: four flag bits above a 60-bit size.  The bulk
  * methods below work on that word and on whole segments, as the source does.  They are proved against
  * `Decode`, a reference decoder that takes one octet at a time and keeps an ordinary datatype as its
  * state; because `Decode` is a fold, no cut of the input can be seen in what it delivers.
  */
module ChunkedEncoding {
  import opened Bytes

  // ---------------------------------------------------------------- the packed word

  const UNIT: nat := 0x1000_0000_0000_0000                // 2^60
  const OVERFLOW_LIMIT: nat := 0x0100_0000_0000_0000      // 2^56: a size at or above it admits no further digit

  type Size = n: nat | n < UNIT

  /** The 64-bit state word by its two fields: the flag nibble (8 has-size, 4 chunked, 2 extension,
    * 1 trailer) above the 60-bit size. */
  datatype Word = Word(flags: bv4, size: Size)
  {
    /** The number the 64 bits stand for. */
    function Value(): nat { flags as nat * UNIT + size }

    predicate HasChunkSize() { flags & 8 != 0 }

    predicate IsExtension() { flags & 2 != 0 }

    predicate IsTrailer() { flags & 1 != 0 }

    predicate IsParsingChunkedEncoding() { flags != 0 }

    /** Two more, in 64 bits: the sum carries out of the size into the flag nibble. */
    function PlusTwo(): Word
    {
      if size + 2 < UNIT then Word(flags, size + 2) else Word(flags + 1, size + 2 - UNIT)
    }

    /** The end of a size line: the size counts the closing CRLF as well, is known from now on, and no extension is
      * being skipped any more. */
    function EndLine(): Word
    {
      Word((PlusTwo().flags & 13) | 12, PlusTwo().size)
    }

    /** From here on the size line is skipped. */
    function SetExtension(): Word { Word(flags | 2, size) }

    /** One more hexadecimal digit; every flag but that of a chunked body is dropped. */
    function AddDigit(digit: nat): Word
      requires digit < 16 && size < OVERFLOW_LIMIT
    {
      Word(4, size * 16 + digit)
    }

    /** `decChunkSize`: so many octets of the chunk have come. */
    function DecChunkSize(n: nat): Word
      requires n <= size
    {
      Word(flags | 4, size - n)
    }

    /** What every caller keeps: a known size is never zero, except in the trailer. */
    predicate Usable() { HasChunkSize() && !IsTrailer() ==> size >= 1 }
  }

  const NOT_STREAMING: Word := Word(0, 0)
  const STATE_IS_TRAILER: Word := Word(1, 0)
  const STATE_IS_CHUNKED: Word := Word(4, 0)
  const STATE_IS_ERROR: Word := Word(15, UNIT - 1)

  lemma PlusTwoIs64Bit(w: Word)
    ensures w.PlusTwo().Value() == (w.Value() + 2) % 0x1_0000_0000_0000_0000
  {
    assert w.flags == 15 || (w.flags + 1) as nat == w.flags as nat + 1;
  }

  /** Ending a size line adds the two octets of the closing CRLF to the size, unless the sum needs a 61st
    * bit: then the carry sets the trailer flag. */
  lemma EndLineWord(w: Word)
    requires !w.HasChunkSize() && !w.IsTrailer()
    ensures w.EndLine().Usable() && w.EndLine().HasChunkSize()
    ensures w.EndLine() == Word(12, (w.size + 2) % UNIT) <==> w.size < UNIT - 2
    ensures w.size >= UNIT - 2 ==> w.EndLine().IsTrailer() && w.EndLine() != STATE_IS_TRAILER
  {
  }

  function HexValue(c: byte): (v: Option<nat>)
    ensures v.Some? ==> v.value < 16
  {
    if 48 <= c <= 57 then Some(c as nat - 48)
    else if 65 <= c <= 70 then Some(c as nat - 55)
    else if 97 <= c <= 102 then Some(c as nat - 87)
    else None
  }

  // ---------------------------------------------------------------- the reference decoder

  /** `Line`: inside a chunk-size line; `cr` says the last octet was its CR. `Body(left)`: `left` octets of chunk data
    * and closing CRLF to come. `Trailer(tail)`: after the zero chunk, `tail` as in `trailerTail`. `Ambiguous`: what
    * follows a CR inside a size line is read in two ways, depending on the cuts. `Oversized`: the size does not leave
    * room for the two octets of CRLF in 60 bits. */
  datatype State =
    | Line(size: nat, ext: bool, cr: bool)
    | Body(left: nat)
    | Trailer(tail: nat)
    | Done
    | Failed
    | Ambiguous
    | Oversized
  {
    predicate Final() { Done? || Failed? || Ambiguous? || Oversized? }

    predicate Regular() { !Ambiguous? && !Oversized? }
  }

  const START: State := Line(0, false, false)

  /** What a run delivers, in order: the octets of the body and the mark that ends it. */
  datatype Event = Octet(c: byte) | EndMark

  function Octets(data: seq<byte>): (events: seq<Event>)
    ensures |events| == |data|
  {
    seq(|data|, i requires 0 <= i < |data| => Octet(data[i]))
  }

  lemma OctetsConcat(x: seq<byte>, y: seq<byte>)
    ensures Octets(x + y) == Octets(x) + Octets(y)
  {
  }

  function EndOfLine(size: nat): (State, seq<Event>)
  {
    if size == 0 then (Trailer(0), [EndMark])
    else if size + 2 >= UNIT then (Oversized, [])
    else (Body(size + 2), [])
  }

  /** After a CR inside a size line these octets may be skipped or read: it makes no difference. */
  predicate MaySkip(size: nat, c: byte)
  {
    c == CR || c == SEMICOLON || (c == 48 && size == 0)
  }

  function LineStep(a: State, c: byte): (State, seq<Event>)
    requires a.Line?
  {
    if c == LF then EndOfLine(a.size)
    else if a.ext then (a, [])
    else if a.cr then
      if MaySkip(a.size, c) then (a, []) else (Ambiguous, [])
    else if c == CR then (a.(cr := true), [])
    else if c == SEMICOLON then (a.(ext := true), [])
    else
      match HexValue(c)
      case None => (Failed, [])
      case Some(d) => if a.size >= OVERFLOW_LIMIT then (Failed, []) else (Line(a.size * 16 + d, false, false), [])
  }

  function BodyStep(left: nat, c: byte): (State, seq<Event>)
    requires left >= 1
  {
    if left > 2 then (Body(left - 1), [Octet(c)])
    else if left == 2 then (if c == CR then Body(1) else Failed, [])
    else (if c == LF then START else Failed, [])
  }

  function TrailerStep(tail: nat, c: byte): State
  {
    if tail == 0 then Trailer(if c == CR then 4 else 5)
    else if tail == 4 then
      if c == LF then Done else Trailer(if c == CR then 1 else 5)
    else if c == CR then Trailer(if tail == 2 then 3 else 1)
    else if c == LF then
      if tail == 3 then Done else Trailer(if tail == 1 then 2 else 5)
    else Trailer(5)
  }

  predicate Live(a: State)
  {
    match a
    case Line(size, ext, cr) => size < UNIT && !(ext && cr)
    case Body(left) => 1 <= left < UNIT
    case Trailer(tail) => tail <= 5
    case _ => false
  }

  function Step(a: State, c: byte): (r: (State, seq<Event>))
    requires Live(a)
    ensures Live(r.0) || r.0.Final()
  {
    match a
    case Line(_, _, _) => LineStep(a, c)
    case Body(left) => BodyStep(left, c)
    case Trailer(tail) => (TrailerStep(tail, c), [])
  }

  /** The state a run reaches, what it delivers and the octets it stopped before. */
  datatype Decoded = Decoded(state: State, out: seq<Event>, rest: seq<byte>)

  function Prepend(events: seq<Event>, d: Decoded): Decoded
  {
    d.(out := events + d.out)
  }

  /** One octet at a time. */
  function Decode(a: State, input: seq<byte>): (d: Decoded)
    requires Live(a) || a.Final()
    ensures Live(d.state) || d.state.Final()
    ensures a.Final() ==> d == Decoded(a, [], input)
    ensures !d.state.Final() ==> d.rest == []
    ensures |d.rest| <= |input|
    decreases |input|
  {
    if a.Final() || input == [] then
      Decoded(a, [], input)
    else
      var (next, events) := Step(a, input[0]);
      Prepend(events, Decode(next, input[1..]))
  }

  /** Reading `x + y` is reading `x` and then `y` from where `x` left off. */
  lemma {:induction false} DecodeConcat(a: State, x: seq<byte>, y: seq<byte>)
    requires Live(a) || a.Final()
    ensures var first := Decode(a, x);
            Decode(a, x + y) == Prepend(first.out, Decode(first.state, first.rest + y))
    decreases |x|
  {
    if a.Final() || x == [] {
      assert x == [] ==> x + y == y;
      assert [] + Decode(a, x + y).out == Decode(a, x + y).out;
    } else {
      var (next, events) := Step(a, x[0]);
      assert (x + y)[0] == x[0] && (x + y)[1..] == x[1..] + y;
      DecodeConcat(next, x[1..], y);
      var tail := Decode(next, x[1..]);
      assert Decode(a, x) == Prepend(events, tail);
      Assoc3(events, tail.out, Decode(tail.state, tail.rest + y).out);
    }
  }

  lemma {:induction false} DecodeRest(a: State, input: seq<byte>)
    requires Live(a) || a.Final()
    ensures Decode(a, input).rest == input[|input| - |Decode(a, input).rest|..]
    decreases |input|
  {
    if !a.Final() && input != [] {
      DecodeRest(Step(a, input[0]).0, input[1..]);
    }
  }

  /** Decoding segment by segment, handing unread octets on, as a connection does. */
  function DecodeSegments(a: State, segments: seq<seq<byte>>): (d: Decoded)
    requires Live(a) || a.Final()
    ensures Live(d.state) || d.state.Final()
    ensures a.Final() ==> d.state == a
    ensures !d.state.Final() ==> d.rest == []
    decreases |segments|
  {
    if segments == [] then
      Decoded(a, [], [])
    else
      var first := Decode(a, segments[0]);
      var others := DecodeSegments(first.state, segments[1..]);
      Decoded(others.state, first.out + others.out, first.rest + others.rest)
  }

  /** Read boundaries are invisible: every way of cutting the input gives the run on the whole. */
  lemma {:induction false} SegmentationInvisible(a: State, segments: seq<seq<byte>>)
    requires Live(a) || a.Final()
    ensures DecodeSegments(a, segments) == Decode(a, Flatten(segments))
    decreases |segments|
  {
    if segments == [] {
    } else {
      var first := Decode(a, segments[0]);
      SegmentationInvisible(first.state, segments[1..]);
      DecodeConcat(a, segments[0], Flatten(segments[1..]));
      if !first.state.Final() {
        assert first.rest + Flatten(segments[1..]) == Flatten(segments[1..]);
        var others := Decode(first.state, Flatten(segments[1..]));
        assert [] + others.rest == others.rest;
      }
    }
  }

  // ---------------------------------------------------------------- the bulk decoder

  /** The word and trailer byte in which the source keeps the reference state `a`. */
  ghost predicate Encodes(a: State, w: Word, tail: nat)
  {
    match a
    case Line(size, ext, cr) => Live(a) && (w == Word(if ext then 6 else 4, size) || (cr && w == Word(6, size)))
      && tail == 0
    case Body(left) => Live(a) && w == Word(12, left) && tail == 0
    case Trailer(t) => Live(a) && w == STATE_IS_TRAILER && tail == t
    case Done => w == NOT_STREAMING && tail == 0
    case Failed => w == STATE_IS_ERROR
    case Ambiguous => true
    case Oversized => true
  }

  /** What `consumeHexNumber` computes; `skipping` once it no longer reads digits. */
  function ReadSizeLine(w: Word, skipping: bool, data: seq<byte>): (r: (Word, seq<byte>))
    requires !w.HasChunkSize() && !w.IsTrailer()
    ensures r.0.Usable()
    ensures |r.1| <= |data| && (r.0 != STATE_IS_ERROR && data != [] ==> |r.1| < |data|)
    ensures r.0 != STATE_IS_ERROR && !r.0.HasChunkSize() ==> r.1 == [] && !r.0.IsTrailer()
    decreases |data|
  {
    if data == [] then
      (w, [])
    else if data[0] == LF then
      EndLineWord(w);
      (w.EndLine(), data[1..])
    else if skipping || data[0] == CR then
      ReadSizeLine(w, true, data[1..])
    else if data[0] == SEMICOLON then
      ReadSizeLine(w.SetExtension(), true, data[1..])
    else
      match HexValue(data[0])
      case None => (STATE_IS_ERROR, data)
      case Some(digit) =>
        if w.size >= OVERFLOW_LIMIT then (STATE_IS_ERROR, data)
        else ReadSizeLine(w.AddDigit(digit), false, data[1..])
  }

  method ConsumeHexNumber(data: seq<byte>, state: Word) returns (rest: seq<byte>, state': Word)
    requires !state.HasChunkSize() && !state.IsTrailer()
    ensures (state', rest) == ReadSizeLine(state, state.IsExtension(), data)
  {
    rest, state' := data, state;
    var skipping := state.IsExtension();
    if !state'.IsExtension() {
      while rest != []
        invariant !state'.HasChunkSize() && !state'.IsTrailer()
        invariant !skipping
        invariant ReadSizeLine(state', false, rest) == ReadSizeLine(state, state.IsExtension(), data)
        decreases |rest|
      {
        var digit := rest[0];
        if digit == SEMICOLON {
          state', rest, skipping := state'.SetExtension(), rest[1..], true;
          break;
        } else if digit == CR || digit == LF {
          break;
        }
        match HexValue(digit) {
          case None =>
            state' := STATE_IS_ERROR;
            return;
          case Some(number) =>
            if state'.size >= OVERFLOW_LIMIT {
              state' := STATE_IS_ERROR;
              return;
            }
            state', rest := state'.AddDigit(number), rest[1..];
        }
      }
    }
    while rest != [] && rest[0] != LF
      invariant !state'.HasChunkSize() && !state'.IsTrailer()
      invariant rest != [] && !skipping ==> rest[0] == CR || rest[0] == LF
      invariant ReadSizeLine(state', skipping, rest) == ReadSizeLine(state, state.IsExtension(), data)
      decreases |rest|
    {
      rest, skipping := rest[1..], true;
    }
    if rest != [] {
      state', rest := state'.EndLine(), rest[1..];
    }
  }

  /** After one size line, the reference decoder stands where the bulk reader does. */
  ghost predicate LineAgrees(d: Decoded, w: Word, rest: seq<byte>)
  {
    if w == STATE_IS_ERROR then d.state.Failed? && d.out == []
    else if w.HasChunkSize() then
      && 2 <= w.size
      && w == Word(12, w.size)
      && d == if w.size == 2 then Prepend([EndMark], Decode(Trailer(0), rest)) else Decode(Body(w.size), rest)
    else d.state.Line? && Encodes(d.state, w, 0) && d.out == [] && d.rest == []
  }

  lemma {:induction false} SizeLineRefines(a: State, w: Word, skipping: bool, data: seq<byte>)
    requires a.Line? && Encodes(a, w, 0)
    requires (a.ext ==> skipping) && (skipping ==> a.ext || a.cr)
    ensures Decode(a, data).state.Regular() ==>
              LineAgrees(Decode(a, data), ReadSizeLine(w, skipping, data).0, ReadSizeLine(w, skipping, data).1)
    decreases |data|
  {
    hide LineAgrees;
    if Decode(a, data).state.Regular() { SizeLineStops(a, w, skipping, data); }
    if data != [] && data[0] != LF && Decode(a, data).state.Regular() {
      var c := data[0];
      assert [] + Decode(LineStep(a, c).0, data[1..]).out == Decode(LineStep(a, c).0, data[1..]).out;
      if skipping || c == CR {
        SizeLineRefines(LineStep(a, c).0, w, true, data[1..]);
      } else if c == SEMICOLON {
        SizeLineRefines(LineStep(a, c).0, w.SetExtension(), true, data[1..]);
      } else if HexValue(c).Some? && a.size < OVERFLOW_LIMIT {
        SizeLineRefines(LineStep(a, c).0, w.AddDigit(HexValue(c).value), false, data[1..]);
      }
    }
  }

  /** The line is at its end, or cannot go on. */
  lemma SizeLineStops(a: State, w: Word, skipping: bool, data: seq<byte>)
    requires a.Line? && Encodes(a, w, 0) && (a.ext ==> skipping) && (skipping ==> a.ext || a.cr)
    requires Decode(a, data).state.Regular()
    ensures data == [] || data[0] == LF
              || (!skipping && data[0] !in {CR, SEMICOLON} && (HexValue(data[0]).None? || a.size >= OVERFLOW_LIMIT)) ==>
              LineAgrees(Decode(a, data), ReadSizeLine(w, skipping, data).0, ReadSizeLine(w, skipping, data).1)
  {
    hide Decode;
    if data == [] {
      DecodeEmpty(a);
    } else {
      DecodeStep(a, data);
      var next := Step(a, data[0]).0;
      assert [] + Decode(next, data[1..]).out == Decode(next, data[1..]).out;
      if next.Final() {
        DecodeFinal(next, data[1..]);
      }
      if data[0] == LF {
        EndLineWord(w);
      }
    }
  }

  /** A stretch of chunk data is handed over unchanged. */
  lemma {:induction false} BodyPrefix(left: nat, k: nat, data: seq<byte>)
    requires Live(Body(left)) && k <= |data| && k + 2 <= left
    ensures Decode(Body(left), data) == Prepend(Octets(data[..k]), Decode(Body(left - k), data[k..]))
    decreases k
  {
    hide Decode;
    if k == 0 {
      assert data[0..] == data && [] + Decode(Body(left), data).out == Decode(Body(left), data).out;
    } else {
      DecodeStep(Body(left), data);
      BodyPrefix(left - 1, k - 1, data[1..]);
      assert data[1..][..k - 1] == data[1..k] && data[1..][k - 1..] == data[k..];
      assert Octets(data[..k]) == [Octet(data[0])] + Octets(data[1..k]);
      Assoc3([Octet(data[0])], Octets(data[1..k]), Decode(Body(left - k), data[k..]).out);
    }
  }

  /** What handing `chunk` to the data handler delivers: the empty chunk is the end mark. */
  function HandedOver(chunk: seq<byte>): seq<Event>
  {
    if chunk == [] then [EndMark] else Octets(chunk)
  }

  function Handed(chunk: Option<seq<byte>>, d: Decoded): Decoded
  {
    match chunk
    case None => d
    case Some(octets) => Prepend(HandedOver(octets), d)
  }

  /** Octets, and no mark that a body ends. */
  predicate OctetsOnly(events: seq<Event>) { forall k | 0 <= k < |events| :: events[k].Octet? }

  /** The decoder fails, and has delivered at most octets of the chunk it fails in. */
  predicate FailsInside(d: Decoded) { d.state.Failed? && OctetsOnly(d.out) }

  ghost predicate ChunkAgrees(a: State, data: seq<byte>, a': State, state': Word, rest: seq<byte>,
                              chunk: Option<seq<byte>>)
    requires (Live(a) || a.Final()) && (Live(a') || a'.Final())
  {
    if state' == STATE_IS_ERROR then FailsInside(Decode(a, data))
    else Encodes(a', state', 0) && Decode(a, data) == Handed(chunk, Decode(a', rest))
  }

  lemma WholeChunk(left: nat, data: seq<byte>)
    requires Live(Body(left)) && left <= |data|
    ensures (left >= 2 && data[left - 2] != CR) || data[left - 1] != LF ==> FailsInside(Decode(Body(left), data))
    ensures !((left >= 2 && data[left - 2] != CR) || data[left - 1] != LF) ==>
              Decode(Body(left), data) == Handed(if left > 2 then Some(data[..left - 2])
                else None, Decode(START, data[left..]))
  {
    hide Decode;
    if left == 1 {
      LastOctet(data);
    } else {
      BodyPrefix(left, left - 2, data);
      Closing(data[left - 2..]);
      DropDrop(data, left - 2, 2);
      assert data[left - 2..][0] == data[left - 2] && data[left - 2..][1] == data[left - 1];
      assert Octets(data[..0]) == [] && [] + Decode(START, data[left..]).out == Decode(START, data[left..]).out;
    }
  }

  lemma LastOctet(data: seq<byte>)
    requires data != []
    ensures Decode(Body(1), data) == if data[0] == LF then Decode(START, data[1..]) else Decoded(Failed, [], data[1..])
  {
    assert Decode(Body(1), data) == Prepend([], Decode(if data[0] == LF then START else Failed, data[1..]));
  }

  lemma DecodeStep(a: State, input: seq<byte>)
    requires Live(a) && input != []
    ensures Decode(a, input) == Prepend(Step(a, input[0]).1, Decode(Step(a, input[0]).0, input[1..]))
  {
  }

  lemma DecodeFinal(a: State, input: seq<byte>)
    requires a.Final()
    ensures Decode(a, input) == Decoded(a, [], input)
  {
  }

  lemma DecodeEmpty(a: State)
    requires Live(a) || a.Final()
    ensures Decode(a, []) == Decoded(a, [], [])
  {
  }

  lemma Closing(data: seq<byte>)
    requires |data| >= 2
    ensures Decode(Body(2), data) ==
            if data[0] == CR && data[1] == LF then Decode(START, data[2..])
            else Decoded(Failed, [], if data[0] == CR then data[2..] else data[1..])
  {
    hide Decode;
    assert data[1..][1..] == data[2..] && data[1..][0] == data[1];
    DecodeStep(Body(2), data);
    DecodeStep(Body(1), data[1..]);
    DecodeFinal(Failed, data[1..]);
    DecodeFinal(Failed, data[2..]);
    assert [] + Decode(START, data[2..]).out == Decode(START, data[2..]).out;
  }

  lemma ClosingCr(c: byte)
    ensures Decode(Body(2), [c]) == Decoded(if c == CR then Body(1) else Failed, [], [])
  {
    assert [c][1..] == [];
  }

  lemma PartialChunk(left: nat, data: seq<byte>)
    requires Live(Body(left)) && 0 < |data| < left
    ensures |data| == left - 1 && data[|data| - 1] != CR ==> FailsInside(Decode(Body(left), data))
    ensures !(|data| == left - 1 && data[|data| - 1] != CR) ==>
              Decode(Body(left), data) == Decoded(Body(left - |data|),
                Octets(if |data| > left - 2 then data[..left - 2] else data), [])
  {
    hide Decode;
    if |data| <= left - 2 {
      DecodeEmpty(Body(left - |data|));
      BodyPrefix(left, |data|, data);
      assert data[..|data|] == data && data[|data|..] == [] && Octets(data) + [] == Octets(data);
    } else {
      AllButLf(left, data);
    }
  }

  lemma AllButLf(left: nat, data: seq<byte>)
    requires Live(Body(left)) && 0 < |data| == left - 1
    ensures Decode(Body(left), data) ==
            Decoded(if data[left - 2] == CR then Body(1) else Failed, Octets(data[..left - 2]), [])
  {
    hide Decode;
    BodyPrefix(left, left - 2, data);
    ClosingCr(data[left - 2]);
    assert data[left - 2..] == [data[left - 2]] && Octets(data[..left - 2]) + [] == Octets(data[..left - 2]);
  }

  /** The part of `getNextChunk` that runs once a size is known: hands over the chunk data at hand, all of it
    * and its closing CRLF or a first part. */
  method TakeChunkData(data: seq<byte>, state: Word, ghost a: State)
    returns (rest: seq<byte>, state': Word, chunk: Option<seq<byte>>, ghost a': State)
    requires data != [] && 1 <= state.size && state.HasChunkSize() && !state.IsTrailer()
    ensures |rest| <= |data| && (state' != STATE_IS_ERROR ==> |rest| < |data|)
    ensures chunk.None? ==> rest == [] || state' == STATE_IS_ERROR || state' == STATE_IS_CHUNKED
    ensures chunk != Some([]) && state'.Usable() && (chunk.Some? ==> state' != STATE_IS_ERROR)
    ensures Live(a') && (a'.Line? || a'.Body?)
    ensures Encodes(a, state, 0) && a.Body? ==> ChunkAgrees(a, data, a', state', rest, chunk)
  {
    hide Decode;
    rest, state', chunk, a' := data, state, None, START;
    var size := state.size;
    if |data| >= size {
      WholeChunk(size, data);
      if (size >= 2 && data[size - 2] != CR) || data[size - 1] != LF {
        state' := STATE_IS_ERROR;
        return;
      }
      if size > 2 {
        chunk := Some(data[..size - 2]);
      }
      rest, state' := data[size..], STATE_IS_CHUNKED;
    } else {
      PartialChunk(size, data);
      if |data| == size - 1 && data[|data| - 1] != CR {
        state' := STATE_IS_ERROR;
        return;
      }
      if size > 2 {
        chunk := Some(if |data| > size - 2 then data[..size - 2] else data);
      }
      rest, state', a' := [], state.DecChunkSize(|data|), Body(size - |data|);
      DecodeEmpty(a');
    }
  }

  /** The part of `getNextChunk` that runs while no size is known: reads the size line at hand and, when it
    * announces the zero chunk, hands over the empty chunk that marks the end of the body. */
  method TakeSizeLine(data: seq<byte>, state: Word, ghost a: State)
    returns (rest: seq<byte>, state': Word, chunk: Option<seq<byte>>, ghost a': State)
    requires data != [] && !state.HasChunkSize() && !state.IsTrailer()
    requires Live(a) || a.Final()
    ensures |rest| <= |data| && (state' != STATE_IS_ERROR ==> |rest| < |data|)
    ensures chunk.None? || (chunk == Some([]) && state' != STATE_IS_ERROR && a' == Trailer(0))
    ensures state'.Usable() && (Live(a') || a'.Final())
    ensures a.Line? && Encodes(a, state, 0) && Decode(a, data).state.Regular() ==>
              ChunkAgrees(a, data, a', state', rest, chunk)
                && (chunk.None? && state' != STATE_IS_ERROR ==> a'.Line? || a'.Body?)
  {
    chunk, a' := None, START;
    ghost var inScope := a.Line? && Encodes(a, state, 0) && Decode(a, data).state.Regular();
    if inScope {
      SizeLineRefines(a, state, state.IsExtension(), data);
    }
    rest, state' := ConsumeHexNumber(data, state);
    if state' == STATE_IS_ERROR {
      return;
    }
    if state'.HasChunkSize() && state'.size == 2 {
      return rest, STATE_IS_TRAILER, Some([]), Trailer(0);
    }
    if inScope {
      a' := if state'.HasChunkSize() then Body(state'.size) else Decode(a, data).state;
    }
  }

  /** The next chunk to hand over (an empty one marks the end of the body), or None when the input is used up. */
  method GetNextChunk(data: seq<byte>, state: Word, ghost a: State)
    returns (rest: seq<byte>, state': Word, chunk: Option<seq<byte>>, ghost a': State)
    requires state.Usable() && (Live(a) || a.Final())
    ensures state'.Usable() && (Live(a') || a'.Final())
    ensures |rest| <= |data| && (chunk.Some? ==> |rest| < |data|)
    ensures chunk.None? ==> rest == [] || state'.IsTrailer()
    ensures chunk.Some? ==> state' != STATE_IS_ERROR
    ensures (a.Line? || a.Body?) && Encodes(a, state, 0) && Decode(a, data).state.Regular() ==>
              ChunkAgrees(a, data, a', state', rest, chunk)
                && (state' != STATE_IS_ERROR ==> a'.Line? || a'.Body? || a'.Trailer?)
    ensures state.IsTrailer() ==> rest == data && state' == state && chunk == None && a' == a
  {
    hide Decode;
    rest, state', chunk, a' := data, state, None, a;
    ghost var inScope := (a.Line? || a.Body?) && Encodes(a, state, 0) && Decode(a, data).state.Regular();
    while rest != []
      invariant state'.Usable() && |rest| <= |data| && chunk == None
      invariant state.IsTrailer() ==> rest == data && state' == state && a' == a
      invariant Live(a') || a'.Final()
      invariant inScope ==> (a'.Line? || a'.Body?) && ChunkAgrees(a, data, a', state', rest, None)
      invariant state' != STATE_IS_ERROR || !inScope
      decreases |rest|
    {
      if state'.IsTrailer() {
        return;
      }
      if !state'.HasChunkSize() {
        rest, state', chunk, a' := TakeSizeLine(rest, state', a');
      } else {
        rest, state', chunk, a' := TakeChunkData(rest, state', a');
      }
      if state' == STATE_IS_ERROR || chunk.Some? {
        return;
      }
    }
  }

  /** What was handed over before an error: everything but octets of the chunk that is in error. */
  predicate HandedBefore(handed: seq<Event>, out: seq<Event>)
  {
    handed <= out && OctetsOnly(out[|handed|..])
  }

  /** What a series of calls to the data handler delivers. */
  function Calls(chunks: seq<seq<byte>>): (events: seq<Event>)
  {
    if chunks == [] then [] else Calls(chunks[..|chunks| - 1]) + HandedOver(chunks[|chunks| - 1])
  }

  /** `HttpParser::consumeChunkedTrailer` */
  method ConsumeChunkedTrailer(data: seq<byte>, state: Word, tail: nat)
    returns (rest: seq<byte>, state': Word, tail': nat)
    requires tail <= 5
    ensures state != STATE_IS_TRAILER ==> (rest, state', tail') == (data, state, tail)
    ensures state == STATE_IS_TRAILER ==>
              var d := Decode(Trailer(tail), data);
              rest == d.rest && Encodes(d.state, state', tail') && (d.state.Trailer? || d.state.Done?) && d.out == []
    ensures tail' <= 5 && |rest| <= |data|
    ensures state' == STATE_IS_TRAILER ==> rest == []
  {
    rest, state', tail' := data, state, tail;
    while rest != [] && state' == STATE_IS_TRAILER
      invariant tail' <= 5 && |rest| <= |data|
      invariant state != STATE_IS_TRAILER ==> (rest, state', tail') == (data, state, tail)
      invariant state == STATE_IS_TRAILER ==>
                  && (state' == STATE_IS_TRAILER || (state' == NOT_STREAMING && tail' == 0))
                  && Decode(Trailer(tail), data) == Decode(if state' == STATE_IS_TRAILER then Trailer(tail')
                    else Done, rest)
      decreases |rest|
    {
      var c := rest[0];
      rest := rest[1..];
      if tail' == 0 {
        tail' := if c == CR then 4 else 5;
        continue;
      }
      if tail' == 4 {
        if c == LF {
          state', tail' := NOT_STREAMING, 0;
          return;
        }
        tail' := if c == CR then 1 else 5;
        continue;
      }
      if c == CR {
        tail' := if tail' == 2 then 3 else 1;
      } else if c == LF {
        if tail' == 3 {
          state', tail' := NOT_STREAMING, 0;
          return;
        }
        tail' := if tail' == 1 then 2 else 5;
      } else {
        tail' := 5;
      }
    }
  }

  /** `chunks` is what has been handed over of the run of `a` on `data` when `at` has `rest` to read. */
  ghost predicate HandedSoFar(a: State, data: seq<byte>, at: State, rest: seq<byte>, chunks: seq<seq<byte>>)
    requires (Live(a) || a.Final()) && (Live(at) || at.Final())
  {
    Decode(a, data) == Prepend(Calls(chunks), Decode(at, rest))
  }

  lemma HandOver(a: State, data: seq<byte>, at: State, rest: seq<byte>, chunks: seq<seq<byte>>, chunk: seq<byte>,
                 at': State, rest': seq<byte>)
    requires (Live(a) || a.Final()) && (Live(at) || at.Final()) && (Live(at') || at'.Final())
    requires HandedSoFar(a, data, at, rest, chunks)
    requires Decode(at, rest) == Handed(Some(chunk), Decode(at', rest'))
    ensures HandedSoFar(a, data, at', rest', chunks + [chunk])
  {
    hide Decode;
    assert (chunks + [chunk])[..|chunks|] == chunks;
    Assoc3(Calls(chunks), HandedOver(chunk), Decode(at', rest').out);
  }

  /** The loop over `ChunkIterator` and the trailer, as both callers in HttpParser.h run them on one segment:
    * `chunks` are the calls made to the data handler. */
  method ConsumeChunkedBody(data: seq<byte>, state: Word, tail: nat, ghost a: State)
    returns (rest: seq<byte>, state': Word, tail': nat, chunks: seq<seq<byte>>)
    requires state.Usable() && tail <= 5 && (Live(a) || a.Final())
    ensures state'.Usable() && tail' <= 5 && |rest| <= |data|
    ensures state' == STATE_IS_ERROR || rest == [] || state'.IsTrailer() || state' == NOT_STREAMING
    ensures var d := Decode(a, data);
            Live(a) && Encodes(a, state, tail) && d.state.Regular() ==>
              && (state' == STATE_IS_ERROR <==> d.state.Failed?)
              && (state' == STATE_IS_ERROR ==> HandedBefore(Calls(chunks), d.out))
              && (state' != STATE_IS_ERROR ==>
                    Encodes(d.state, state', tail') && rest == d.rest && Calls(chunks) == d.out)
  {
    hide Decode;
    ghost var inScope := Live(a) && Encodes(a, state, tail) && Decode(a, data).state.Regular();
    ghost var at := a;
    rest, state', tail', chunks := data, state, tail, [];
    while true
      invariant state'.Usable() && (Live(at) || at.Final()) && |rest| <= |data|
      invariant inScope ==>
                  Encodes(at, state', tail) && (at.Line? || at.Body? || at.Trailer?)
                    && HandedSoFar(a, data, at, rest, chunks)
      decreases |rest|
    {
      ghost var from, before := rest, at;
      var chunk: Option<seq<byte>>;
      rest, state', chunk, at := GetNextChunk(rest, state', at);
      if chunk.None? {
        if inScope {
          assert state' == STATE_IS_ERROR ==> FailsInside(Decode(before, from));
          assert state' != STATE_IS_ERROR ==> Encodes(at, state', tail) && HandedSoFar(a, data, at, rest, chunks);
        }
        break;
      }
      if inScope {
        HandOver(a, data, before, from, chunks, chunk.value, at, rest);
      }
      chunks := chunks + [chunk.value];
    }
    if inScope && state' != STATE_IS_ERROR && !at.Trailer? {
      assert rest == [];
      DecodeEmpty(at);
    }
    rest, state', tail' := ConsumeChunkedTrailer(rest, state', tail);
  }

  lemma {:induction false} CallsConcat(x: seq<seq<byte>>, y: seq<seq<byte>>)
    ensures Calls(x + y) == Calls(x) + Calls(y)
    decreases |y|
  {
    if y == [] {
      assert x + y == x;
    } else {
      var n := |y| - 1;
      assert (x + y)[..|x + y| - 1] == x + y[..n];
      CallsConcat(x, y[..n]);
      Assoc3(Calls(x), Calls(y[..n]), HandedOver(y[n]));
    }
  }

  /** A run that is in scope as a whole is in scope after its first segment, and goes on from there. */
  lemma SegmentRead(a: State, segment: seq<byte>, later: seq<byte>)
    requires Live(a) && Decode(a, segment + later).state.Regular()
    ensures var first := Decode(a, segment);
            && first.state.Regular() && (first.state.Failed? ==> Decode(a, segment + later).state.Failed?)
            && Decode(a, segment + later) == Prepend(first.out, Decode(first.state, first.rest + later))
  {
    DecodeConcat(a, segment, later);
  }

  lemma DecodeStops(a: State, rest: seq<byte>)
    requires (Live(a) || a.Final()) && (a.Done? || rest == [])
    ensures Decode(a, rest) == Decoded(a, [], rest)
  {
  }

  lemma WordOver(a: State, w: Word, tail: nat)
    requires (Live(a) || a.Final()) && a.Regular() && Encodes(a, w, tail) && w != STATE_IS_ERROR
    ensures !a.Failed? && (w == NOT_STREAMING <==> a.Done?) && (w != NOT_STREAMING ==> Live(a))
  {
  }

  lemma LiveWord(a: State, w: Word, tail: nat)
    requires Live(a) && Encodes(a, w, tail)
    ensures a.Regular() && w != STATE_IS_ERROR
  {
  }

  lemma HandedBehind(before: seq<Event>, handed: seq<Event>, out: seq<Event>)
    requires HandedBefore(handed, out)
    ensures HandedBefore(before + handed, before + out)
  {
    assert (before + out)[|before + handed|..] == out[|handed|..];
  }

  /** A body that comes in segments: each is read as it comes, until the body is over or in error. */
  method ConsumeSegments(segments: seq<seq<byte>>, state: Word, tail: nat, ghost a: State)
    returns (rest: seq<byte>, state': Word, tail': nat, chunks: seq<seq<byte>>)
    requires state.Usable() && tail <= 5 && Live(a) && Encodes(a, state, tail)
    requires Decode(a, Flatten(segments)).state.Regular()
    ensures var d := Decode(a, Flatten(segments));
            && (state' == STATE_IS_ERROR <==> d.state.Failed?)
            && (state' == STATE_IS_ERROR ==> HandedBefore(Calls(chunks), d.out))
            && (state' != STATE_IS_ERROR ==>
              Encodes(d.state, state', tail') && rest == d.rest && Calls(chunks) == d.out)
  {
    hide Decode, Encodes;
    rest, state', tail', chunks := [], state, tail, [];
    ghost var at, i := a, 0;
    var todo := segments;
    LiveWord(a, state, tail);
    WordOver(a, state, tail);
    assert [] + Flatten(segments) == Flatten(segments);
    assert [] + Decode(a, Flatten(segments)).out == Decode(a, Flatten(segments)).out;
    while todo != [] && state' != NOT_STREAMING && state' != STATE_IS_ERROR
      invariant state'.Usable() && tail' <= 5 && (Live(at) || at.Final())
      invariant state' == STATE_IS_ERROR ==>
                  && Decode(a, Flatten(segments)).state.Failed?
                  && HandedBefore(Calls(chunks), Decode(a, Flatten(segments)).out)
      invariant state' != STATE_IS_ERROR ==>
                  && Encodes(at, state', tail') && !at.Failed? && at.Regular()
                  && (state' == NOT_STREAMING <==> at.Done?) && (at.Done? || rest == [])
                  && Decode(a, Flatten(segments)) == Prepend(Calls(chunks), Decode(at, rest + Flatten(todo)))
      decreases |todo|
    {
      WordOver(at, state', tail');
      assert rest + Flatten(todo) == todo[0] + Flatten(todo[1..]);
      SegmentRead(at, todo[0], Flatten(todo[1..]));
      ghost var first := Decode(at, todo[0]);
      var more;
      rest, state', tail', more := ConsumeChunkedBody(todo[0], state', tail', at);
      CallsConcat(chunks, more);
      if state' == STATE_IS_ERROR {
        DecodeFinal(first.state, first.rest + Flatten(todo[1..]));
        assert first.out + [] == first.out;
        HandedBehind(Calls(chunks), Calls(more), first.out);
      } else {
        Assoc3(Calls(chunks), first.out, Decode(first.state, first.rest + Flatten(todo[1..])).out);
        WordOver(first.state, state', tail');
      }
      at, chunks, todo := first.state, chunks + more, todo[1..];
    }
    if state' != STATE_IS_ERROR {
      rest := rest + Flatten(todo);
      DecodeStops(at, rest);
      assert Calls(chunks) + [] == Calls(chunks);
    }
  }
}
