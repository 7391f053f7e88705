/** The chunked coding as section 7.1 of RFC 9112 writes it, against the decoder; and the chunk writer of
  * HttpResponse.h, whose output the decoder turns back into what was written. */
module ChunkedGrammar {
  import opened Bytes
  import opened ChunkedEncoding

  // ---------------------------------------------------------------- where the trailer section ends

  predicate StartsWithCrlf(t: seq<byte>)
  {
    |t| >= 2 && t[0] == CR && t[1] == LF
  }

  predicate EndsWithBlankLine(t: seq<byte>)
  {
    |t| >= 4 && t[|t| - 4] == CR && t[|t| - 3] == LF && t[|t| - 2] == CR && t[|t| - 1] == LF
  }

  /** `t` is a trailer section with its terminator: CRLF at once, or else everything up to CRLFCRLF. */
  predicate Terminated(t: seq<byte>)
  {
    if StartsWithCrlf(t) then |t| == 2 else EndsWithBlankLine(t)
  }

  /** The terminator ends after exactly `n` octets of `t`, and no earlier. */
  ghost predicate TrailerEndsAt(t: seq<byte>, n: nat)
  {
    n <= |t| && Terminated(t[..n]) && forall m: nat | m < n :: !Terminated(t[..m])
  }

  /** `trailerTail` after reading `p`, none of whose prefixes is terminated. */
  function TailOf(p: seq<byte>): nat
  {
    var n := |p|;
    if n == 0 then 0
    else if p[n - 1] == CR then
      if n == 1 then 4 else if n >= 3 && p[n - 3] == CR && p[n - 2] == LF then 3 else 1
    else if p[n - 1] == LF && n >= 2 && p[n - 2] == CR then 2
    else 5
  }

  lemma TailStep(p: seq<byte>, c: byte)
    requires !Terminated(p) && !StartsWithCrlf(p)
    ensures TrailerStep(TailOf(p), c) == if Terminated(p + [c]) then Done else Trailer(TailOf(p + [c]))
  {
  }

  /** No prefix of `p` is terminated. */
  ghost predicate Unterminated(p: seq<byte>)
  {
    forall m: nat | m <= |p| :: !Terminated(p[..m])
  }

  lemma {:induction false} TrailerRun(p: seq<byte>, t: seq<byte>)
    requires Unterminated(p)
    ensures var d := Decode(Trailer(TailOf(p)), t);
            if d.state.Done? then |d.rest| < |t| && TrailerEndsAt(p + t, |p| + |t| - |d.rest|)
              && d.rest == t[|t| - |d.rest|..]
            else d.state.Trailer? && Unterminated(p + t)
    decreases |t|
  {
    hide Decode;
    if t == [] {
      assert p + t == p;
      DecodeEmpty(Trailer(TailOf(p)));
    } else {
      var q := p + [t[0]];
      NoTerminator(p);
      TailStep(p, t[0]);
      DecodeStep(Trailer(TailOf(p)), t);
      assert p + t == q + t[1..];
      Extend(p, t[0], t[1..]);
      if !Terminated(q) {
        TrailerRun(q, t[1..]);
      }
    }
  }

  lemma NoTerminator(p: seq<byte>)
    requires Unterminated(p)
    ensures !Terminated(p) && !StartsWithCrlf(p)
  {
    assert p[..|p|] == p;
    assert |p| >= 2 ==> !Terminated(p[..2]);
  }

  lemma Extend(p: seq<byte>, c: byte, t: seq<byte>)
    requires Unterminated(p)
    ensures if Terminated(p + [c]) then TrailerEndsAt(p + [c] + t, |p| + 1) else Unterminated(p + [c])
  {
    var q := p + [c];
    assert q[..|q|] == q && (q + t)[..|q|] == q;
    assert forall m: nat | m <= |p| :: q[..m] == p[..m] && (q + t)[..m] == p[..m];
  }

  /** The trailer automaton stops iff there is a terminator, and then exactly behind the first one. */
  lemma TrailerConsumedExactly(t: seq<byte>)
    ensures var d := Decode(Trailer(0), t);
            && (d.state.Done? <==> exists n: nat :: TrailerEndsAt(t, n))
            && (forall n: nat | TrailerEndsAt(t, n) :: d.rest == t[n..])
  {
    hide Decode;
    TrailerRun([], t);
    assert [] + t == t;
    var d := Decode(Trailer(0), t);
    if d.state.Done? {
      var k := |t| - |d.rest|;
      assert TrailerEndsAt(t, k);
      forall n: nat | TrailerEndsAt(t, n)
        ensures n == k
      {
        OneEnd(t, n, k);
      }
    } else {
      forall n: nat
        ensures !TrailerEndsAt(t, n)
      {
      }
    }
  }

  lemma OneEnd(t: seq<byte>, n: nat, k: nat)
    requires TrailerEndsAt(t, n) && TrailerEndsAt(t, k)
    ensures n == k
  {
    assert Terminated(t[..n]) && Terminated(t[..k]);
  }

  // ---------------------------------------------------------------- chunks

  /** One chunk with its size digits, its extensions and its data. */
  datatype Chunk = Chunk(digits: seq<byte>, ext: seq<byte>, data: seq<byte>)

  function HexNumber(digits: seq<byte>): (v: Option<nat>)
  {
    if digits == [] then Some(0)
    else
      var last := HexValue(digits[|digits| - 1]);
      var front := HexNumber(digits[..|digits| - 1]);
      if front.Some? && last.Some? then Some(front.value * 16 + last.value) else None
  }

  predicate ValidExtension(ext: seq<byte>)
  {
    ext != [] ==> ext[0] == SEMICOLON && LF !in ext
  }

  predicate ValidSizeLine(digits: seq<byte>, ext: seq<byte>, size: nat)
  {
    digits != [] && HexNumber(digits) == Some(size) && size < UNIT - 2 && ValidExtension(ext)
  }

  predicate ValidChunk(c: Chunk)
  {
    c.data != [] && ValidSizeLine(c.digits, c.ext, |c.data|)
  }

  function SizeLine(digits: seq<byte>, ext: seq<byte>): seq<byte> { digits + ext + CRLF }

  function EncodeChunk(c: Chunk): seq<byte> { SizeLine(c.digits, c.ext) + c.data + CRLF }

  function EncodeChunks(chunks: seq<Chunk>): seq<byte>
  {
    if chunks == [] then [] else EncodeChunk(chunks[0]) + EncodeChunks(chunks[1..])
  }

  function Payload(chunks: seq<Chunk>): seq<byte>
  {
    if chunks == [] then [] else chunks[0].data + Payload(chunks[1..])
  }

  lemma {:induction false} DigitsDecode(digits: seq<byte>, t: seq<byte>)
    requires HexNumber(digits).Some? && HexNumber(digits).value < UNIT
    ensures Decode(START, digits + t) == Decode(Line(HexNumber(digits).value, false, false), t)
    decreases |digits|
  {
    hide Decode;
    if digits == [] {
      assert digits + t == t;
    } else {
      var n := |digits| - 1;
      var front, last := digits[..n], digits[n];
      assert digits + t == front + ([last] + t);
      DigitsDecode(front, [last] + t);
      DecodeStep(Line(HexNumber(front).value, false, false), [last] + t);
      assert ([last] + t)[1..] == t;
    }
  }

  lemma {:induction false} ExtensionDecode(size: nat, ext: seq<byte>, t: seq<byte>)
    requires size < UNIT && LF !in ext
    ensures Decode(Line(size, true, false), ext + [LF] + t) == Prepend(EndOfLine(size).1, Decode(EndOfLine(size).0, t))
    decreases |ext|
  {
    var input := ext + [LF] + t;
    if ext == [] {
      assert input == [LF] + t && input[1..] == t;
    } else {
      assert input[0] == ext[0] && input[1..] == ext[1..] + [LF] + t;
      ExtensionDecode(size, ext[1..], t);
    }
  }

  lemma SizeLineDecode(digits: seq<byte>, ext: seq<byte>, size: nat, t: seq<byte>)
    requires ValidSizeLine(digits, ext, size)
    ensures Decode(START, SizeLine(digits, ext) + t) == Prepend(EndOfLine(size).1, Decode(EndOfLine(size).0, t))
  {
    var a := Line(size, false, false);
    var input := ext + CRLF + t;
    assert SizeLine(digits, ext) + t == digits + input;
    DigitsDecode(digits, input);
    if ext == [] {
      assert input == [CR, LF] + t && input[1..] == [LF] + t && input[1..][1..] == t;
      assert Decode(a, input) == Decode(a.(cr := true), input[1..]);
    } else {
      assert ext[1..] + [CR] + [LF] + t == input[1..];
      ExtensionDecode(size, ext[1..] + [CR], t);
    }
  }

  lemma ChunkDecode(c: Chunk, t: seq<byte>)
    requires ValidChunk(c)
    ensures Decode(START, EncodeChunk(c) + t) == Prepend(Octets(c.data), Decode(START, t))
  {
    hide Decode;
    var size := |c.data|;
    var input := c.data + CRLF + t;
    assert EncodeChunk(c) + t == SizeLine(c.digits, c.ext) + input;
    SizeLineDecode(c.digits, c.ext, size, input);
    BodyPrefix(size + 2, size, input);
    assert input[..size] == c.data && input[size..] == CRLF + t;
    Closing(CRLF + t);
    assert (CRLF + t)[2..] == t;
  }

  lemma {:induction false} ChunksDecode(chunks: seq<Chunk>, t: seq<byte>)
    requires forall c | c in chunks :: ValidChunk(c)
    ensures Decode(START, EncodeChunks(chunks) + t) == Prepend(Octets(Payload(chunks)), Decode(START, t))
    decreases |chunks|
  {
    if chunks == [] {
      assert [] + t == t && [] + Decode(START, t).out == Decode(START, t).out;
    } else {
      var others := EncodeChunks(chunks[1..]) + t;
      assert EncodeChunks(chunks) + t == EncodeChunk(chunks[0]) + others;
      ChunkDecode(chunks[0], others);
      ChunksDecode(chunks[1..], t);
      OctetsConcat(chunks[0].data, Payload(chunks[1..]));
      Assoc3(Octets(chunks[0].data), Octets(Payload(chunks[1..])), Decode(START, t).out);
    }
  }

  /** A chunked body: chunks, the zero chunk, and a trailer section up to and with its terminator. */
  datatype ChunkedBody = ChunkedBody(chunks: seq<Chunk>, zeros: seq<byte>, lastExt: seq<byte>, trailer: seq<byte>)

  ghost predicate ValidBody(b: ChunkedBody)
  {
    && (forall c | c in b.chunks :: ValidChunk(c))
    && ValidSizeLine(b.zeros, b.lastExt, 0)
    && TrailerEndsAt(b.trailer, |b.trailer|)
  }

  function EncodeBody(b: ChunkedBody): seq<byte>
  {
    EncodeChunks(b.chunks) + SizeLine(b.zeros, b.lastExt) + b.trailer
  }

  lemma TrailerDecode(trailer: seq<byte>, next: seq<byte>)
    requires TrailerEndsAt(trailer, |trailer|)
    ensures Decode(Trailer(0), trailer + next) == Decoded(Done, [], next)
  {
    hide Decode;
    var t := trailer + next;
    assert t[..|trailer|] == trailer == trailer[..|trailer|];
    assert forall m: nat | m < |trailer| :: t[..m] == trailer[..m];
    assert TrailerEndsAt(t, |trailer|);
    TrailerConsumedExactly(t);
    TrailerIsSilent(Trailer(0), t);
  }

  lemma BodyDecode(b: ChunkedBody, next: seq<byte>)
    requires ValidBody(b)
    ensures Decode(START, EncodeBody(b) + next) == Decoded(Done, Octets(Payload(b.chunks)) + [EndMark], next)
  {
    hide Decode;
    var chunks, zero := EncodeChunks(b.chunks), SizeLine(b.zeros, b.lastExt);
    Assoc3(chunks + zero, b.trailer, next);
    Assoc3(chunks, zero, b.trailer + next);
    ChunksDecode(b.chunks, zero + (b.trailer + next));
    SizeLineDecode(b.zeros, b.lastExt, 0, b.trailer + next);
    TrailerDecode(b.trailer, next);
    assert [EndMark] + [] == [EndMark];
  }

  /** Every valid body, followed by anything and cut in any way, is delivered whole, with one end mark, and
    * what follows the trailer terminator is not touched. */
  lemma ValidBodyDelivered(b: ChunkedBody, next: seq<byte>, segments: seq<seq<byte>>)
    requires ValidBody(b) && Flatten(segments) == EncodeBody(b) + next
    ensures DecodeSegments(START, segments) == Decoded(Done, Octets(Payload(b.chunks)) + [EndMark], next)
  {
    SegmentationInvisible(START, segments);
    BodyDecode(b, next);
  }

  /** And this is what the data handler gets. */
  method ReadBody(segments: seq<seq<byte>>, ghost b: ChunkedBody, ghost next: seq<byte>)
    returns (rest: seq<byte>, state: Word, chunks: seq<seq<byte>>)
    requires ValidBody(b) && Flatten(segments) == EncodeBody(b) + next
    ensures Calls(chunks) == Octets(Payload(b.chunks)) + [EndMark] && rest == next && state == NOT_STREAMING
  {
    hide Decode;
    BodyDecode(b, next);
    var tail;
    rest, state, tail, chunks := ConsumeSegments(segments, STATE_IS_CHUNKED, 0, START);
  }

  lemma {:induction false} TrailerIsSilent(a: State, t: seq<byte>)
    requires a.Trailer? && Live(a)
    ensures Decode(a, t).out == []
    decreases |t|
  {
    if t != [] && Step(a, t[0]).0.Trailer? {
      TrailerIsSilent(Step(a, t[0]).0, t[1..]);
    }
  }

  // ---------------------------------------------------------------- where the decoder departs from the grammar

  /** What is read as digits of the rest of a size line: all before its first CR or semicolon. */
  function Stem(line: seq<byte>): (p: seq<byte>)
    ensures p <= line
  {
    if line == [] || line[0] == CR || line[0] == SEMICOLON then [] else [line[0]] + Stem(line[1..])
  }

  ghost predicate Zeros(p: seq<byte>) { forall c | c in p :: c == 48 }

  /** Nothing is read any more: the line ends as if its size were known by now. */
  lemma {:induction false} SkippedToEnd(w: Word, line: seq<byte>, next: seq<byte>)
    requires !w.HasChunkSize() && !w.IsTrailer() && LF !in line
    ensures ReadSizeLine(w, true, line + [LF] + next) == (w.EndLine(), next)
    decreases |line|
  {
    var data := line + [LF] + next;
    if line == [] {
      assert data[1..] == next;
    } else {
      assert data[1..] == line[1..] + [LF] + next;
      SkippedToEnd(w, line[1..], next);
    }
  }

  lemma EndLineExtension(size: Size)
    ensures Word(6, size).EndLine() == Word(4, size).EndLine()
    ensures Word(4, size).EndLine() != STATE_IS_ERROR
  {
  }

  lemma EndLineInjective(a: Size, b: Size)
    ensures Word(4, a).EndLine() == Word(4, b).EndLine() ==> a == b
  {
  }

  /** The rest of a size line, read from a size `size`, ends the line with that size if and only if it adds no digits,
    * or only leading zeros. */
  lemma {:induction false} RestReadsIff(size: Size, line: seq<byte>, next: seq<byte>)
    requires LF !in line
    ensures var r := ReadSizeLine(Word(4, size), false, line + [LF] + next);
            && (r == (Word(4, size).EndLine(), next) <==> Stem(line) == [] || (size == 0 && Zeros(Stem(line))))
            && (r.0 == STATE_IS_ERROR || exists n: Size :: n >= size && r == (Word(4, n).EndLine(), next))
    decreases |line|
  {
    hide Word.EndLine;
    var w, data := Word(4, size), line + [LF] + next;
    EndLineExtension(size);
    if line == [] {
      assert data[1..] == next;
    } else {
      var c, tail := line[0], line[1..] + [LF] + next;
      assert data[1..] == tail && data[0] == c && c in line;
      if c == CR || c == SEMICOLON {
        SkippedToEnd(if c == CR then w else w.SetExtension(), line[1..], next);
      } else {
        assert Stem(line)[0] == c && c in Stem(line);
        ZeroDigit(c);
        if HexValue(c).Some? && size < OVERFLOW_LIMIT {
          DigitRead(size, c, line, next);
        }
      }
    }
  }

  lemma DigitRead(size: Size, c: byte, line: seq<byte>, next: seq<byte>)
    requires line != [] && line[0] == c && LF !in line && HexValue(c).Some? && size < OVERFLOW_LIMIT
    ensures var r := ReadSizeLine(Word(4, size), false, line + [LF] + next);
            && (r == (Word(4, size).EndLine(), next) <==> size == 0 && Zeros(Stem(line)))
            && (r.0 == STATE_IS_ERROR || exists n: Size :: n >= size && r == (Word(4, n).EndLine(), next))
    decreases |line|, 0
  {
    hide Word.EndLine;
    var bigger: Size := size * 16 + HexValue(c).value;
    var tail := line[1..] + [LF] + next;
    assert (line + [LF] + next)[1..] == tail;
    assert c !in {CR, LF, SEMICOLON};
    assert ReadSizeLine(Word(4, size), false, line + [LF] + next) == ReadSizeLine(Word(4, bigger), false, tail);
    RestReadsIff(bigger, line[1..], next);
    var stem := Stem(line[1..]);
    assert Stem(line) == [c] + stem;
    ZerosCons(c, stem);
    ZeroDigit(c);
    EndLineExtension(size);
    if bigger > size {
      forall n: Size | n >= bigger ensures Word(4, n).EndLine() != Word(4, size).EndLine() {
        EndLineInjective(n, size);
      }
    }
  }

  lemma ZerosCons(c: byte, p: seq<byte>)
    ensures Zeros([c] + p) <==> c == 48 && Zeros(p)
  {
    var q := [c] + p;
    assert forall x | x in q :: x == c || x in p;
    assert q[0] in q;
    forall x | x in p ensures x in q {
      var k :| 0 <= k < |p| && p[k] == x;
      assert q[k + 1] == x;
    }
  }

  lemma ZeroDigit(c: byte)
    ensures HexValue(c) == Some(0) <==> c == 48
  {
  }

  /** A size line that is cut right after a CR ends with the same size as one that is not, if and only if what follows
    * the CR adds no digits before the next CR, semicolon or LF, or only zeros to a size of zero. */
  lemma CutAfterCrIsInvisibleIff(size: Size, line: seq<byte>, next: seq<byte>)
    requires LF !in line
    ensures var w := Word(4, size);
            var first := ReadSizeLine(w, false, [CR]).0;
            && first == w
            && (ReadSizeLine(w, false, [CR] + line + [LF] + next) == ReadSizeLine(first, false, line + [LF] + next)
                <==> Stem(line) == [] || (size == 0 && Zeros(Stem(line))))
  {
    var w, whole := Word(4, size), [CR] + line + [LF] + next;
    assert [CR][1..] == [] && ReadSizeLine(w, false, [CR]).0 == ReadSizeLine(w, true, []).0;
    assert whole[1..] == line + [LF] + next;
    SkippedToEnd(w, line, next);
    RestReadsIff(size, line, next);
  }

  /** And no cut at all of the line after a CR can be seen if and only if all that follows may be skipped or read:
    * that is what the reference decoder takes for unambiguous. */
  lemma EveryCutIsInvisibleIff(size: Size, line: seq<byte>, next: seq<byte>)
    requires LF !in line
    ensures (forall k: nat | k <= |line| :: CutIsInvisible(size, line, k, next)) <==>
              forall c | c in line :: MaySkip(size, c)
  {
    if forall c | c in line :: MaySkip(size, c) {
      forall k: nat | k <= |line| ensures CutIsInvisible(size, line, k, next) {
        SkippableStem(size, line[k..]);
        CutReads(size, line, k, next);
      }
    } else {
      var i: nat :| i < |line| && !MaySkip(size, line[i]);
      assert Stem(line[i..])[0] == line[i] && line[i] in Stem(line[i..]);
      CutReads(size, line, i, next);
      assert !CutIsInvisible(size, line, i, next);
    }
  }

  /** The line is read alike whether or not it is cut `k` octets behind the CR. */
  ghost predicate CutIsInvisible(size: Size, line: seq<byte>, k: nat, next: seq<byte>)
    requires k <= |line|
  {
    var w := Word(4, size);
    var first := ReadSizeLine(w, false, [CR] + line[..k]).0;
    !first.HasChunkSize() && !first.IsTrailer()
    && ReadSizeLine(first, first.IsExtension(), line[k..] + [LF] + next) == ReadSizeLine(w, false,
      [CR] + line + [LF] + next)
  }

  lemma CutReads(size: Size, line: seq<byte>, k: nat, next: seq<byte>)
    requires LF !in line && k <= |line|
    ensures CutIsInvisible(size, line, k, next) <==> Stem(line[k..]) == [] || (size == 0 && Zeros(Stem(line[k..])))
  {
    var w, whole := Word(4, size), [CR] + line + [LF] + next;
    assert ([CR] + line[..k])[1..] == line[..k] && whole[1..] == line + [LF] + next;
    SkippedAll(w, line[..k]);
    SkippedToEnd(w, line, next);
    RestReadsIff(size, line[k..], next);
  }

  lemma {:induction false} SkippedAll(w: Word, line: seq<byte>)
    requires !w.HasChunkSize() && !w.IsTrailer() && LF !in line
    ensures ReadSizeLine(w, true, line) == (w, [])
    decreases |line|
  {
    if line != [] {
      SkippedAll(w, line[1..]);
    }
  }

  lemma {:induction false} SkippableStem(size: Size, line: seq<byte>)
    requires forall c | c in line :: MaySkip(size, c)
    ensures Stem(line) == [] || (size == 0 && Zeros(Stem(line)))
  {
    if line != [] {
      assert line[0] in line;
      SkippableStem(size, line[1..]);
    }
  }

  /** The word after the size line of a chunk counts the chunk's octets iff the size is below 2^60 - 2. */
  lemma SizeLineFitsIff(size: Size)
    ensures ReadSizeLine(Word(4, size), false, CRLF).0 == Word(12, (size + 2) % UNIT) <==> size < UNIT - 2
  {
    assert CRLF[1..] == [LF];
    assert ReadSizeLine(Word(4, size), false, CRLF) == ReadSizeLine(Word(4, size), true, [LF]);
    EndLineWord(Word(4, size));
  }

  // ---------------------------------------------------------------- the chunk writer

  function HexDigit(v: nat): byte
    requires v < 16
  {
    if v < 10 then (48 + v) as byte else (87 + v) as byte
  }

  function Hex(value: nat): (digits: seq<byte>)
    ensures digits != []
  {
    if value < 16 then [HexDigit(value)] else Hex(value / 16) + [HexDigit(value % 16)]
  }

  lemma HexDigitValue(v: nat)
    requires v < 16
    ensures HexValue(HexDigit(v)) == Some(v)
  {
  }

  lemma {:induction false} HexReadsBack(value: nat)
    ensures HexNumber(Hex(value)) == Some(value)
  {
    if value < 16 {
      HexDigitValue(value);
      assert HexNumber([]) == Some(0) && [HexDigit(value)][..0] == [];
    } else {
      HexReadsBack(value / 16);
      HexDigitValue(value % 16);
      var digits := Hex(value);
      assert digits[..|digits| - 1] == Hex(value / 16);
    }
  }

  function Pow16(n: nat): nat { if n == 0 then 1 else 16 * Pow16(n - 1) }

  lemma SixteenDigits(value: nat)
    requires value < 0x1_0000_0000_0000_0000
    ensures value / 16 < Pow16(15)
  {
    assert Pow16(3) == 0x1000;
    assert Pow16(6) == 0x100_0000;
    assert Pow16(9) == 0x10_0000_0000;
    assert Pow16(12) == 0x1_0000_0000_0000;
    assert Pow16(15) == 0x1000_0000_0000_0000;
  }

  lemma OneDigitLess(left: nat, room: nat)
    requires 0 < left < Pow16(room)
    ensures room >= 1 && left / 16 < Pow16(room - 1)
  {
  }

  /** The part of HttpResponse that writes chunks; `sent` is what follows the header block's last line. */
  class ChunkWriter {
    var sent: seq<byte>
    var isHead: bool
    /** Something was written: the response is in chunks. */
    var writeCalled: bool
    var done: bool

    constructor (isHead: bool)
      ensures sent == [] && this.isHead == isHead && !writeCalled && !done
    {
      sent, this.isHead, writeCalled, done := [], isHead, false, false;
    }

    method Send(octets: seq<byte>)
      modifies this`sent
      ensures sent == old(sent) + octets
    {
      sent := sent + octets;
    }

    method WriteUnsignedHex(value: nat)
      requires value < 0x1_0000_0000_0000_0000
      modifies this`sent
      ensures sent == old(sent) + Hex(value)
    {
      var buf := new byte[16];
      var start := 15;
      var left: nat := value / 16;
      buf[15] := HexDigit(value % 16);
      assert buf[15..] == [HexDigit(value % 16)];
      SixteenDigits(value);
      while left != 0
        invariant 0 <= start <= 15
        invariant left < Pow16(start)
        invariant Hex(value) == Front(left) + buf[start..]
        invariant sent == old(sent) && fresh(buf)
        decreases left
      {
        ghost var tail := buf[start..];
        OneDigitLess(left, start);
        MoreDigits(value, left, tail);
        start := start - 1;
        buf[start] := HexDigit(left % 16);
        assert buf[start..] == [HexDigit(left % 16)] + tail;
        left := left / 16;
      }
      assert Hex(value) == buf[start..];
      Send(buf[start..]);
    }

    method SendFrame(data: seq<byte>)
      requires 0 < |data| < 0x8000_0000
      modifies this`sent
      ensures sent == old(sent) + Frame(data)
    {
      Send(CRLF);
      WriteUnsignedHex(|data|);
      Send(CRLF);
      Send(data);
      Assoc3(old(sent), CRLF, Hex(|data|));
      Assoc3(old(sent), CRLF + Hex(|data|), CRLF);
      Assoc3(old(sent), CRLF + Hex(|data|) + CRLF, data);
    }

    /** `HttpResponse::write`: nothing for empty data, which would end the response. */
    method Write(data: seq<byte>)
      requires |data| < 0x8000_0000
      modifies this`sent, this`writeCalled
      ensures sent == old(sent) + if isHead then [] else Frame(data)
      ensures writeCalled <==> old(writeCalled) || data != []
    {
      if data == [] {
        return;
      }
      writeCalled := true;
      if isHead {
        return;
      }
      SendFrame(data);
    }

    /** The branch of `HttpResponse::internalEnd` taken once `write` has written something. */
    method End(data: seq<byte>)
      requires |data| < 0x8000_0000 && writeCalled
      modifies this
      ensures sent == old(sent) + if isHead then CRLF else Frame(data) + LAST_CHUNK
      ensures done && isHead == old(isHead)
    {
      if isHead {
        Send(CRLF);
      } else {
        if data != [] {
          SendFrame(data);
        }
        Send(LAST_CHUNK);
        Assoc3(old(sent), Frame(data), LAST_CHUNK);
      }
      done := true;
    }
  }

  function Front(left: nat): seq<byte> { if left > 0 then Hex(left) else [] }

  lemma MoreDigits(value: nat, left: nat, tail: seq<byte>)
    requires left > 0 && Hex(value) == Front(left) + tail
    ensures Hex(value) == Front(left / 16) + ([HexDigit(left % 16)] + tail)
  {
    assert Hex(left) == Front(left / 16) + [HexDigit(left % 16)];
    Assoc3(Front(left / 16), [HexDigit(left % 16)], tail);
  }

  const LAST_CHUNK: seq<byte> := [CR, LF, 48, CR, LF, CR, LF]

  /** What one write puts on the wire: the CRLF that ends what came before, then the chunk without its own. */
  function Frame(data: seq<byte>): seq<byte>
  {
    if data == [] then [] else CRLF + Hex(|data|) + CRLF + data
  }

  function Frames(writes: seq<seq<byte>>): seq<byte>
  {
    if writes == [] then [] else Frames(writes[..|writes| - 1]) + Frame(writes[|writes| - 1])
  }

  /** A response body in chunks: any writes, one of them not empty, then `end`. */
  method Respond(writes: seq<seq<byte>>, last: seq<byte>) returns (wire: seq<byte>)
    requires |last| < 0x8000_0000 && (forall w | w in writes :: |w| < 0x8000_0000) && exists w :: w in writes && w != []
    ensures wire == Frames(writes) + (Frame(last) + LAST_CHUNK)
  {
    var writer := new ChunkWriter(false);
    for i := 0 to |writes|
      invariant fresh(writer) && !writer.isHead
      invariant writer.sent == Frames(writes[..i])
      invariant (writer.writeCalled <==> exists j :: 0 <= j < i && writes[j] != [])
    {
      assert writes[..i + 1][..i] == writes[..i];
      writer.Write(writes[i]);
    }
    assert writes[..|writes|] == writes;
    ghost var w :| w in writes && w != [];
    writer.End(last);
    wire := writer.sent;
  }

  /** The writes that put anything on the wire, as chunks of the grammar. */
  function AsChunks(writes: seq<seq<byte>>): (chunks: seq<Chunk>)
  {
    if writes == [] then []
    else
      var last := writes[|writes| - 1];
      AsChunks(writes[..|writes| - 1]) + if last == [] then [] else [Chunk(Hex(|last|), [], last)]
  }

  lemma EncodeChunksAppend(chunks: seq<Chunk>, c: Chunk)
    ensures EncodeChunks(chunks + [c]) == EncodeChunks(chunks) + EncodeChunk(c)
    ensures Payload(chunks + [c]) == Payload(chunks) + c.data
  {
    if chunks == [] {
      assert [c][1..] == [];
    } else {
      assert (chunks + [c])[1..] == chunks[1..] + [c];
      EncodeChunksAppend(chunks[1..], c);
      assert EncodeChunk(chunks[0]) + (EncodeChunks(chunks[1..]) + EncodeChunk(c)) ==
             EncodeChunks(chunks) + EncodeChunk(c);
      assert chunks[0].data + (Payload(chunks[1..]) + c.data) == Payload(chunks) + c.data;
    }
  }

  lemma FrameIsChunk(data: seq<byte>)
    requires 0 < |data|
    ensures Frame(data) + CRLF == CRLF + EncodeChunk(Chunk(Hex(|data|), [], data))
  {
    var digits := Hex(|data|);
    assert digits + [] == digits;
    Assoc3(CRLF, digits, CRLF);
    Assoc3(CRLF, digits + CRLF, data);
    Assoc3(CRLF, digits + CRLF + data, CRLF);
  }

  lemma FrameAfter(sent: seq<byte>, encoded: seq<byte>, data: seq<byte>)
    requires 0 < |data| && sent + CRLF == CRLF + encoded
    ensures sent + Frame(data) + CRLF == CRLF + (encoded + EncodeChunk(Chunk(Hex(|data|), [], data)))
  {
    var chunk := EncodeChunk(Chunk(Hex(|data|), [], data));
    FrameIsChunk(data);
    Assoc3(sent, Frame(data), CRLF);
    Assoc3(sent, CRLF, chunk);
    Assoc3(CRLF, encoded, chunk);
  }

  lemma {:induction false} FramesAreChunks(writes: seq<seq<byte>>)
    ensures Frames(writes) + CRLF == CRLF + EncodeChunks(AsChunks(writes))
    decreases |writes|
  {
    if writes == [] {
      assert [] + CRLF == CRLF == CRLF + [];
    } else {
      var front, last := writes[..|writes| - 1], writes[|writes| - 1];
      FramesAreChunks(front);
      if last == [] {
        assert Frames(front) + [] == Frames(front) && AsChunks(front) + [] == AsChunks(front);
      } else {
        EncodeChunksAppend(AsChunks(front), Chunk(Hex(|last|), [], last));
        FrameAfter(Frames(front), EncodeChunks(AsChunks(front)), last);
      }
    }
  }

  lemma {:induction false} ChunksCarryWrites(writes: seq<seq<byte>>)
    requires forall w | w in writes :: |w| < 0x8000_0000
    ensures Payload(AsChunks(writes)) == Flatten(writes)
    ensures forall c | c in AsChunks(writes) :: ValidChunk(c)
    decreases |writes|
  {
    if writes != [] {
      var front, last := writes[..|writes| - 1], writes[|writes| - 1];
      ChunksCarryWrites(front);
      FlattenAppend(front, last);
      assert writes == front + [last];
      if last == [] {
        assert AsChunks(front) + [] == AsChunks(front);
      } else {
        HexReadsBack(|last|);
        EncodeChunksAppend(AsChunks(front), Chunk(Hex(|last|), [], last));
      }
    }
  }

  /** The body, in the terms of the grammar, that a series of writes and `end` sends. */
  function AsBody(writes: seq<seq<byte>>, last: seq<byte>): ChunkedBody
  {
    ChunkedBody(AsChunks(writes + [last]), [48], [], CRLF)
  }

  lemma WireIsBody(writes: seq<seq<byte>>, last: seq<byte>)
    requires |last| < 0x8000_0000 && forall w | w in writes :: |w| < 0x8000_0000
    ensures Frames(writes) + (Frame(last) + LAST_CHUNK) == CRLF + EncodeBody(AsBody(writes, last))
  {
    hide Frame, Frames, EncodeChunks, AsChunks, Hex;
    var all := writes + [last];
    FramesMore(writes, last);
    FramesAreChunks(all);
    var chunks, zero := EncodeChunks(AsChunks(all)), SizeLine([48], []);
    assert LAST_CHUNK == CRLF + (zero + CRLF);
    Assoc3(Frames(writes), Frame(last), LAST_CHUNK);
    Assoc3(Frames(all), CRLF, zero + CRLF);
    Assoc3(CRLF, chunks, zero + CRLF);
    Assoc3(chunks, zero, CRLF);
  }

  lemma FramesMore(writes: seq<seq<byte>>, last: seq<byte>)
    ensures Frames(writes + [last]) == Frames(writes) + Frame(last)
  {
    hide Frame;
    assert (writes + [last])[..|writes|] == writes;
  }

  lemma WrittenBodyIsValid(writes: seq<seq<byte>>, last: seq<byte>)
    requires |last| < 0x8000_0000 && forall w | w in writes :: |w| < 0x8000_0000
    ensures ValidBody(AsBody(writes, last)) && Payload(AsBody(writes, last).chunks) == Flatten(writes) + last
  {
    ChunksCarryWrites(writes + [last]);
    FlattenAppend(writes, last);
    assert [48][..0] == [] && HexNumber([]) == Some(0) && HexNumber([48]) == Some(0);
    assert CRLF[..2] == CRLF && CRLF[..0] == [] && CRLF[..1] == [CR];
  }

  /** Decoding what the writer emits after the CRLF that ends the header block gives back the concatenation of
    * everything written, one end mark, and nothing left over, however the wire is cut. */
  lemma WriterRoundTrip(writes: seq<seq<byte>>, last: seq<byte>, segments: seq<seq<byte>>)
    requires |last| < 0x8000_0000 && (forall w | w in writes :: |w| < 0x8000_0000) && exists w :: w in writes && w != []
    requires CRLF + Flatten(segments) == Frames(writes) + (Frame(last) + LAST_CHUNK)
    ensures DecodeSegments(START, segments) == Decoded(Done, Octets(Flatten(writes) + last) + [EndMark], [])
  {
    var body := AsBody(writes, last);
    WireIsBody(writes, last);
    WrittenBodyIsValid(writes, last);
    DropPrefix(CRLF, Flatten(segments), EncodeBody(body));
    assert EncodeBody(body) + [] == EncodeBody(body);
    ValidBodyDelivered(body, [], segments);
  }

  /** What was written is what the data handler at the other end gets, with one end mark, whatever `cut` makes of the
    * wire behind the CRLF that ends the header block. */
  method Echo(writes: seq<seq<byte>>, last: seq<byte>, cut: seq<byte> -> seq<seq<byte>>)
    returns (chunks: seq<seq<byte>>)
    requires |last| < 0x8000_0000 && (forall w | w in writes :: |w| < 0x8000_0000) && exists w :: w in writes && w != []
    requires forall x :: Flatten(cut(x)) == x
    ensures Calls(chunks) == Octets(Flatten(writes) + last) + [EndMark]
  {
    hide Decode;
    var wire := Respond(writes, last);
    WireIsBody(writes, last);
    var segments := cut(wire[2..]);
    WriterRoundTrip(writes, last, segments);
    SegmentationInvisible(START, segments);
    var rest, state, tail;
    rest, state, tail, chunks := ConsumeSegments(segments, STATE_IS_CHUNKED, 0, START);
  }

  lemma DropPrefix(p: seq<byte>, x: seq<byte>, y: seq<byte>)
    requires p + x == p + y
    ensures x == y
  {
    assert x == (p + x)[|p|..] == (p + y)[|p|..] == y;
  }
}
