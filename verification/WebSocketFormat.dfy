/** The frames the engine writes: `formatMessage` and `messageFrameSize` of WebSocketProtocol.h, and what the parser of
  * the other end makes of them. */
module WebSocketFormat {
  import opened Bytes
  import opened Octets
  import opened Masking
  import opened WebSocketStream

  /** An unsigned integer in network order, in `width` octets. */
  function ToBigEndian(n: nat, width: nat): (s: seq<octet>)
    ensures |s| == width
  {
    if width == 0 then [] else ToBigEndian(n / 256, width - 1) + [(n % 256) as octet]
  }

  function Pow256(n: nat): nat { if n == 0 then 1 else 256 * Pow256(n - 1) }

  lemma {:induction false} BigEndianRoundTrip(n: nat, width: nat)
    requires n < Pow256(width)
    ensures BigEndian(ToBigEndian(n, width)) == n
  {
    if width > 0 {
      BigEndianRoundTrip(n / 256, width - 1);
      assert ToBigEndian(n, width)[..width - 1] == ToBigEndian(n / 256, width - 1);
      OctetValue(n % 256);
    }
  }

  /** A frame: section 5.2 of RFC 6455.  A client's carries the key that masks it. */
  datatype Frame = Frame(fin: bool, op: octet, data: seq<octet>, key: Key)

  /** What a peer may send: continuations, messages, and control frames that are short and whole. */
  ghost predicate Legal(f: Frame)
  {
    && |f.data| < Pow256(8)
    && (f.op == CONTINUATION || Known(f.op)) && (!IsData(f.op) ==> f.fin && |f.data| <= 125)
  }

  function FirstOctet(fin: bool, op: octet): octet { (if fin then 128 else 0) | op }

  /** The mask bit and the length, in the shortest of the three forms. */
  function LengthField(isServer: bool, n: nat): (s: seq<octet>)
    ensures |s| == if n < 126 then 1 else if n <= 65535 then 3 else 9
  {
    var bit: octet := if isServer then 0 else 128;
    if n < 126 then [bit | (n as octet)]
    else if n <= 65535 then [bit | 126] + ToBigEndian(n, 2)
    else [bit | 127] + ToBigEndian(n, 8)
  }

  function HeaderField(isServer: bool, fin: bool, op: octet, length: nat, key: Key): seq<octet>
  {
    [FirstOctet(fin, op)] + LengthField(isServer, length) + if isServer then [] else key
  }

  function Encode(isServer: bool, f: Frame): (s: seq<octet>)
  {
    HeaderField(isServer, f.fin, f.op, |f.data|, f.key) + if isServer then f.data else Masked(f.data, f.key)
  }

  /** `messageFrameSize` */
  function MessageFrameSize(isServer: bool, messageSize: nat): (n: nat)
  {
    var maskSize := if isServer then 0 else 4;
    if messageSize < 126 then 2 + maskSize + messageSize
    else if messageSize <= 65535 then 4 + maskSize + messageSize
    else 10 + maskSize + messageSize
  }

  /** The bytes of a frame are as many as are reserved for it. */
  lemma FrameSize(isServer: bool, f: Frame)
    ensures |Encode(isServer, f)| == MessageFrameSize(isServer, |f.data|)
  {
  }

  lemma FirstOctetBits(fin: bool, op: octet)
    requires op <= 15
    ensures var b := FirstOctet(fin, op); IsFin(b) == fin && OpCode(b) == op && !Has(b, 64) && !Has(b, 48)
  {
  }

  lemma SecondOctetBits(bit: octet, n: octet)
    requires n < 128 && (bit == 0 || bit == 128)
    ensures PayloadLength(bit | n) == n && (Has(bit | n, 128) <==> bit == 128)
  {
  }

  /** The other end reads the header back, whatever follows it. */
  lemma HeaderRoundTrip(isServer: bool, f: Frame, next: seq<octet>)
    requires Legal(f)
    ensures var x := Encode(isServer, f) + next;
            ParseHeader(!isServer, x) ==
            Got(Header(f.fin, f.op, |f.data|, if isServer then NO_KEY else f.key, |Encode(isServer, f)| - |f.data|))
  {
    hide LengthField, Masked, BigEndian, Illegal;
    var x, field := Encode(isServer, f) + next, LengthField(isServer, |f.data|);
    LengthRoundTrip(isServer, |f.data|);
    FirstOctetBits(f.fin, f.op);
    HeaderPieces(isServer, f, next);
    NotIllegal(isServer, f, field[0]);
    assert PayloadLength(field[0]) < 126 <==> |field| == 1;
    assert PayloadLength(field[0]) == 126 ==> x[2..4] == field[1..];
    assert PayloadLength(field[0]) == 127 ==> x[2..10] == field[1..];
  }

  lemma HeaderPieces(isServer: bool, f: Frame, next: seq<octet>)
    ensures var x, field := Encode(isServer, f) + next, LengthField(isServer, |f.data|);
            && |x| >= 2 + |field| + (if isServer then 0 else 4) - 1
            && x[0] == FirstOctet(f.fin, f.op) && x[1] == field[0] && x[2..1 + |field|] == field[1..]
            && (!isServer ==> x[1 + |field|..5 + |field|] == f.key)
            && |Encode(isServer, f)| - |f.data| == 1 + |field| + if isServer then 0 else 4
  {
    hide LengthField;
    var x, field := Encode(isServer, f) + next, LengthField(isServer, |f.data|);
    var rest := (if isServer then [] else f.key) + (if isServer then f.data else Masked(f.data, f.key)) + next;
    assert x == [FirstOctet(f.fin, f.op)] + field + rest;
    assert x[1 + |field|..] == rest;
  }

  lemma NotIllegal(isServer: bool, f: Frame, second: octet)
    requires Legal(f) && (Has(second, 128) <==> !isServer)
    requires |f.data| <= 125 ==> PayloadLength(second) <= 125
    ensures !Illegal(!isServer, FirstOctet(f.fin, f.op), second)
  {
    FirstOctetBits(f.fin, f.op);
  }

  lemma LengthRoundTrip(isServer: bool, n: nat)
    requires n < Pow256(8)
    ensures var field := LengthField(isServer, n);
            var l := PayloadLength(field[0]);
            && (Has(field[0], 128) <==> !isServer)
            && (|field| == 1 ==> n <= 125 && l < 126 && l as nat == n)
            && (|field| == 3 ==> l == 126 && BigEndian(field[1..]) == n && n > 125)
            && (|field| == 9 ==> l == 127 && BigEndian(field[1..]) == n && n > 125)
  {
    hide BigEndian, ToBigEndian, PayloadLength, Has;
    if n < 126 {
      ShortLength(isServer, n);
    } else {
      LongLength(isServer, n);
    }
  }

  lemma ShortLength(isServer: bool, n: nat)
    requires n < 126
    ensures var field := LengthField(isServer, n);
            var l := PayloadLength(field[0]);
            (Has(field[0], 128) <==> !isServer) && |field| == 1 && l < 126 && l as nat == n
  {
    hide PayloadLength, Has;
    OctetValue(n);
    OctetBelow(n);
    SecondOctetBits(if isServer then 0 else 128, n as octet);
  }

  lemma LongLength(isServer: bool, n: nat)
    requires 126 <= n < Pow256(8)
    ensures var field := LengthField(isServer, n);
            && (Has(field[0], 128) <==> !isServer)
            && |field| == (if n <= 65535 then 3 else 9) && PayloadLength(field[0]) == (if n <= 65535 then 126 else 127)
            && BigEndian(field[1..]) == n
  {
    hide PayloadLength, Has, BigEndian, ToBigEndian;
    var field, bit: octet := LengthField(isServer, n), if isServer then 0 else 128;
    if n <= 65535 {
      SecondOctetBits(bit, 126);
      assert Pow256(2) == 65536;
      BigEndianRoundTrip(n, 2);
      assert field[1..] == ToBigEndian(n, 2);
    } else {
      SecondOctetBits(bit, 127);
      BigEndianRoundTrip(n, 8);
      assert field[1..] == ToBigEndian(n, 8);
    }
  }

  /** And unmasks the payload it was given. */
  lemma PayloadRoundTrip(isServer: bool, f: Frame, next: seq<octet>)
    requires Legal(f)
    ensures var x := Encode(isServer, f) + next;
            var size := |Encode(isServer, f)| - |f.data|;
            && Masked(x[size..size + |f.data|], if isServer then NO_KEY else f.key) == f.data
            && x[size + |f.data|..] == next
  {
    hide LengthField;
    var x, size := Encode(isServer, f) + next, |Encode(isServer, f)| - |f.data|;
    assert x[size..size + |f.data|] == if isServer then f.data else Masked(f.data, f.key);
    MaskedTwice(f.data, f.key);
    MaskedZero(f.data);
  }

  // ---------------------------------------------------------------- in place

  method Store(dst: array<octet>, at: nat, s: seq<octet>)
    requires at + |s| <= dst.Length
    modifies dst
    ensures Stored(old(dst[..]), dst[..], at, s)
  {
    forall i | at <= i < at + |s| {
      dst[i] := s[i - at];
    }
  }

  ghost predicate Stored(was: seq<octet>, now: seq<octet>, at: nat, s: seq<octet>)
  {
    && |was| == |now| && at + |s| <= |was|
    && now[at..at + |s|] == s && now[..at] == was[..at] && now[at + |s|..] == was[at + |s|..]
  }

  /** Two stores next to each other are one. */
  lemma StoredTwice(s0: seq<octet>, s1: seq<octet>, s2: seq<octet>, at: nat, x: seq<octet>, y: seq<octet>)
    requires Stored(s0, s1, at, x) && Stored(s1, s2, at + |x|, y)
    ensures Stored(s0, s2, at, x + y)
  {
    assert s2[at..at + |x + y|] == s2[at..at + |x|] + s2[at + |x|..at + |x| + |y|];
    assert s2[..at + |x|][at..] == s1[..at + |x|][at..];
    assert s2[..at + |x|][..at] == s1[..at + |x|][..at];
    assert s2[at + |x + y|..] == s1[at + |x|..][|y|..] == s0[at + |x|..][|y|..];
  }

  /** The first octet is stored after the others. */
  lemma StoredBefore(s0: seq<octet>, s1: seq<octet>, s2: seq<octet>, at: nat, x: seq<octet>, y: seq<octet>)
    requires Stored(s0, s1, at + |x|, y) && Stored(s1, s2, at, x)
    ensures Stored(s0, s2, at, x + y)
  {
    assert s2[at..at + |x + y|] == s2[at..at + |x|] + s2[at + |x|..][..|y|];
    assert s1[at + |x|..][..|y|] == y;
    assert s2[..at] == s1[..at + |x|][..at] == s0[..at];
    assert s2[at + |x + y|..] == s2[at + |x|..][|y|..] == s1[at + |x|..][|y|..] == s0[at + |x + y|..];
  }

  /** The length field; the mask bit is added afterwards by a client. */
  method WriteLength(isServer: bool, dst: array<octet>, at: nat, reportedLength: nat) returns (headerLength: nat)
    requires reportedLength < Pow256(8) && at + |LengthField(isServer, reportedLength)| <= dst.Length
    modifies dst
    ensures Stored(old(dst[..]), dst[..], at, LengthField(isServer, reportedLength))
    ensures headerLength == 1 + |LengthField(isServer, reportedLength)|
  {
    hide Stored, ToBigEndian;
    ghost var was := dst[..];
    var first: octet;
    var rest;
    if reportedLength < 126 {
      headerLength, first, rest := 2, reportedLength as octet, [];
    } else if reportedLength <= 65535 {
      headerLength, first, rest := 4, 126, ToBigEndian(reportedLength, 2);
    } else {
      headerLength, first, rest := 10, 127, ToBigEndian(reportedLength, 8);
    }
    if !isServer {
      first := 0x80 | first;
    }
    Store(dst, at, [first]);
    ghost var mid := dst[..];
    Store(dst, at + 1, rest);
    StoredTwice(was, mid, dst[..], at, [first], rest);
    ZeroBit(first);
    assert LengthField(isServer, reportedLength) == [first] + rest;
  }

  lemma ZeroBit(b: octet)
    ensures 0 | b == b
  {
  }

  method WriteHeader(isServer: bool, dst: array<octet>, at: nat, op: octet, reportedLength: nat, fin: bool, mask: Key)
    returns (headerLength: nat)
    requires reportedLength < Pow256(8) && at + |HeaderField(isServer, fin, op, reportedLength, mask)| <= dst.Length
    modifies dst
    ensures Stored(old(dst[..]), dst[..], at, HeaderField(isServer, fin, op, reportedLength, mask))
    ensures headerLength == |HeaderField(isServer, fin, op, reportedLength, mask)|
  {
    hide Stored, LengthField, FirstOctet;
    ghost var s0, field, first := dst[..], LengthField(isServer, reportedLength), [FirstOctet(fin, op)];
    assert HeaderField(isServer, fin, op, reportedLength, mask) == (first + field) + if isServer then [] else mask;
    headerLength := WriteLength(isServer, dst, at + 1, reportedLength);
    ghost var s1 := dst[..];
    Store(dst, at, [FirstOctet(fin, op)]);
    ghost var s2 := dst[..];
    StoredBefore(s0, s1, s2, at, first, field);
    if isServer {
      assert (first + field) + [] == first + field;
    } else {
      Store(dst, at + headerLength, mask);
      StoredTwice(s0, s2, dst[..], at, first + field, mask);
      headerLength := headerLength + 4;
    }
  }

  /** `formatMessage`: the header for `reportedLength` octets of payload, then `src`, masked in place by a client.
    * Nothing is written behind the frame. */
  method FormatMessage(isServer: bool, dst: array<octet>, at: nat, src: seq<octet>, op: octet, reportedLength: nat,
                       fin: bool, mask: Key)
    returns (n: nat)
    requires reportedLength < Pow256(8)
    requires at + |HeaderField(isServer, fin, op, reportedLength, mask)| + |src| <= dst.Length
    modifies dst
    ensures var header := HeaderField(isServer, fin, op, reportedLength, mask);
            n == |header| + |src|
              && Stored(old(dst[..]), dst[..], at, header + if isServer then src else Masked(src, mask))
  {
    hide Stored, HeaderField, Masked, Untouched;
    ghost var s0, header := dst[..], HeaderField(isServer, fin, op, reportedLength, mask);
    var headerLength := WriteHeader(isServer, dst, at, op, reportedLength, fin, mask);
    ghost var s1 := dst[..];
    n := headerLength + |src|;
    Store(dst, at + headerLength, src);
    if isServer {
      StoredTwice(s0, s1, dst[..], at, header, src);
    } else {
      ghost var s2 := dst[..];
      MaskPayload(dst, at + headerLength, |src|, mask);
      StoredMasked(s1, s2, dst[..], at + headerLength, src, mask);
      StoredTwice(s0, s1, dst[..], at, header, Masked(src, mask));
    }
  }

  lemma StoredMasked(s0: seq<octet>, s1: seq<octet>, s2: seq<octet>, at: nat, src: seq<octet>, mask: Key)
    requires Stored(s0, s1, at, src) && Untouched(s1, s2, at, at + |src|)
    requires s2[at..at + |src|] == Masked(s1[at..at + |src|], mask)
    ensures Stored(s0, s2, at, Masked(src, mask))
  {
    hide Masked;
    assert s1[at..at + |src|] == src;
    assert s2[..at] == s1[..at] && s2[at + |src|..] == s1[at + |src|..];
  }

  /** The payload in words of eight octets, then the rest one by one. */
  method MaskPayload(dst: array<octet>, payload: nat, length: nat, mask: Key)
    requires payload + length <= dst.Length
    modifies dst
    ensures dst[payload..payload + length] == Masked(old(dst[payload..payload + length]), mask)
    ensures Untouched(old(dst[..]), dst[..], payload, payload + length)
  {
    hide MaskedTo, Untouched;
    ghost var was := dst[..];
    NothingMasked(was, payload, payload, mask);
    var i := 0;
    ghost var words := 0;
    while i + 8 <= length
      invariant i <= length && i == 8 * words
      invariant MaskedTo(was, dst[..], payload, payload, i, mask) && Untouched(was, dst[..], payload, payload + i)
    {
      ghost var before := dst[..];
      UnmaskWord(dst, payload + i, payload + i, mask, 8);
      OneMoreWord(was, before, dst[..], payload, payload, i, 8, mask);
      i, words := i + 8, words + 1;
    }
    while i < length
      invariant i <= length
      invariant MaskedTo(was, dst[..], payload, payload, i, mask) && Untouched(was, dst[..], payload, payload + i)
    {
      ghost var before := dst[..];
      XorAt(dst, payload + i, mask[i % 4]);
      OneMoreOctet(was, before, dst[..], payload, i, mask);
      i := i + 1;
    }
    MaskedToSlice(was, dst[..], payload, payload, length, mask, length);
  }
}
