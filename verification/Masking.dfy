/** The masking of section 5.3 of RFC 6455, and the word-wide loops of WebSocketProtocol.h that do it in place. */
module Masking {
  import opened Octets

  /** A masking key: four octets. */
  ghost predicate IsKey(key: seq<octet>) { |key| == 4 }

  type Key = key: seq<octet> | |key| == 4 witness [0, 0, 0, 0]

  const NO_KEY: seq<octet> := [0, 0, 0, 0]

  /** Octet `i` of the payload is combined with octet `i mod 4` of the key. */
  function Masked(s: seq<octet>, key: seq<octet>): (r: seq<octet>)
    requires |key| == 4
    ensures |r| == |s|
  {
    seq(|s|, i requires 0 <= i < |s| => s[i] ^ key[i % 4])
  }

  /** The key as it applies to what follows `n` octets of payload. */
  function Rotated(key: seq<octet>, n: nat): (r: seq<octet>)
    requires |key| == 4
    ensures |r| == 4
  {
    [key[n % 4], key[(n + 1) % 4], key[(n + 2) % 4], key[(n + 3) % 4]]
  }

  lemma RotatedAt(key: seq<octet>, n: nat, i: nat)
    requires |key| == 4
    ensures Rotated(key, n)[i % 4] == key[(n + i) % 4]
  {
    assert i % 4 == 0 || i % 4 == 1 || i % 4 == 2 || i % 4 == 3;
  }

  /** Unmasking in two pieces, the second with the rotated key, is unmasking the whole. */
  lemma MaskedConcat(x: seq<octet>, y: seq<octet>, key: seq<octet>)
    requires |key| == 4
    ensures Masked(x + y, key) == Masked(x, key) + Masked(y, Rotated(key, |x|))
  {
    hide Rotated;
    var whole, parts := Masked(x + y, key), Masked(x, key) + Masked(y, Rotated(key, |x|));
    forall i | 0 <= i < |whole|
      ensures whole[i] == parts[i]
    {
      if i >= |x| {
        RotatedAt(key, |x|, i - |x|);
      }
    }
  }

  lemma RotatedTwice(key: seq<octet>, m: nat, n: nat)
    requires |key| == 4
    ensures Rotated(Rotated(key, m), n) == Rotated(key, m + n)
  {
    hide Rotated;
    forall i | 0 <= i < 4
      ensures Rotated(Rotated(key, m), n)[i] == Rotated(key, m + n)[i]
    {
      RotatedAt(Rotated(key, m), n, i);
      RotatedAt(key, m, n + i);
      RotatedAt(key, m + n, i);
    }
  }

  /** Masking is its own inverse. */
  lemma MaskedTwice(s: seq<octet>, key: seq<octet>)
    requires |key| == 4
    ensures Masked(Masked(s, key), key) == s
  {
    forall i | 0 <= i < |s|
      ensures Masked(Masked(s, key), key)[i] == s[i]
    {
      XorTwice(s[i], key[i % 4]);
    }
  }

  lemma XorTwice(a: octet, b: octet)
    ensures a ^ b ^ b == a && a ^ 0 == a
  {
  }

  /** A key of zeros changes nothing: what a client parser relies on, and the short cut for a zero mask. */
  lemma MaskedZero(s: seq<octet>)
    ensures Masked(s, NO_KEY) == s
  {
    forall i | 0 <= i < |s|
      ensures Masked(s, NO_KEY)[i] == s[i]
    {
      XorTwice(s[i], 0);
    }
  }

  lemma RotatedZero(n: nat)
    ensures Rotated(NO_KEY, n) == NO_KEY
  {
  }

  // ---------------------------------------------------------------- in place

  /** The octets written: `length` of them and the rest of the last word. */
  function Span(length: nat, width: nat): nat
    requires width > 0
  {
    width * (length / width + 1)
  }

  lemma SpanIs(length: nat)
    ensures Span(length, 4) == 4 * (length / 4 + 1) && Span(length, 8) == 8 * (length / 8 + 1)
  {
  }

  /** Outside [`from`, `to`) the buffer is as it was. */
  ghost predicate Untouched(was: seq<octet>, now: seq<octet>, from: int, to: int)
  {
    |now| == |was| && forall k :: 0 <= k < |was| && !(from <= k < to) ==> now[k] == was[k]
  }

  /** From `to` on the buffer holds what was at `from`, masked. */
  ghost predicate MaskedTo(was: seq<octet>, now: seq<octet>, from: nat, to: nat, length: nat, key: seq<octet>)
  {
    && |key| == 4 && to <= from && from + length <= |was| == |now|
    && forall k :: to <= k < to + length ==> now[k] == was[k + (from - to)] ^ key[(k - to) % 4]
  }

  lemma MaskedToSlice(was: seq<octet>, now: seq<octet>, from: nat, to: nat, length: nat, key: seq<octet>, n: nat)
    requires MaskedTo(was, now, from, to, length, key) && n <= length
    ensures now[to..to + n] == Masked(was[from..from + n], key)
  {
  }

  /** A word more. */
  lemma OneMoreWord(s0: seq<octet>, s1: seq<octet>, s2: seq<octet>, from: nat, to: nat, done: nat, width: nat,
                    key: seq<octet>)
    requires MaskedTo(s0, s1, from, to, done, key) && Untouched(s0, s1, to, to + done) && done % 4 == 0
    requires MaskedTo(s1, s2, from + done, to + done, width, key) && Untouched(s1, s2, to + done, to + done + width)
    ensures MaskedTo(s0, s2, from, to, done + width, key) && Untouched(s0, s2, to, to + done + width)
  {
    forall k | to <= k < to + done + width
      ensures s2[k] == s0[k + (from - to)] ^ key[(k - to) % 4]
    {
      if k >= to + done {
        assert (k - to) % 4 == (k - to - done) % 4;
        assert s2[k] == s1[k + (from - to)] ^ key[(k - to - done) % 4];
      }
    }
  }

  /** A word of `width` octets at `at` is loaded, combined with the key and stored at `to`. */
  method UnmaskWord(buf: array<octet>, at: nat, to: nat, key: seq<octet>, width: nat)
    requires |key| == 4 && to <= at && at + width <= buf.Length
    modifies buf
    ensures MaskedTo(old(buf[..]), buf[..], at, to, width, key)
    ensures Untouched(old(buf[..]), buf[..], to, to + width)
  {
    forall i | to <= i < to + width {
      buf[i] := buf[i + (at - to)] ^ key[(i - to) % 4];
    }
  }

  /** `unmaskImprecise8` and `unmaskImprecise4`: whole words from `src` to `src - destination`, one word more than
    * `length` fills. */
  method UnmaskWords(buf: array<octet>, src: nat, destination: nat, key: seq<octet>, length: nat, width: nat)
    requires |key| == 4 && (width == 4 || width == 8)
    requires destination <= src && src + Span(length, width) <= buf.Length
    modifies buf
    ensures MaskedTo(old(buf[..]), buf[..], src, src - destination, Span(length, width), key)
    ensures Untouched(old(buf[..]), buf[..], src - destination, src - destination + Span(length, width))
  {
    hide MaskedTo, Untouched, Span;
    SpanIs(length);
    ghost var was, to, quads, q := buf[..], src - destination, Span(length, width) / 4, 0;
    NothingMasked(was, src, to, key);
    var n, done := if width == 8 then length / 8 + 1 else length / 4 + 1, 0;
    while n > 0
      invariant 0 <= n && 0 <= q && done == 4 * q && quads == if width == 8 then q + 2 * n else q + n
      invariant MaskedTo(was, buf[..], src, to, done, key) && Untouched(was, buf[..], to, to + done)
    {
      ghost var before := buf[..];
      UnmaskWord(buf, src + done, src + done - destination, key, width);
      OneMoreWord(was, before, buf[..], src, to, done, width, key);
      n, done, q := n - 1, done + width, q + width / 4;
    }
  }

  lemma NothingMasked(s: seq<octet>, from: nat, to: nat, key: seq<octet>)
    requires to <= from <= |s| && |key| == 4
    ensures MaskedTo(s, s, from, to, 0, key) && Untouched(s, s, to, to)
  {
  }

  /** `unmaskImpreciseCopyMask`: a whole frame of `length` octets of payload behind a header of `header` octets is
    * unmasked and moved down over its header.  No octet behind the frame changes. */
  method UnmaskFrame(buf: array<octet>, payload: nat, header: nat, length: nat)
    requires header == 6 || header == 8 || header == 14
    requires header <= payload && payload + length + 8 <= buf.Length
    modifies buf
    ensures buf[payload - header..payload - header + length] == Masked(old(buf[payload..payload + length]),
              old(buf[payload - 4..payload]))
    ensures buf[payload + length..] == old(buf[payload + length..])
    ensures buf[..payload - header] == old(buf[..payload - header])
  {
    hide MaskedTo;
    ghost var was := buf[..];
    var key := buf[payload - 4..payload];
    var width := if header != 6 then 8 else 4;
    UnmaskWords(buf, payload, header, key, length, width);
    MaskedToSlice(was, buf[..], payload, payload - header, Span(length, width), key, length);
    FrameSpan(length, header);
  }

  /** The words stored for a frame end before the frame does. */
  lemma FrameSpan(length: nat, header: nat)
    requires header == 6 || header == 8 || header == 14
    ensures length <= Span(length, 8) <= length + 8 && length <= Span(length, 4) <= length + 4
    ensures Span(length, if header != 6 then 8 else 4) <= length + header
  {
  }

  /** `unmaskInplace`: groups of four octets until `stop` is reached or passed. */
  method UnmaskInPlace(buf: array<octet>, data: nat, stop: nat, key: array<octet>)
    requires key.Length == 4 && buf != key && data <= stop && (stop - data) % 4 == 0 && stop <= buf.Length
    modifies buf
    ensures MaskedTo(old(buf[..]), buf[..], data, data, stop - data, key[..])
    ensures Untouched(old(buf[..]), buf[..], data, stop)
  {
    hide MaskedTo, Untouched;
    ghost var was := buf[..];
    NothingMasked(was, data, data, key[..]);
    var at := data;
    while at < stop
      invariant data <= at <= stop && (at - data) % 4 == 0
      invariant MaskedTo(was, buf[..], data, data, at - data, key[..]) && Untouched(was, buf[..], data, at)
    {
      ghost var before := buf[..];
      UnmaskFour(buf, at, key);
      OneMoreWord(was, before, buf[..], data, data, at - data, 4, key[..]);
      at := at + 4;
    }
  }

  lemma FourOctets(was: seq<octet>, now: seq<octet>, at: nat, key: seq<octet>)
    requires |key| == 4 && at + 4 <= |was| == |now|
    requires now == was[at := was[at] ^ key[0]][at + 1 := was[at + 1] ^ key[1]][at + 2 :=
               was[at + 2] ^ key[2]][at + 3 := was[at + 3] ^ key[3]]
    ensures MaskedTo(was, now, at, at, 4, key) && Untouched(was, now, at, at + 4)
  {
    forall k | at <= k < at + 4
      ensures now[k] == was[k] ^ key[(k - at) % 4]
    {
      assert k == at || k == at + 1 || k == at + 2 || k == at + 3;
    }
  }

  method UnmaskFour(buf: array<octet>, at: nat, key: array<octet>)
    requires key.Length == 4 && buf != key && at + 4 <= buf.Length
    modifies buf
    ensures MaskedTo(old(buf[..]), buf[..], at, at, 4, key[..])
    ensures Untouched(old(buf[..]), buf[..], at, at + 4)
  {
    ghost var was, k := buf[..], key[..];
    XorAt(buf, at, key[0]);
    XorAt(buf, at + 1, key[1]);
    XorAt(buf, at + 2, key[2]);
    XorAt(buf, at + 3, key[3]);
    assert key[..] == k;
    FourOctets(was, buf[..], at, k);
  }

  method XorAt(buf: array<octet>, i: nat, k: octet)
    requires i < buf.Length
    modifies buf
    ensures buf[..] == old(buf[..])[i := old(buf[i]) ^ k]
  {
    buf[i] := buf[i] ^ k;
  }

  /** LIBUS_RECV_BUFFER_LENGTH */
  const RECV_BUFFER_LENGTH: nat := 524288

  /** `unmaskAll`: a read that fills the receive buffer, sixteen octets at a time. */
  method UnmaskAll(buf: array<octet>, data: nat, key: array<octet>)
    requires key.Length == 4 && buf != key && data + RECV_BUFFER_LENGTH <= buf.Length
    modifies buf
    ensures MaskedTo(old(buf[..]), buf[..], data, data, RECV_BUFFER_LENGTH, key[..])
    ensures Untouched(old(buf[..]), buf[..], data, data + RECV_BUFFER_LENGTH)
  {
    hide MaskedTo, Untouched;
    ghost var was := buf[..];
    NothingMasked(was, data, data, key[..]);
    var i := 0;
    while i < RECV_BUFFER_LENGTH
      invariant 0 <= i <= RECV_BUFFER_LENGTH && i % 16 == 0
      invariant MaskedTo(was, buf[..], data, data, i, key[..]) && Untouched(was, buf[..], data, data + i)
    {
      ghost var before := buf[..];
      UnmaskWord(buf, data + i, data + i, key[..], 16);
      OneMoreWord(was, before, buf[..], data, data, i, 16, key[..]);
      i := i + 16;
    }
  }

  lemma RotatedBack(original: seq<octet>, now: seq<octet>, offset: nat)
    requires |original| == 4 && |now| == 4 && offset <= 4
    requires forall i | 0 <= i < 4 :: now[(i + offset) % 4] == original[i]
    ensures now == Rotated(original, 4 - offset)
  {
    if offset == 0 || offset == 4 {
      assert now[(0 + offset) % 4] == original[0] && now[(1 + offset) % 4] == original[1];
      assert now[(2 + offset) % 4] == original[2] && now[(3 + offset) % 4] == original[3];
    } else if offset == 1 {
      assert now[(3 + offset) % 4] == original[3];
    } else if offset == 2 {
      assert now[(2 + offset) % 4] == original[2] && now[(3 + offset) % 4] == original[3];
    } else {
      assert now[(1 + offset) % 4] == original[1] && now[(2 + offset) % 4] == original[2];
    }
  }

  lemma Distinct(offset: nat)
    ensures offset % 4 != (1 + offset) % 4 && offset % 4 != (2 + offset) % 4 && offset % 4 != (3 + offset) % 4
    ensures (1 + offset) % 4 != (2 + offset) % 4 && (1 + offset) % 4 != (3 + offset) % 4
    ensures (2 + offset) % 4 != (3 + offset) % 4
  {
  }

  /** `rotateMask` */
  method RotateMask(offset: nat, mask: array<octet>)
    requires mask.Length == 4 && offset <= 4
    modifies mask
    ensures mask[..] == Rotated(old(mask[..]), 4 - offset)
  {
    hide Rotated;
    var original := mask[..];
    Distinct(offset);
    mask[offset % 4] := original[0];
    mask[(1 + offset) % 4] := original[1];
    mask[(2 + offset) % 4] := original[2];
    mask[(3 + offset) % 4] := original[3];
    RotatedBack(original, mask[..], offset);
  }

  lemma RotatedMod(key: seq<octet>, n: nat)
    requires |key| == 4
    ensures Rotated(key, n % 4) == Rotated(key, n)
  {
    assert (n % 4) % 4 == n % 4;
    assert (n % 4 + 1) % 4 == (n + 1) % 4 && (n % 4 + 2) % 4 == (n + 2) % 4 && (n % 4 + 3) % 4 == (n + 3) % 4;
  }

  /** The rest of a frame: groups of four octets, then what is left of the last one.  Nothing behind it changes. */
  method UnmaskRest(buf: array<octet>, src: nat, count: nat, mask: array<octet>)
    requires mask.Length == 4 && buf != mask && src + count <= buf.Length
    modifies buf
    ensures buf[src..src + count] == Masked(old(buf[src..src + count]), mask[..])
    ensures buf[src + count..] == old(buf[src + count..])
  {
    hide MaskedTo;
    ghost var was := buf[..];
    var n := count / 4;
    UnmaskInPlace(buf, src, src + n * 4, mask);
    for i := 0 to count % 4
      invariant MaskedTo(was, buf[..], src, src, n * 4 + i, mask[..]) && Untouched(was, buf[..], src, src + n * 4 + i)
    {
      ghost var before, k := buf[..], mask[..];
      XorAt(buf, src + n * 4 + i, mask[i]);
      OneMoreOctet(was, before, buf[..], src, n * 4 + i, k);
    }
    MaskedToSlice(was, buf[..], src, src, count, mask[..], count);
  }

  lemma OneMoreOctet(s0: seq<octet>, s1: seq<octet>, s2: seq<octet>, at: nat, done: nat, key: seq<octet>)
    requires MaskedTo(s0, s1, at, at, done, key) && Untouched(s0, s1, at, at + done) && at + done < |s1|
    requires s2 == s1[at + done := s1[at + done] ^ key[done % 4]]
    ensures MaskedTo(s0, s2, at, at, done + 1, key) && Untouched(s0, s2, at, at + done + 1)
  {
  }

  /** A read inside a frame: nothing to do for a zero mask, otherwise whole groups of four octets, which may go up to
    * four octets past the read; a read that fills the receive buffer is done in one sweep. */
  method UnmaskPart(buf: array<octet>, src: nat, length: nat, mask: array<octet>)
    requires mask.Length == 4 && buf != mask && src + length + 4 <= buf.Length
    modifies buf
    ensures buf[src..src + length] == Masked(old(buf[src..src + length]), mask[..])
  {
    ghost var was := buf[..];
    if mask[0] == 0 && mask[1] == 0 && mask[2] == 0 && mask[3] == 0 {
      assert mask[..] == NO_KEY;
      MaskedZero(buf[src..src + length]);
    } else if length == RECV_BUFFER_LENGTH {
      UnmaskAll(buf, src, mask);
      MaskedToSlice(was, buf[..], src, src, RECV_BUFFER_LENGTH, mask[..], length);
    } else {
      UnmaskInPlace(buf, src, src + (length / 4 + 1) * 4, mask);
      MaskedToSlice(was, buf[..], src, src, (length / 4 + 1) * 4, mask[..], length);
    }
  }

  method CopyMask(buf: array<octet>, at: nat, mask: array<octet>)
    requires mask.Length == 4 && buf != mask && at + 4 <= buf.Length
    modifies mask
    ensures mask[..] == buf[at..at + 4]
  {
    forall i | 0 <= i < 4 {
      mask[i] := buf[at + i];
    }
  }

  /** The start of a frame that goes on behind the read: its key is kept, rotated to where the payload goes on.  The
    * words unmasked may go past the read by a header and a word. */
  method UnmaskStart(buf: array<octet>, payload: nat, end: nat, header: nat, mask: array<octet>)
    requires mask.Length == 4 && buf != mask && (header == 6 || header == 8 || header == 14)
    requires header <= payload <= end && end + header + 8 <= buf.Length
    modifies buf, mask
    ensures buf[payload..end] == Masked(old(buf[payload..end]), old(buf[payload - 4..payload]))
    ensures mask[..] == Rotated(old(buf[payload - 4..payload]), end - payload)
  {
    hide MaskedTo, Untouched, Masked, Rotated, Span;
    ghost var was := buf[..];
    var key := buf[payload - 4..payload];
    var length := end - payload + header;
    CopyMask(buf, payload - 4, mask);
    FrameSpan(length, header);
    UnmaskWords(buf, payload, 0, key, length, 8);
    MaskedToSlice(was, buf[..], payload, payload, Span(length, 8), key, end - payload);
    RotateMask(4 - (end - payload) % 4, mask);
    RotatedMod(key, end - payload);
  }
}
