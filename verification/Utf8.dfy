/** Octets as bit vectors, for the parts of the engine that mask them. */
module Octets {
  type octet = bv8

  /** Bit `m` of `b` is set. */
  predicate Has(b: octet, m: octet) { b & m != 0 }

  lemma OctetValue(n: nat)
    requires n < 256
    ensures (n as octet) as nat == n
  {
    if n < 128 {
      if n < 64 {} else {}
    } else {
      if n < 192 {} else {}
    }
  }

  lemma OctetBelow(n: nat)
    requires n < 126
    ensures (n as octet) < 126
  {
  }
}

/** The UTF-8 checker of WebSocketProtocol.h against the grammar of section 4 of RFC 3629. */
module Utf8 {
  import opened Octets
  import opened Bytes

  predicate Tail(b: octet) { 0x80 <= b <= 0xBF }

  /** `UTF8-char` of section 4 of RFC 3629. */
  predicate IsChar(c: seq<octet>)
  {
    match |c|
    case 1 => c[0] <= 0x7F
    case 2 => 0xC2 <= c[0] <= 0xDF && Tail(c[1])
    case 3 =>
      && Tail(c[2])
      && (|| (c[0] == 0xE0 && 0xA0 <= c[1] <= 0xBF)
          || (0xE1 <= c[0] <= 0xEC && Tail(c[1]))
          || (c[0] == 0xED && 0x80 <= c[1] <= 0x9F)
          || (0xEE <= c[0] <= 0xEF && Tail(c[1])))
    case 4 =>
      && Tail(c[2]) && Tail(c[3])
      && (|| (c[0] == 0xF0 && 0x90 <= c[1] <= 0xBF)
          || (0xF1 <= c[0] <= 0xF3 && Tail(c[1]))
          || (c[0] == 0xF4 && 0x80 <= c[1] <= 0x8F))
    case _ => false
  }

  ghost predicate AreChars(chars: seq<seq<octet>>)
  {
    forall c | c in chars :: IsChar(c)
  }

  /** `UTF8-octets`: any number of characters. */
  ghost predicate IsUtf8(s: seq<octet>)
  {
    exists chars :: AreChars(chars) && Flatten(chars) == s
  }

  /** What starts with a character is well-formed exactly when the rest is. */
  lemma SkipChar(s: seq<octet>, n: nat)
    requires n <= |s| && IsChar(s[..n])
    ensures IsUtf8(s) <==> IsUtf8(s[n..])
  {
    if IsUtf8(s) {
      var chars :| AreChars(chars) && Flatten(chars) == s;
      FirstChar(s, chars);
      OnlyPrefix(s, |chars[0]|, n);
      assert AreChars(chars[1..]) && Flatten(chars[1..]) == s[n..];
    }
    if IsUtf8(s[n..]) {
      var chars :| AreChars(chars) && Flatten(chars) == s[n..];
      assert ([s[..n]] + chars)[1..] == chars;
      assert AreChars([s[..n]] + chars) && Flatten([s[..n]] + chars) == s;
    }
  }

  lemma FirstChar(s: seq<octet>, chars: seq<seq<octet>>)
    requires s != [] && AreChars(chars) && Flatten(chars) == s
    ensures chars != [] && chars[0] <= s && IsChar(s[..|chars[0]|])
  {
    assert s[..|chars[0]|] == chars[0];
  }

  /** The first octet of a character determines its length. */
  lemma OnlyPrefix(s: seq<octet>, n: nat, m: nat)
    requires n <= |s| && m <= |s| && IsChar(s[..n]) && IsChar(s[..m])
    ensures n == m
  {
  }

  /** What no character starts is not well-formed. */
  lemma NoChar(s: seq<octet>)
    requires s != [] && forall n | 1 <= n <= 4 && n <= |s| :: !IsChar(s[..n])
    ensures !IsUtf8(s)
  {
    if IsUtf8(s) {
      var chars :| AreChars(chars) && Flatten(chars) == s;
      FirstChar(s, chars);
    }
  }

  /** Eight octets loaded as a little-endian word. */
  function Word(s: seq<octet>): bv64
    requires |s| == 8
  {
    s[0] as bv64 | (s[1] as bv64 << 8) | (s[2] as bv64 << 16) | (s[3] as bv64 << 24)
    | (s[4] as bv64 << 32) | (s[5] as bv64 << 40) | (s[6] as bv64 << 48) | (s[7] as bv64 << 56)
  }

  const HIGH_BITS: bv64 := 0x8080808080808080

  /** The word test finds an octet above 7F exactly when there is one. */
  lemma HighBits(s: seq<octet>)
    requires |s| == 8
    ensures Word(s) & HIGH_BITS == 0 <==> forall k | 0 <= k < 8 :: s[k] & 0x80 == 0
  {
    HighBitsOf(s[0], s[1], s[2], s[3], s[4], s[5], s[6], s[7]);
  }

  lemma HighBitsOf(a: octet, b: octet, c: octet, d: octet, e: octet, f: octet, g: octet, h: octet)
    ensures Word([a, b, c, d, e, f, g, h]) & HIGH_BITS == 0 <==>
            (a | b | c | d | e | f | g | h) & 0x80 == 0
  {
  }

  lemma EitherWord(x: bv64, y: bv64)
    ensures (x & HIGH_BITS) | (y & HIGH_BITS) == 0 <==> x & HIGH_BITS == 0 && y & HIGH_BITS == 0
  {
  }

  /** Octets up to 7F are characters. */
  lemma {:induction false} SkipAscii(s: seq<octet>, n: nat)
    requires n <= |s| && forall k | 0 <= k < n :: s[k] <= 0x7F
    ensures IsUtf8(s) <==> IsUtf8(s[n..])
    decreases n
  {
    if n > 0 {
      SkipChar(s, 1);
      SkipAscii(s[1..], n - 1);
      assert s[1..][n - 1..] == s[n..];
    } else {
      assert s[0..] == s;
    }
  }

  lemma SkipFrom(s: seq<octet>, i: nat, n: nat)
    requires i + n <= |s| && forall k | i <= k < i + n :: s[k] & 0x80 == 0
    ensures IsUtf8(s[i..]) <==> IsUtf8(s[i + n..])
  {
    hide IsUtf8;
    forall k | 0 <= k < n
      ensures s[i..][k] <= 0x7F
    {
      assert s[i..][k] == s[i + k];
    }
    SkipAscii(s[i..], n);
    DropDrop(s, i, n);
  }

  lemma SkipWord(s: seq<octet>, i: nat)
    requires i + 8 <= |s| && Word(s[i..i + 8]) & HIGH_BITS == 0
    ensures IsUtf8(s[i..]) <==> IsUtf8(s[i + 8..])
  {
    hide IsUtf8, Word;
    HighBits(s[i..i + 8]);
    forall k | i <= k < i + 8
      ensures s[k] & 0x80 == 0
    {
      assert s[k] == s[i..i + 8][k - i];
    }
    SkipFrom(s, i, 8);
  }

  lemma NothingIsUtf8()
    ensures IsUtf8([])
  {
    assert Flatten<octet>([]) == [] && AreChars([]);
  }

  /** The masked tests on a lead octet above 7F and its successors: the length of the character, 0 for none. */
  method Multibyte(s: seq<octet>) returns (width: nat)
    requires s != [] && s[0] & 0x80 != 0
    ensures width <= |s| && width <= 4
    ensures width > 0 ==> IsChar(s[..width])
    ensures width == 0 ==> forall n | 1 <= n <= 4 && n <= |s| :: !IsChar(s[..n])
  {
    if s[0] & 0x60 == 0x40 {
      if 1 >= |s| || s[1] & 0xc0 != 0x80 || s[0] & 0xfe == 0xc0 {
        return 0;
      }
      return 2;
    } else if s[0] & 0xf0 == 0xe0 {
      if 2 >= |s| || s[1] & 0xc0 != 0x80 || s[2] & 0xc0 != 0x80
         || (s[0] == 0xe0 && s[1] & 0xe0 == 0x80) || (s[0] == 0xed && s[1] & 0xe0 == 0xa0) {
        return 0;
      }
      return 3;
    } else if s[0] & 0xf8 == 0xf0 {
      if 3 >= |s| || s[1] & 0xc0 != 0x80 || s[2] & 0xc0 != 0x80 || s[3] & 0xc0 != 0x80
         || (s[0] == 0xf0 && s[1] & 0xf0 == 0x80) || (s[0] == 0xf4 && s[1] > 0x8f) || s[0] > 0xf4 {
        return 0;
      }
      return 4;
    } else {
      return 0;
    }
  }

  /** `isValidUtf8` accepts exactly the strings of the grammar. */
  method IsValidUtf8(s: seq<octet>) returns (ok: bool)
    ensures ok <==> IsUtf8(s)
  {
    hide IsUtf8, IsChar, Word;
    NothingIsUtf8();
    var i := 0;
    assert s[0..] == s;
    while i < |s|
      invariant i <= |s| && (IsUtf8(s) <==> IsUtf8(s[i..]))
    {
      if i + 16 <= |s| {
        var low, high := Word(s[i..i + 8]), Word(s[i + 8..i + 16]);
        if (low & HIGH_BITS) | (high & HIGH_BITS) == 0 {
          EitherWord(low, high);
          SkipWord(s, i);
          SkipWord(s, i + 8);
          i := i + 16;
          continue;
        }
      }
      while s[i] & 0x80 == 0
        invariant i < |s| && (IsUtf8(s) <==> IsUtf8(s[i..]))
        decreases |s| - i
      {
        SkipFrom(s, i, 1);
        i := i + 1;
        if i == |s| {
          assert s[i..] == [];
          return true;
        }
      }
      var width := Multibyte(s[i..]);
      if width == 0 {
        NoChar(s[i..]);
        return false;
      }
      SkipChar(s[i..], width);
      DropDrop(s, i, width);
      i := i + width;
    }
    assert s[i..] == [];
    return true;
  }
}
