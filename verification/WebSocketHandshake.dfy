/** The handshake of WebSocketHandshake.h: SHA-1 over a rolling schedule and rotating registers, and base 64. */
module WebSocketHandshake {
  import opened Octets
  import opened WebSocketFormat

  type word = bv32
  type octet8 = bv8

  // ---------- Section 6.1 of FIPS 180-4 ----------

  function Rol(x: word, n: nat): word
    requires 0 < n < 32
  {
    (x << n) | (x >> (32 - n))
  }

  /** A block of sixteen words. */
  type Block = b: seq<word> | |b| == 16 witness seq(16, _ => 0)

  /** The message schedule. */
  function W(m: Block, t: nat): word
  {
    if t < 16 then m[t] else Rol(W(m, t - 3) ^ W(m, t - 8) ^ W(m, t - 14) ^ W(m, t - 16), 1)
  }

  function Ch(x: word, y: word, z: word): word { (x & y) ^ (!x & z) }

  function Parity(x: word, y: word, z: word): word { x ^ y ^ z }

  function Maj(x: word, y: word, z: word): word { (x & y) ^ (x & z) ^ (y & z) }

  function F(t: nat, x: word, y: word, z: word): word
  {
    if t < 20 then Ch(x, y, z) else if 40 <= t < 60 then Maj(x, y, z) else Parity(x, y, z)
  }

  function K(t: nat): word
  {
    if t < 20 then 0x5a827999 else if t < 40 then 0x6ed9eba1 else if t < 60 then 0x8f1bbcdc else 0xca62c1d6
  }

  /** The working variables, or a hash value. */
  datatype Registers = Registers(a: word, b: word, c: word, d: word, e: word)

  function Sum(v: word, f: word, e: word, k: word, w: word): word { v + f + e + k + w }

  function Step(r: Registers, t: nat, w: word): Registers
  {
    Registers(Sum(Rol(r.a, 5), F(t, r.b, r.c, r.d), r.e, K(t), w), r.a, Rol(r.b, 30), r.c, r.d)
  }

  function Rounds(h: Registers, m: Block, t: nat): Registers
  {
    if t == 0 then h else Step(Rounds(h, m, t - 1), t - 1, W(m, t - 1))
  }

  function Compress(h: Registers, m: Block): Registers
  {
    var r := Rounds(h, m, 80);
    Registers(Plus(r.a, h.a), Plus(r.b, h.b), Plus(r.c, h.c), Plus(r.d, h.d), Plus(r.e, h.e))
  }

  function Plus(x: word, y: word): word { x + y }

  const INITIAL := Registers(0x67452301, 0xefcdab89, 0x98badcfe, 0x10325476, 0xc3d2e1f0)

  // ---------- One block, in place ----------

  /** The registers where round `t` looks for them: `e` in the slot the round writes. */
  predicate Rotated(s: seq<word>, t: nat, r: Registers)
  {
    && |s| == 5 && s[t % 5] == r.e && s[(t + 1) % 5] == r.d && s[(t + 2) % 5] == r.c && s[(t + 3) % 5] == r.b
    && s[(t + 4) % 5] == r.a
  }

  /** The last sixteen words of the schedule, each in its slot. */
  predicate Rolling(s: seq<word>, m: Block, t: nat)
  {
    |s| == 16 && t >= 16 && forall j: nat | t - 16 <= j < t :: s[Slot(j)] == W(m, j)
  }

  function Slot(j: nat): (i: nat)
    ensures i < 16
  {
    j % 16
  }

  /** What a round writes: the sum to the slot of `e`, and `b` rotated. */
  function Written(s: seq<word>, t: nat, sum: word): seq<word>
    requires |s| == 5
  {
    s[t % 5 := sum][(t + 3) % 5 := Rol(s[(t + 3) % 5], 30)]
  }

  lemma Turned(s: seq<word>, u: nat, t: nat, r: Registers, w: word, sum: word)
    requires Rotated(s, u, r) && sum == Step(r, t, w).a
    ensures Rotated(Written(s, u, sum), u + 1, Step(r, t, w))
  {
    hide Step, Rol, F, K, Sum;
    StepShift(r, t, w);
    Fifths(u);
  }

  lemma Fifths(u: nat)
    ensures var q := u % 5;
            && (u + 1) % 5 == (if q < 4 then q + 1 else q - 4) && (u + 2) % 5 == (if q < 3 then q + 2 else q - 3)
            && (u + 3) % 5 == (if q < 2 then q + 3 else q - 2) && (u + 4) % 5 == (if q < 1 then q + 4 else q - 1)
            && (u + 5) % 5 == q
  {
  }

  lemma StepShift(r: Registers, t: nat, w: word)
    ensures var n := Step(r, t, w); n.b == r.a && n.c == Rol(r.b, 30) && n.d == r.c && n.e == r.d
  {
  }

  /** `blk` */
  function Blk(b: seq<word>, i: nat): word
    requires |b| == 16 && i < 16
  {
    Rol(b[(i + 13) % 16] ^ b[(i + 8) % 16] ^ b[(i + 2) % 16] ^ b[i], 1)
  }

  lemma Slots(t: nat)
    requires t >= 16
    ensures var i := Slot(t);
            Slot(t - 3) == (i + 13) % 16 && Slot(t - 8) == (i + 8) % 16 && Slot(t - 14) == (i + 2) % 16
              && Slot(t - 16) == i
  {
  }

  lemma SlotOf(t: nat, j: nat)
    requires t >= 16 && t - 15 <= j <= t
    ensures Slot(j) == Slot(t) <==> j == t
  {
  }

  /** The word of round `t` is made from the sixteen before it. */
  lemma BlkIs(s: seq<word>, m: Block, t: nat)
    requires Rolling(s, m, t)
    ensures Blk(s, Slot(t)) == W(m, t)
  {
    hide Rol, Slot;
    Slots(t);
  }

  /** And takes the place of the oldest. */
  lemma Rolled(s: seq<word>, m: Block, t: nat)
    requires Rolling(s, m, t)
    ensures Rolling(s[Slot(t) := W(m, t)], m, t + 1)
  {
    hide W, Slot;
    forall j: nat | t - 15 <= j < t + 1 ensures s[Slot(t) := W(m, t)][Slot(j)] == W(m, j) {
      SlotOf(t, j);
    }
  }

  // The sums of the rounds, as they are written, against those of the standard.

  function Choose(x: word, y: word, z: word): word { (x & (y ^ z)) ^ z }

  function Majorize(x: word, y: word, z: word): word { ((x | y) & z) | (x & y) }

  lemma ChoiceBits(x: word, y: word, z: word)
    ensures (x & (y ^ z)) ^ z == (x & y) ^ (!x & z)
  {
  }

  lemma MajorityBits(x: word, y: word, z: word)
    ensures ((x | y) & z) | (x & y) == (x & y) ^ (x & z) ^ (y & z)
  {
  }

  lemma Choice(x: word, y: word, z: word)
    ensures Choose(x, y, z) == Ch(x, y, z)
  {
    ChoiceBits(x, y, z);
  }

  lemma Majority(x: word, y: word, z: word)
    ensures Majorize(x, y, z) == Maj(x, y, z)
  {
    MajorityBits(x, y, z);
  }

  /** The sum as the rounds write it. */
  function Added(e: word, f: word, w: word, k: word, r: word): word { e + (f + w + k + r) }

  lemma SumOf(e: word, f: word, w: word, k: word, v: word)
    ensures Added(e, f, w, k, v) == Sum(v, f, e, k, w)
  {
  }

  /** A round, given what it adds to the slot of `e`; what is left of the number of the round by five tells where. */
  lemma RoundDone(s: seq<word>, u: nat, t: nat, h: Registers, m: Block, f: word, w: word, k: word)
    requires var r := Rounds(h, m, t); Rotated(s, u, r) && f == F(t, r.b, r.c, r.d) && w == W(m, t) && k == K(t)
    requires t % 5 == u % 5
    ensures Rotated(Written(s, u, Added(s[u % 5], f, w, k, Rol(s[(u + 4) % 5], 5))), u + 1, Rounds(h, m, t + 1))
  {
    hide Rol, F, K, W, Written, Sum, Added;
    var r := Rounds(h, m, t);
    SumOf(r.e, f, w, k, Rol(r.a, 5));
    Turned(s, u, t, r, w, Added(r.e, f, w, k, Rol(r.a, 5)));
  }

  /** What is mixed in each of the four stages is what the standard says. */
  lemma Stages(t: nat, x: word, y: word, z: word)
    ensures t < 20 ==> F(t, x, y, z) == Choose(x, y, z) && K(t) == 0x5a827999
    ensures 20 <= t < 40 ==> F(t, x, y, z) == Parity(x, y, z) && K(t) == 0x6ed9eba1
    ensures 40 <= t < 60 ==> F(t, x, y, z) == Majorize(x, y, z) && K(t) == 0x8f1bbcdc
    ensures 60 <= t ==> F(t, x, y, z) == Parity(x, y, z) && K(t) == 0xca62c1d6
  {
    hide Ch, Maj, Parity, Choose, Majorize;
    Choice(x, y, z);
    Majority(x, y, z);
  }

  /** `Sha1Loop1`: rounds 0 to 15. */
  method Loop1(a: array<word>, b: array<word>, ghost h: Registers, ghost m: Block)
    requires a != b && b[..] == m && Rotated(a[..], 0, h)
    modifies a
    ensures Rotated(a[..], 16, Rounds(h, m, 16))
  {
    hide Rol, F, K, Step, Choose, Added;
    var i := 0;
    while i < 16
      invariant i <= 16 && b[..] == m && Rotated(a[..], i, Rounds(h, m, i))
    {
      ghost var s := a[..];
      Stages(i, s[(3 + i) % 5], s[(2 + i) % 5], s[(1 + i) % 5]);
      var f := Choose(a[(3 + i) % 5], a[(2 + i) % 5], a[(1 + i) % 5]);
      RoundDone(s, i, i, h, m, f, b[i], 0x5a827999);
      Round(a, i, Added(a[i % 5], f, b[i], 0x5a827999, Rol(a[(4 + i) % 5], 5)));
      i := i + 1;
    }
  }

  method Round(a: array<word>, i: nat, sum: word)
    requires a.Length == 5
    modifies a
    ensures a[..] == Written(old(a[..]), i, sum)
  {
    hide Rol;
    a[i % 5] := sum;
    a[(3 + i) % 5] := Rol(a[(3 + i) % 5], 30);
  }

  /** The next word of the schedule, over the oldest. */
  method NextWord(b: array<word>, i: nat, ghost m: Block, ghost t: nat)
    requires b.Length == 16 && Rolling(b[..], m, t) && i == Slot(t)
    modifies b
    ensures b[i] == W(m, t) && Rolling(b[..], m, t + 1)
  {
    hide Rol, W, Slot, Blk, Rolling;
    ghost var s := b[..];
    BlkIs(s, m, t);
    Rolled(s, m, t);
    b[i] := Blk(b[..], i);
    assert b[..] == s[i := W(m, t)];
  }

  /** `Sha1Loop2`: rounds 16 to 19. */
  method Loop2(a: array<word>, b: array<word>, ghost h: Registers, ghost m: Block)
    requires a != b && b.Length == 16 && Rolling(b[..], m, 16) && Rotated(a[..], 1, Rounds(h, m, 16))
    modifies a, b
    ensures Rolling(b[..], m, 20) && Rotated(a[..], 0, Rounds(h, m, 20))
  {
    hide Rol, F, K, W, Rounds, Choose, Added, Rolling;
    var i := 0;
    while i < 4
      invariant i <= 4 && Rolling(b[..], m, 16 + i) && Rotated(a[..], 1 + i, Rounds(h, m, 16 + i))
    {
      NextWord(b, i, m, 16 + i);
      ghost var s := a[..];
      Stages(16 + i, s[(4 + i) % 5], s[(3 + i) % 5], s[(2 + i) % 5]);
      var f := Choose(a[(4 + i) % 5], a[(3 + i) % 5], a[(2 + i) % 5]);
      RoundDone(s, 1 + i, 16 + i, h, m, f, b[i], 0x5a827999);
      Round(a, 1 + i, Added(a[(1 + i) % 5], f, b[i], 0x5a827999, Rol(a[(5 + i) % 5], 5)));
      i := i + 1;
    }
  }

  /** `Sha1Loop3`: rounds 20 to 39. */
  method Loop3(a: array<word>, b: array<word>, ghost h: Registers, ghost m: Block)
    requires a != b && b.Length == 16 && Rolling(b[..], m, 20) && Rotated(a[..], 0, Rounds(h, m, 20))
    modifies a, b
    ensures Rolling(b[..], m, 40) && Rotated(a[..], 0, Rounds(h, m, 40))
  {
    hide Rol, F, K, W, Rounds, Parity, Added, Rolling;
    var i := 0;
    while i < 20
      invariant i <= 20 && Rolling(b[..], m, 20 + i) && Rotated(a[..], i, Rounds(h, m, 20 + i))
    {
      NextWord(b, (i + 4) % 16, m, 20 + i);
      ghost var s := a[..];
      Stages(20 + i, s[(3 + i) % 5], s[(2 + i) % 5], s[(1 + i) % 5]);
      var f := Parity(a[(3 + i) % 5], a[(2 + i) % 5], a[(1 + i) % 5]);
      RoundDone(s, i, 20 + i, h, m, f, b[(i + 4) % 16], 0x6ed9eba1);
      Round(a, i, Added(a[i % 5], f, b[(i + 4) % 16], 0x6ed9eba1, Rol(a[(4 + i) % 5], 5)));
      i := i + 1;
    }
    TurnedBack(a[..], Rounds(h, m, 40));
  }

  /** `Sha1Loop4`: rounds 40 to 59. */
  method Loop4(a: array<word>, b: array<word>, ghost h: Registers, ghost m: Block)
    requires a != b && b.Length == 16 && Rolling(b[..], m, 40) && Rotated(a[..], 0, Rounds(h, m, 40))
    modifies a, b
    ensures Rolling(b[..], m, 60) && Rotated(a[..], 0, Rounds(h, m, 60))
  {
    hide Rol, F, K, W, Rounds, Majorize, Added, Rolling;
    var i := 0;
    while i < 20
      invariant i <= 20 && Rolling(b[..], m, 40 + i) && Rotated(a[..], i, Rounds(h, m, 40 + i))
    {
      NextWord(b, (i + 8) % 16, m, 40 + i);
      ghost var s := a[..];
      Stages(40 + i, s[(3 + i) % 5], s[(2 + i) % 5], s[(1 + i) % 5]);
      var f := Majorize(a[(3 + i) % 5], a[(2 + i) % 5], a[(1 + i) % 5]);
      RoundDone(s, i, 40 + i, h, m, f, b[(i + 8) % 16], 0x8f1bbcdc);
      Round(a, i, Added(a[i % 5], f, b[(i + 8) % 16], 0x8f1bbcdc, Rol(a[(4 + i) % 5], 5)));
      i := i + 1;
    }
    TurnedBack(a[..], Rounds(h, m, 60));
  }

  /** `Sha1Loop5`: rounds 60 to 79. */
  method Loop5(a: array<word>, b: array<word>, ghost h: Registers, ghost m: Block)
    requires a != b && b.Length == 16 && Rolling(b[..], m, 60) && Rotated(a[..], 0, Rounds(h, m, 60))
    modifies a, b
    ensures Rotated(a[..], 0, Rounds(h, m, 80))
  {
    hide Rol, F, K, W, Rounds, Parity, Added, Rolling;
    var i := 0;
    while i < 20
      invariant i <= 20 && Rolling(b[..], m, 60 + i) && Rotated(a[..], i, Rounds(h, m, 60 + i))
    {
      NextWord(b, (i + 12) % 16, m, 60 + i);
      ghost var s := a[..];
      Stages(60 + i, s[(3 + i) % 5], s[(2 + i) % 5], s[(1 + i) % 5]);
      var f := Parity(a[(3 + i) % 5], a[(2 + i) % 5], a[(1 + i) % 5]);
      RoundDone(s, i, 60 + i, h, m, f, b[(i + 12) % 16], 0xca62c1d6);
      Round(a, i, Added(a[i % 5], f, b[(i + 12) % 16], 0xca62c1d6, Rol(a[(4 + i) % 5], 5)));
      i := i + 1;
    }
    TurnedBack(a[..], Rounds(h, m, 80));
  }

  lemma TurnedBack(s: seq<word>, r: Registers)
    requires Rotated(s, 20, r)
    ensures Rotated(s, 0, r)
  {
  }

  function Words(r: Registers): seq<word> { [r.a, r.b, r.c, r.d, r.e] }

  /** `sha1`: the hash value of one more block. */
  method Sha1Block(hash: array<word>, b: array<word>, ghost h: Registers)
    requires hash != b && hash[..] == Words(h) && b.Length == 16
    modifies hash, b
    ensures hash[..] == Words(Compress(h, old(b[..])))
  {
    hide Rounds, Rolling, W, Plus;
    ghost var m: Block := b[..];
    var a := new word[5][hash[4], hash[3], hash[2], hash[1], hash[0]];
    RoundsStart(h, m);
    assert Rotated(a[..], 0, Rounds(h, m, 0));
    Loop1(a, b, h, m);
    Loop2(a, b, h, m);
    Loop3(a, b, h, m);
    Loop4(a, b, h, m);
    Loop5(a, b, h, m);
    AddRegisters(a, hash, h, Rounds(h, m, 80));
  }

  /** `Sha1Loop6` */
  method AddRegisters(a: array<word>, hash: array<word>, ghost h: Registers, ghost r: Registers)
    requires a != hash && hash[..] == Words(h) && Rotated(a[..], 0, r)
    modifies hash
    ensures hash[..] == Words(Registers(Plus(r.a, h.a), Plus(r.b, h.b), Plus(r.c, h.c), Plus(r.d, h.d), Plus(r.e, h.e)))
  {
    hide Plus, Rotated, Summed;
    ghost var w := hash[..];
    Unturned(a[..], r);
    SummedWords(h, r);
    var i := 0;
    while i < 5
      invariant i <= 5 && a[..] == [r.e, r.d, r.c, r.b, r.a]
      invariant hash[..] == Summed(a[..], w, i)
    {
      ghost var was := hash[..];
      hash[i] := Plus(a[4 - i], hash[i]);
      assert hash[..] == was[i := Plus(a[4 - i], was[i])];
      SummedNext(a[..], w, i);
      i := i + 1;
    }
  }

  function Summed(v: seq<word>, w: seq<word>, i: nat): (s: seq<word>)
    requires |v| == |w| == 5
    ensures |s| == 5 && forall k {:trigger s[k]} | 0 <= k < 5 :: s[k] == if k < i then Plus(v[4 - k], w[k]) else w[k]
  {
    seq(5, k requires 0 <= k < 5 => if k < i then Plus(v[4 - k], w[k]) else w[k])
  }

  lemma SummedNext(v: seq<word>, w: seq<word>, i: nat)
    requires |v| == |w| == 5 && i < 5
    ensures Summed(v, w, i)[i] == w[i] && Summed(v, w, i)[i := Plus(v[4 - i], w[i])] == Summed(v, w, i + 1)
    ensures Summed(v, w, 0) == w
  {
    hide Plus, Summed;
  }

  lemma SummedWords(h: Registers, r: Registers)
    ensures Summed([r.e, r.d, r.c, r.b, r.a], Words(h), 0) == Words(h)
    ensures Summed([r.e, r.d, r.c, r.b, r.a], Words(h), 5) ==
            Words(Registers(Plus(r.a, h.a), Plus(r.b, h.b), Plus(r.c, h.c), Plus(r.d, h.d), Plus(r.e, h.e)))
  {
    hide Plus, Summed;
  }

  lemma Unturned(s: seq<word>, r: Registers)
    requires Rotated(s, 0, r)
    ensures s == [r.e, r.d, r.c, r.b, r.a]
  {
  }

  lemma RoundsStart(h: Registers, m: Block)
    ensures Rounds(h, m, 0) == h && Rolling(m, m, 16)
  {
  }

  // ---------- The hash of a message: sections 5.1.1, 5.2.1 and 6.1 of FIPS 180-4 ----------

  function Zeros(n: nat): (s: seq<octet>)
    ensures |s| == n
  {
    seq(n, _ => 0)
  }

  /** One bit and as many zeros as it takes, and the length in bits, to a multiple of 64 octets. */
  function Padded(message: seq<octet>): (p: seq<octet>)
    ensures |p| % 64 == 0
  {
    message + [0x80] + Zeros(PadZeros(|message|)) + ToBigEndian(8 * |message|, 8)
  }

  /** To 56 octets modulo 64. */
  function PadZeros(n: nat): (k: nat)
    ensures k < 64 && (n + 1 + k) % 64 == 56
  {
    if n % 64 <= 55 then 55 - n % 64 else 119 - n % 64
  }

  function Word(a: octet, b: octet, c: octet, d: octet): word
  {
    ((a as word) << 24) | ((b as word) << 16) | ((c as word) << 8) | (d as word)
  }

  function BlockOf(p: seq<octet>): (b: Block)
    requires |p| == 64
    ensures forall i {:trigger b[i]} | 0 <= i < 16 :: b[i] == Word(p[4 * i], p[4 * i + 1], p[4 * i + 2], p[4 * i + 3])
  {
    seq(16, i requires 0 <= i < 16 => Word(p[4 * i], p[4 * i + 1], p[4 * i + 2], p[4 * i + 3]))
  }

  function HashBlocks(h: Registers, p: seq<octet>): Registers
    requires |p| % 64 == 0
    decreases |p|
  {
    if |p| < 64 then h else HashBlocks(Compress(h, BlockOf(p[..64])), p[64..])
  }

  function Octets4(w: word): (s: seq<octet>)
    ensures |s| == 4
  {
    [((w >> 24) & 0xff) as octet, ((w >> 16) & 0xff) as octet, ((w >> 8) & 0xff) as octet, (w & 0xff) as octet]
  }

  function Digest(words: seq<word>): (s: seq<octet>)
    ensures |s| == 4 * |words|
  {
    if |words| == 0 then [] else Digest(words[..|words| - 1]) + Octets4(words[|words| - 1])
  }

  function Sha1(message: seq<octet>): (digest: seq<octet>)
    ensures |digest| == 20
  {
    Digest(Words(HashBlocks(INITIAL, Padded(message))))
  }

  // ---------- Section 4 of RFC 4648 ----------

  const ALPHABET: string := "ABCDEFGHIJKLMNOPQRSTUVWXYZabcdefghijklmnopqrstuvwxyz0123456789+/"

  /** The character of six bits. */
  function Char(sextet: octet): char
  {
    ALPHABET[(sextet & 63) as int]
  }

  /** The `k`th six bits of twenty-four. */
  function Sextet(group: bv24, k: nat): octet
    requires k < 4
  {
    ((if k == 0 then group >> 18 else if k == 1 then group >> 12 else if k == 2 then group >> 6
      else group) & 63) as octet
  }

  function Group(a: octet, b: octet, c: octet): bv24
  {
    ((a as bv24) << 16) | ((b as bv24) << 8) | (c as bv24)
  }

  /** Twenty-four bits at a time, four characters for them; what is missing at the end is padded. */
  function Base64(src: seq<octet>): string
  {
    if |src| == 0 then ""
    else if |src| == 1 then
      var g := Group(src[0], 0, 0); [Char(Sextet(g, 0)), Char(Sextet(g, 1)), '=', '=']
    else if |src| == 2 then
      var g := Group(src[0], src[1], 0); [Char(Sextet(g, 0)), Char(Sextet(g, 1)), Char(Sextet(g, 2)), '=']
    else
      var g := Group(src[0], src[1], src[2]);
      [Char(Sextet(g, 0)), Char(Sextet(g, 1)), Char(Sextet(g, 2)), Char(Sextet(g, 3))] + Base64(src[3..])
  }

  // The four characters, as they are picked from three octets.

  function First(a: octet): octet { (a >> 2) & 63 }

  function Second(a: octet, b: octet): octet { ((a & 3) << 4) | ((b & 240) >> 4) }

  function Third(b: octet, c: octet): octet { ((b & 15) << 2) | ((c & 192) >> 6) }

  lemma Bits(a: octet, b: octet, c: octet)
    ensures ((Group(a, b, c) >> 18) & 63) as octet == (a >> 2) & 63
    ensures ((Group(a, b, c) >> 12) & 63) as octet == ((a & 3) << 4) | ((b & 240) >> 4)
    ensures ((Group(a, b, c) >> 6) & 63) as octet == ((b & 15) << 2) | ((c & 192) >> 6)
    ensures (Group(a, b, c) & 63) as octet == c & 63
  {
  }

  lemma Sextets(a: octet, b: octet, c: octet)
    ensures var g := Group(a, b, c);
            Sextet(g, 0) == First(a) && Sextet(g, 1) == Second(a, b) && Sextet(g, 2) == Third(b, c)
              && Sextet(g, 3) == c & 63
  {
    hide Group;
    Bits(a, b, c);
  }

  lemma SixBits(a: octet, b: octet, c: octet)
    ensures First(a) < 64 && Second(a, b) < 64 && Third(b, c) < 64 && c & 63 < 64
    ensures ((b & 15) << 2) == Third(b, 0)
  {
  }

  /** `b64[sextet]` */
  method Lookup(sextet: octet) returns (c: char)
    requires sextet < 64
    ensures c == Char(sextet)
  {
    assert sextet & 63 == sextet;
    c := ALPHABET[(sextet & 63) as int];
  }

  /** `base64` of twenty octets. */
  method Encode20(src: array<octet>, dst: array<char>)
    requires src.Length == 20 && dst.Length == 28
    modifies dst
    ensures dst[..] == Base64(src[..])
  {
    hide Char, Group, Sextet, First, Second, Third, Base64;
    var i, to := 0, 0;
    assert src[0..] == src[..] && dst[..0] == [];
    while i < 18
      invariant i <= 18 && i % 3 == 0 && to == 4 * (i / 3)
      invariant dst[..to] + Base64(src[i..]) == Base64(src[..])
    {
      ghost var done := dst[..to];
      SixBits(src[i], src[i + 1], src[i + 2]);
      Sextets(src[i], src[i + 1], src[i + 2]);
      dst[to] := Lookup(First(src[i]));
      dst[to + 1] := Lookup(Second(src[i], src[i + 1]));
      dst[to + 2] := Lookup(Third(src[i + 1], src[i + 2]));
      dst[to + 3] := Lookup(src[i + 2] & 63);
      assert dst[..to + 4] == done + [dst[to], dst[to + 1], dst[to + 2], dst[to + 3]];
      BaseStep(src[i..], done);
      assert src[i..][3..] == src[i + 3..];
      i, to := i + 3, to + 4;
    }
    ghost var done := dst[..24];
    SixBits(src[18], src[19], 0);
    Sextets(src[18], src[19], 0);
    dst[24] := Lookup(First(src[18]));
    dst[25] := Lookup(Second(src[18], src[19]));
    dst[26] := Lookup((src[19] & 15) << 2);
    dst[27] := '=';
    assert dst[..] == done + [dst[24], dst[25], dst[26], '='];
    BaseEnd(src[18..]);
  }

  lemma BaseStep(src: seq<octet>, done: string)
    requires |src| >= 3
    ensures var g := Group(src[0], src[1], src[2]);
            done + Base64(src) ==
            done + [Char(Sextet(g, 0)), Char(Sextet(g, 1)), Char(Sextet(g, 2)), Char(Sextet(g, 3))] + Base64(src[3..])
  {
    hide Char, Sextet, Group;
  }

  lemma BaseEnd(src: seq<octet>)
    requires |src| == 2
    ensures var g := Group(src[0], src[1], 0);
              Base64(src) == [Char(Sextet(g, 0)), Char(Sextet(g, 1)), Char(Sextet(g, 2)), '=']
  {
    hide Char, Sextet, Group;
  }

  // ---------- The handshake: section 4.2.2 of RFC 6455 ----------

  /** "258EAFA5-E914-47DA-95CA-C5AB0DC85B11" */
  const GUID: seq<octet> := [
    0x32, 0x35, 0x38, 0x45, 0x41, 0x46, 0x41, 0x35, 0x2d, 0x45, 0x39, 0x31,
    0x34, 0x2d, 0x34, 0x37, 0x44, 0x41, 0x2d, 0x39, 0x35, 0x43, 0x41, 0x2d,
    0x43, 0x35, 0x41, 0x42, 0x30, 0x44, 0x43, 0x38, 0x35, 0x42, 0x31, 0x31
  ]

  /** What the server answers a key with. */
  function Accept(key: seq<octet>): string
  {
    Base64(Sha1(key + GUID))
  }

  /** The words of the GUID and the end of the message. */
  const GUID_WORDS: seq<word> := [
    0x32353845, 0x41464135, 0x2d453931, 0x342d3437, 0x44412d39, 0x3543412d, 0x43354142, 0x30444338, 0x35423131,
      0x80000000
  ]

  /** The words `generate` starts from. */
  function KeyWords(key: seq<octet>): (b: Block)
    requires |key| == 24
    ensures forall i {:trigger b[i]} | 0 <= i < 16 ::
              b[i] == if i < 6 then Word(key[4 * i], key[4 * i + 1], key[4 * i + 2], key[4 * i + 3])
                else GUID_WORDS[i - 6]
  {
    seq(16, i requires 0 <= i < 16 =>
      if i < 6 then Word(key[4 * i], key[4 * i + 1], key[4 * i + 2], key[4 * i + 3]) else GUID_WORDS[i - 6])
  }

  lemma GuidConstants()
    ensures Word(0x32, 0x35, 0x38, 0x45) == 0x32353845
    ensures Word(0x41, 0x46, 0x41, 0x35) == 0x41464135
    ensures Word(0x2d, 0x45, 0x39, 0x31) == 0x2d453931
    ensures Word(0x34, 0x2d, 0x34, 0x37) == 0x342d3437
    ensures Word(0x44, 0x41, 0x2d, 0x39) == 0x44412d39
    ensures Word(0x35, 0x43, 0x41, 0x2d) == 0x3543412d
    ensures Word(0x43, 0x35, 0x41, 0x42) == 0x43354142
    ensures Word(0x30, 0x44, 0x43, 0x38) == 0x30444338
    ensures Word(0x35, 0x42, 0x31, 0x31) == 0x35423131
    ensures Word(0x80, 0x00, 0x00, 0x00) == 0x80000000
  {
  }

  lemma GuidWords(i: nat)
    requires i < 10
    ensures var g := GUID + [0x80, 0, 0, 0]; Word(g[4 * i], g[4 * i + 1], g[4 * i + 2], g[4 * i + 3]) == GUID_WORDS[i]
  {
    hide Word;
    GuidConstants();
    if i < 5 {
      assert i == 0 || i == 1 || i == 2 || i == 3 || i == 4;
    } else {
      assert i == 5 || i == 6 || i == 7 || i == 8 || i == 9;
    }
  }

  /** The message is the key and the GUID, and its length is 480 bits: two blocks. */
  lemma MessageBlocks(key: seq<octet>)
    requires |key| == 24
    ensures var p := Padded(key + GUID);
            && |p| == 128 && p[..64] == key + GUID + [0x80, 0, 0, 0]
            && p[64..] == Zeros(56) + [0, 0, 0, 0, 0, 0, 1, 224]
  {
    hide ToBigEndian, Zeros;
    Length480();
    var m, l := key + GUID, ToBigEndian(480, 8);
    ZerosSplit(3, 56);
    Regroup(m + [0x80], Zeros(3), Zeros(56), l);
    assert Zeros(3) == [0, 0, 0] by { ThreeZeros(); }
    Regroup(m, [0x80], [0, 0, 0], []);
    var p := Padded(m);
    assert p == (m + [0x80, 0, 0, 0]) + (Zeros(56) + l);
  }

  lemma ZerosSplit(i: nat, j: nat)
    ensures Zeros(i + j) == Zeros(i) + Zeros(j)
  {
  }

  lemma ThreeZeros()
    ensures Zeros(3) == [0, 0, 0]
  {
  }

  lemma Regroup(a: seq<octet>, b: seq<octet>, c: seq<octet>, d: seq<octet>)
    ensures a + (b + c) + d == (a + b) + (c + d)
  {
  }

  lemma Length1()
    ensures ToBigEndian(1, 7) == Zeros(6) + [1]
  {
    ZeroLength(6);
  }

  lemma Length480()
    ensures ToBigEndian(480, 8) == [0, 0, 0, 0, 0, 0, 1, 224]
  {
    Length1();
    LastOctet480();
  }

  lemma LastOctet480()
    ensures ToBigEndian(480, 8) == ToBigEndian(1, 7) + [224]
  {
    hide ToBigEndian;
    ToBigEndianStep(480, 8);
    assert 480 % 256 == 224 && 480 / 256 == 1;
  }

  lemma ToBigEndianStep(n: nat, width: nat)
    requires width > 0
    ensures ToBigEndian(n, width) == ToBigEndian(n / 256, width - 1) + [(n % 256) as octet]
  {
  }

  lemma {:induction false} ZeroLength(n: nat)
    ensures ToBigEndian(0, n) == Zeros(n)
  {
    if n > 0 {
      ZeroLength(n - 1);
    }
  }

  /** What is hashed. */
  function Message(key: seq<octet>): (p: seq<octet>)
    requires |key| == 24
    ensures |p| == 128
  {
    MessageBlocks(key);
    Padded(key + GUID)
  }

  lemma FirstWords(key: seq<octet>, g: seq<octet>, i: nat)
    requires |key| == 24 && |g| == 40 && i < 16
    ensures var p := key + g;
            BlockOf(p)[i] ==
            if i < 6 then Word(key[4 * i], key[4 * i + 1], key[4 * i + 2], key[4 * i + 3])
            else Word(g[4 * (i - 6)], g[4 * (i - 6) + 1], g[4 * (i - 6) + 2], g[4 * (i - 6) + 3])
  {
    hide Word, BlockOf;
  }

  lemma FirstBlock(key: seq<octet>)
    requires |key| == 24
    ensures BlockOf(Message(key)[..64]) == KeyWords(key)
  {
    hide Word, BlockOf, KeyWords, Padded, GUID, GUID_WORDS;
    MessageBlocks(key);
    var g := GUID + [0x80, 0, 0, 0];
    assert Message(key)[..64] == key + g;
    forall i | 0 <= i < 16 ensures BlockOf(key + g)[i] == KeyWords(key)[i] {
      FirstWords(key, g, i);
      if i >= 6 {
        GuidWords(i - 6);
      }
    }
  }

  lemma LastWord()
    ensures Word(0, 0, 0, 0) == 0 && Word(0, 0, 1, 224) == 480
  {
  }

  lemma SecondBlock(key: seq<octet>)
    requires |key| == 24
    ensures forall i | 0 <= i < 16 :: BlockOf(Message(key)[64..])[i] == if i < 15 then 0 else 480
  {
    hide Word, BlockOf, Padded;
    MessageBlocks(key);
    LastWord();
  }

  /** The hash of the key and the GUID takes two blocks. */
  lemma TwoBlocks(key: seq<octet>)
    requires |key| == 24
    ensures var p := Message(key);
            HashBlocks(INITIAL, Padded(key + GUID)) == Compress(Compress(INITIAL, BlockOf(p[..64])), BlockOf(p[64..]))
  {
    hide Compress, BlockOf, Padded;
    var p := Message(key);
    var one := Compress(INITIAL, BlockOf(p[..64]));
    assert HashBlocks(INITIAL, p) == HashBlocks(one, p[64..]);
    assert p[64..][..64] == p[64..] && |p[64..][64..]| == 0;
    assert HashBlocks(one, p[64..]) == Compress(one, BlockOf(p[64..]));
  }

  /** `generate`: what section 4.2.2 of RFC 6455 asks for, whatever the key. */
  method Generate(input: array<octet>, output: array<char>)
    requires input.Length == 24 && output.Length == 28
    modifies output
    ensures output[..] == Accept(input[..])
  {
    hide Compress, BlockOf, Padded, Word, KeyWords, Base64, HashBlocks, Digest, Message, GUID;
    ghost var key := input[..];
    var bOutput := new word[5][0x67452301, 0xefcdab89, 0x98badcfe, 0x10325476, 0xc3d2e1f0];
    assert bOutput[..] == Words(INITIAL);
    var bInput := FirstInput(input);
    Sha1Block(bOutput, bInput, INITIAL);
    FirstBlock(key);
    var lastB := new word[16](i => if i == 15 then 480 else 0);
    SecondBlock(key);
    assert lastB[..] == BlockOf(Message(key)[64..]);
    Sha1Block(bOutput, lastB, Compress(INITIAL, KeyWords(key)));
    TwoBlocks(key);
    var bytes := DigestOctets(bOutput);
    Encode20(bytes, output);
  }

  method FirstInput(input: array<octet>) returns (bInput: array<word>)
    requires input.Length == 24
    ensures fresh(bInput) && bInput[..] == KeyWords(input[..])
  {
    hide Word, KeyWords;
    bInput := new word[16](i => if 6 <= i < 16 then GUID_WORDS[i - 6] else 0);
    var i := 0;
    while i < 6
      invariant i <= 6
      invariant forall k | 0 <= k < 16 && (k < i || k >= 6) :: bInput[k] == KeyWords(input[..])[k]
    {
      bInput[i] := Word(input[4 * i], input[4 * i + 1], input[4 * i + 2], input[4 * i + 3]);
      i := i + 1;
    }
  }

  /** The words of the hash, most significant octet first. */
  method DigestOctets(words: array<word>) returns (bytes: array<octet>)
    requires words.Length == 5
    ensures fresh(bytes) && bytes[..] == Digest(words[..])
  {
    bytes := new octet[20];
    var i := 0;
    while i < 5
      invariant i <= 5 && bytes[..4 * i] == Digest(words[..i])
    {
      ghost var done := bytes[..4 * i];
      StoreWord(bytes, 4 * i, words[i]);
      assert bytes[..4 * i + 4] == done + Octets4(words[i]);
      assert words[..i + 1][..i] == words[..i];
      i := i + 1;
    }
    assert words[..5] == words[..] && bytes[..20] == bytes[..];
  }

  method StoreWord(bytes: array<octet>, at: nat, tmp: word)
    requires at + 4 <= bytes.Length
    modifies bytes
    ensures bytes[..at] == old(bytes[..at]) && bytes[at..at + 4] == Octets4(tmp)
  {
    bytes[at + 3] := (tmp & 0xff) as octet;
    bytes[at + 2] := ((tmp >> 8) & 0xff) as octet;
    bytes[at + 1] := ((tmp >> 16) & 0xff) as octet;
    bytes[at] := ((tmp >> 24) & 0xff) as octet;
  }
}
