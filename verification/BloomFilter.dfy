/** BloomFilter.h: which names of headers a request might have, by four octets of each. */
module BloomFilter {
  import opened Bytes

  /** The bits of the filter that are set. */
  type Filter = set<nat>

  /** First, last, last but one and middle octet, as a little-endian word. */
  function Features(key: seq<byte>): nat
    requires |key| >= 2
  {
    key[0] as nat + 0x100 * key[|key| - 1] as nat + 0x1_0000 * key[|key| - 2] as nat
    + 0x100_0000 * key[|key| / 2] as nat
  }

  /** The four octets of the scrambled word. */
  function Bits(key: seq<byte>): set<nat>
    requires |key| >= 2
  {
    var w := (Features(key) * 1843993368) % 0x1_0000_0000;
    {w % 0x100, (w / 0x100) % 0x100, (w / 0x1_0000) % 0x100, w / 0x100_0000}
  }

  predicate MightHave(f: Filter, key: seq<byte>)
  {
    |key| < 2 || Bits(key) <= f
  }

  function Add(f: Filter, key: seq<byte>): Filter
  {
    if |key| < 2 then f else f + Bits(key)
  }

  function FilterOf(keys: seq<seq<byte>>): Filter
  {
    if keys == [] then {} else Add(FilterOf(keys[..|keys| - 1]), keys[|keys| - 1])
  }

  /** What was added might be there. */
  lemma {:induction false} AddedMightBe(keys: seq<seq<byte>>, key: seq<byte>)
    requires key in keys
    ensures MightHave(FilterOf(keys), key)
    decreases |keys|
  {
    hide Bits;
    var front := keys[..|keys| - 1];
    if key != keys[|keys| - 1] {
      assert keys == front + [keys[|keys| - 1]];
      AddedMightBe(front, key);
    }
  }

  /** And so might any name that has the same four octets. */
  lemma SameFeaturesMightBe(keys: seq<seq<byte>>, key: seq<byte>, other: seq<byte>)
    requires key in keys && |key| >= 2 && |other| >= 2 && Features(key) == Features(other)
    ensures MightHave(FilterOf(keys), other)
  {
    AddedMightBe(keys, key);
  }
}
