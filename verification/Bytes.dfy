/** The octets every parser and writer of the engine works on, and a few facts about sequences of them. */
module Bytes {

  newtype byte = b: int | 0 <= b < 256

  const CR: byte := 13
  const LF: byte := 10
  const HTAB: byte := 9
  const SP: byte := 32
  const SEMICOLON: byte := 59
  const COLON: byte := 58
  const SLASH: byte := 47
  const CRLF: seq<byte> := [CR, LF]

  datatype Option<+T> = None | Some(value: T)

  function Min(a: nat, b: nat): nat { if a < b then a else b }

  /** The concatenation of a list of segments: what a peer sent, however the kernel cut it. */
  function Flatten<T>(parts: seq<seq<T>>): (whole: seq<T>)
  {
    if parts == [] then [] else parts[0] + Flatten(parts[1..])
  }

  lemma FlattenAppend<T>(parts: seq<seq<T>>, last: seq<T>)
    ensures Flatten(parts + [last]) == Flatten(parts) + last
  {
    if parts == [] {
      assert [last][1..] == [];
    } else {
      assert (parts + [last])[1..] == parts[1..] + [last];
      FlattenAppend(parts[1..], last);
      assert parts[0] + (Flatten(parts[1..]) + last) == (parts[0] + Flatten(parts[1..])) + last;
    }
  }

  lemma FlattenConcat<T>(left: seq<seq<T>>, right: seq<seq<T>>)
    ensures Flatten(left + right) == Flatten(left) + Flatten(right)
  {
    if left == [] {
      assert left + right == right;
    } else {
      assert (left + right)[1..] == left[1..] + right;
      FlattenConcat(left[1..], right);
      assert left[0] + (Flatten(left[1..]) + Flatten(right)) == (left[0] + Flatten(left[1..])) + Flatten(right);
    }
  }

  lemma Assoc3<T>(a: seq<T>, b: seq<T>, c: seq<T>)
    ensures (a + b) + c == a + (b + c)
  {
  }

  lemma SubSlice<T>(w: seq<T>, s: nat, e: nat, a: nat, b: nat)
    requires s <= a <= b <= e <= |w|
    ensures w[s..e][a - s..b - s] == w[a..b]
  {
    var v := w[s..e];
    assert forall k | 0 <= k < |v| :: v[k] == w[s + k];
    var x := v[a - s..b - s];
    assert forall k | 0 <= k < |x| :: x[k] == v[a - s + k] == w[a..b][k];
  }

  lemma DropDrop<T>(w: seq<T>, a: nat, b: nat)
    requires a + b <= |w|
    ensures w[a..][b..] == w[a + b..]
  {
  }

  lemma DropConcat<T>(x: seq<T>, y: seq<T>, k: nat)
    requires k <= |y|
    ensures (x + y)[|x| + k..] == y[k..]
  {
  }

  lemma TakeDrop<T>(w: seq<T>, k: nat, n: nat)
    requires n <= k <= |w|
    ensures w[..k][n..] == w[n..][..k - n]
  {
  }

  lemma TakeJoin<T>(front: seq<T>, w: seq<T>, k: nat)
    requires k <= |w|
    ensures front + w[..k] + w[k..] == front + w
  {
    assert w[..k] + w[k..] == w;
  }
}
