/** Sequence helpers shared by the timeline models: silence, flattening and clamped writes. */
module Seqs {

  /** `new Float32Array(n)`: `n` silent samples. */
  function Zeros(n: nat): (r: seq<real>)
    ensures |r| == n
    ensures forall k :: 0 <= k < n ==> r[k] == 0.0
  {
    seq(n, _ => 0.0)
  }

  /** Sum of the lengths of the pieces (the source's `reduce((base, item) => base + item.length, 0)`). */
  function TotalLength<T>(data: seq<seq<T>>): nat
  {
    if data == [] then 0 else TotalLength(data[..|data| - 1]) + |data[|data| - 1]|
  }

  /** The pieces written one after the other. */
  function Concat<T>(data: seq<seq<T>>): seq<T>
  {
    if data == [] then [] else Concat(data[..|data| - 1]) + data[|data| - 1]
  }

  lemma {:induction false} ConcatLength<T>(data: seq<seq<T>>)
    ensures |Concat(data)| == TotalLength(data)
  {
    if data != [] {
      ConcatLength(data[..|data| - 1]);
    }
  }

  /** The lengths of a prefix never add up to more than the whole. */
  lemma {:induction false} TotalLengthPrefix<T>(data: seq<seq<T>>, k: nat)
    requires k <= |data|
    ensures TotalLength(data[..k]) <= TotalLength(data)
    ensures k < |data| ==> TotalLength(data[..k + 1]) == TotalLength(data[..k]) + |data[k]|
    decreases |data|
  {
    if k < |data| {
      assert data[..k + 1][..k] == data[..k];
    }
    if k < |data| {
      TotalLengthPrefix(data[..|data| - 1], k);
      assert data[..|data| - 1][..k] == data[..k];
    } else {
      assert data[..k] == data;
    }
  }

  /** Piece `k` sits at the offset given by the lengths of the pieces before it. */
  lemma {:induction false} ConcatAt<T>(data: seq<seq<T>>, k: nat, j: nat)
    requires k < |data| && j < |data[k]|
    ensures TotalLength(data[..k]) + j < |Concat(data)|
    ensures Concat(data)[TotalLength(data[..k]) + j] == data[k][j]
    decreases |data|
  {
    var init := data[..|data| - 1];
    ConcatLength(data);
    ConcatLength(init);
    if k == |data| - 1 {
      assert data[..k] == init;
    } else {
      ConcatAt(init, k, j);
      assert init[..k] == data[..k];
      TotalLengthPrefix(data, |data| - 1);
    }
  }

  /** Appending one piece extends the flattening by exactly that piece. */
  lemma ConcatSnoc<T>(data: seq<seq<T>>, piece: seq<T>)
    ensures Concat(data + [piece]) == Concat(data) + piece
    ensures TotalLength(data + [piece]) == TotalLength(data) + |piece|
  {
    assert (data + [piece])[..|data|] == data;
  }

  /**
   * `dst` with `src` written from position `offset` on; positions of `src` that fall outside
   * `dst` are dropped, so the length never changes.
   */
  function WriteAt<T>(dst: seq<T>, offset: int, src: seq<T>): (r: seq<T>)
    ensures |r| == |dst|
  {
    seq(|dst|, k requires 0 <= k < |dst| => if offset <= k < offset + |src| then src[k - offset] else dst[k])
  }

  /** Writing a piece right after a prefix replaces the start of what followed it. */
  lemma WriteAfterPrefix<T>(prefix: seq<T>, piece: seq<T>, rest: seq<T>)
    requires |piece| <= |rest|
    ensures WriteAt(prefix + rest, |prefix|, piece) == prefix + piece + rest[|piece|..]
  {
  }

  /** `typedArray.set(src, offset)` for a source that fits: copies `src` in from `offset` on. */
  method SetAt<T>(arr: array<T>, src: seq<T>, offset: nat)
    requires offset + |src| <= arr.Length
    modifies arr
    ensures arr[..] == WriteAt(old(arr[..]), offset, src)
  {
    ghost var before := arr[..];
    for j := 0 to |src|
      invariant arr[..] == WriteAt(before, offset, src[..j])
    {
      arr[offset + j] := src[j];
      assert src[..j + 1] == src[..j] + [src[j]];
    }
    assert src[..|src|] == src;
  }

  /** `splice(i, 1)` for an index in range or -1; -1 counts from the end, so it drops the last element. */
  function Splice<T>(s: seq<T>, i: int): (r: seq<T>)
    requires -1 <= i < |s|
    ensures s != [] ==> |r| == |s| - 1
    ensures s == [] ==> r == []
  {
    if i >= 0 then s[..i] + s[i + 1..]
    else if s == [] then []
    else s[..|s| - 1]
  }

  /** Splicing takes out one occurrence of the element at the spliced position and nothing else. */
  lemma SpliceMultiset<T>(s: seq<T>, i: int)
    requires -1 <= i < |s| && s != []
    ensures multiset(Splice(s, i)) == multiset(s) - multiset{s[if i >= 0 then i else |s| - 1]}
    ensures forall x :: x in Splice(s, i) ==> x in s
  {
    if i >= 0 {
      assert s == s[..i] + [s[i]] + s[i + 1..];
    } else {
      assert s == s[..|s| - 1] + [s[|s| - 1]];
    }
  }

  /** Elements before the removed position keep their index, those after it move down by one. */
  lemma SpliceAt<T>(s: seq<T>, i: int, k: nat)
    requires -1 <= i < |s| && k < |Splice(s, i)|
    ensures Splice(s, i)[k] == if 0 <= i <= k then s[k + 1] else s[k]
  {
  }

  /** `indexOf`: the first index holding `x`, or -1. */
  function IndexOf<T(==)>(s: seq<T>, x: T): (r: int)
    ensures -1 <= r < |s|
    ensures r >= 0 ==> s[r] == x && forall j :: 0 <= j < r ==> s[j] != x
    ensures r == -1 ==> x !in s
  {
    if s == [] then -1
    else if s[0] == x then 0
    else
      var i := IndexOf(s[1..], x);
      if i == -1 then -1 else i + 1
  }
}
