/**
 * The owner-file lookup of `CanvasContext.computeValues` in dist/waveaudio.js: which file a
 * waveform column is coloured after.
 */
module Waveform {
  import opened Timeline
  import opened Seqs

  /** One step of `positions.reduce((prev, curr) => prev <= idx && curr > idx ? prev : curr)`. */
  function ReduceStep(prev: int, curr: int, idx: int): (r: int)
    ensures r == prev || r == curr
    ensures prev <= idx ==> r <= idx
  {
    if prev <= idx && curr > idx then prev else curr
  }

  /** The reduce without an initial value: the first element is the starting accumulator. */
  function Reduce(acc: int, rest: seq<int>, idx: int): (r: int)
    ensures acc <= idx ==> r <= idx
    decreases |rest|
  {
    if rest == [] then acc else Reduce(ReduceStep(acc, rest[0], idx), rest[1..], idx)
  }

  /** `leftClosestIdx`: 0 for no positions, else the first index holding the reduced value. */
  function LeftClosestIdx(positions: seq<int>, bufferIdx: int): (r: int)
    ensures 0 <= r < |positions| || (positions == [] && r == 0)
  {
    if |positions| == 0 then 0
    else
      ReduceIsElement(positions[0], positions[1..], bufferIdx);
      assert positions == [positions[0]] + positions[1..];
      IndexOf(positions, Reduce(positions[0], positions[1..], bufferIdx))
  }

  predicate Sorted(s: seq<int>)
  {
    forall i, j :: 0 <= i <= j < |s| ==> s[i] <= s[j]
  }

  /** The reduce always yields one of the values it was given. */
  lemma {:induction false} ReduceIsElement(acc: int, rest: seq<int>, idx: int)
    ensures Reduce(acc, rest, idx) == acc || Reduce(acc, rest, idx) in rest
    decreases |rest|
  {
    if rest != [] {
      ReduceIsElement(ReduceStep(acc, rest[0], idx), rest[1..], idx);
    }
  }

  /**
   * On sorted values whose first one is at most `idx`, the reduce yields the greatest of them
   * that is at most `idx`.
   */
  lemma {:induction false} ReduceIsGreatestBelow(acc: int, rest: seq<int>, idx: int)
    requires acc <= idx && Sorted([acc] + rest)
    ensures acc <= Reduce(acc, rest, idx) <= idx
    ensures forall x :: x in rest && x <= idx ==> x <= Reduce(acc, rest, idx)
    decreases |rest|
  {
    if rest != [] {
      assert forall i :: 0 <= i < |rest| ==> ([acc] + rest)[i + 1] == rest[i];
      if rest[0] > idx {
        assert Sorted([acc] + rest[1..]) by {
          assert forall i :: 1 <= i < |rest| ==> ([acc] + rest[1..])[i] == ([acc] + rest)[i + 1];
        }
        ReduceIsGreatestBelow(acc, rest[1..], idx);
      } else {
        assert acc <= rest[0] by {
          assert ([acc] + rest)[0] <= ([acc] + rest)[1];
        }
        assert Sorted([rest[0]] + rest[1..]) by {
          assert [rest[0]] + rest[1..] == rest;
        }
        ReduceIsGreatestBelow(rest[0], rest[1..], idx);
        assert rest == [rest[0]] + rest[1..];
      }
    }
  }

  /**
   * On sorted positions starting at or below `idx`, the owner is the first index holding the
   * greatest position that is at most `idx`; with no positions it is 0.
   */
  lemma OwnerIsGreatestBelow(positions: seq<int>, idx: int)
    requires Sorted(positions)
    requires positions != [] ==> positions[0] <= idx
    ensures positions == [] ==> LeftClosestIdx(positions, idx) == 0
    ensures positions != [] ==>
      var r := LeftClosestIdx(positions, idx);
      && 0 <= r < |positions| && positions[r] <= idx
      && (forall j :: 0 <= j < |positions| && positions[j] <= idx ==> positions[j] <= positions[r])
      && (forall j :: 0 <= j < r ==> positions[j] != positions[r])
  {
    if positions != [] {
      assert positions == [positions[0]] + positions[1..];
      ReduceIsElement(positions[0], positions[1..], idx);
      ReduceIsGreatestBelow(positions[0], positions[1..], idx);
      var v := Reduce(positions[0], positions[1..], idx);
      assert v in positions;
      forall j | 0 <= j < |positions| && positions[j] <= idx
        ensures positions[j] <= v
      {
        if j > 0 {
          assert positions[j] == positions[1..][j - 1];
          assert positions[1..][j - 1] in positions[1..];
        }
      }
    }
  }

  /**
   * With the start positions of non-empty files, the owner of a sample of the timeline is the
   * file that holds that sample.
   */
  lemma OwnerHoldsSample(files: seq<SourceFile>, idx: int)
    requires AllWellFormed(files) && files != []
    requires forall f :: f in files ==> |f.buffer.channels[0]| > 0
    requires 0 <= idx < SumLengths(files, 0)
    ensures var p := StartPositions(files, 0);
      var r := LeftClosestIdx(p, idx);
      0 <= r < |files| && p[r] <= idx < p[r] + |files[r].buffer.channels[0]|
  {
    var p := StartPositions(files, 0);
    assert Sorted(p) && p[0] <= idx by {
      StartPositionsSteps(files, 0);
    }
    OwnerIsGreatestBelow(p, idx);
    var r := LeftClosestIdx(p, idx);
    var len := |files[r].buffer.channels[0]|;
    assert len > 0 by {
      assert files[r] in files;
    }
    if r + 1 < |files| {
      assert p[r + 1] == p[r] + len by {
        StartPositionsSteps(files, 0);
      }
    } else {
      LastFileEnds(files);
    }
  }

  /** The last file's start plus its length is the whole timeline. */
  lemma LastFileEnds(files: seq<SourceFile>)
    requires AllWellFormed(files) && files != []
    ensures StartPositions(files, 0)[|files| - 1] + |files[|files| - 1].buffer.channels[0]| == SumLengths(files, 0)
  {
    var n := |files| - 1;
    assert files[n] in files;
    assert StartPositions(files, 0)[n] == SumLengths(files[..n], 0);
  }
}
