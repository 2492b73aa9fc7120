/**
 * The earlier aggregator of src/audio.context.ts: it keeps the decoded buffers and builds the
 * master from the newest batch followed by the previous master.
 */
module LegacyTimeline {
  import opened Wrappers
  import opened Seqs
  import Timeline

  type AudioData = Timeline.AudioData

  predicate AllWellFormed(buffers: seq<AudioData>)
  {
    forall b :: b in buffers ==> Timeline.WellFormed(b)
  }

  /** Where `concatBuffersData` writes piece `k`: at 0 for the first piece, else at the previous piece's length. */
  function Placement<T>(data: seq<seq<T>>, k: nat): nat
    requires k < |data|
  {
    if k == 0 then 0 else |data[k - 1]|
  }

  /** Each write fits: the previous piece's length plus this piece's length is at most the total. */
  lemma PlacementFits<T>(data: seq<seq<T>>, k: nat)
    requires k < |data|
    ensures Placement(data, k) + |data[k]| <= TotalLength(data)
  {
    if k == 0 {
      TotalLengthPrefix(data, 0);
      TotalLengthPrefix(data, 1);
      assert data[..0] == [];
    } else {
      TotalLengthPrefix(data, k - 1);
      TotalLengthPrefix(data, k);
      TotalLengthPrefix(data, k + 1);
    }
  }

  /**
   * The array after the first `n` writes of `concatBuffersData`; `Float32Array.set` would throw
   * on a write past the end, which `PlacementFits` rules out.
   */
  function PlacedUpTo<T>(data: seq<seq<T>>, n: nat, zero: T): (r: seq<T>)
    requires n <= |data|
    ensures |r| == TotalLength(data)
  {
    if n == 0 then seq(TotalLength(data), _ => zero)
    else
      PlacementFits(data, n - 1);
      WriteAt(PlacedUpTo(data, n - 1, zero), Placement(data, n - 1), data[n - 1])
  }

  function LegacyConcat(data: seq<seq<real>>): seq<real>
  {
    PlacedUpTo(data, |data|, 0.0)
  }

  /** The result is as long as all pieces together. */
  lemma LegacyConcatLength(data: seq<seq<real>>)
    ensures |LegacyConcat(data)| == TotalLength(data)
  {
  }

  /** The first piece is written at 0, over silence. */
  lemma FirstPlacement(data: seq<seq<real>>)
    requires |data| >= 1
    ensures |data[0]| <= TotalLength(data)
    ensures PlacedUpTo(data, 1, 0.0) == data[0] + seq(TotalLength(data) - |data[0]|, _ => 0.0)
  {
    PlacementFits(data, 0);
    var zeros := seq(TotalLength(data), _ => 0.0);
    WriteAfterPrefix([], data[0], zeros);
    assert [] + zeros == zeros;
    assert zeros[|data[0]|..] == seq(TotalLength(data) - |data[0]|, _ => 0.0);
  }

  /** Concatenation of one or two pieces. */
  lemma ConcatOfTwo(data: seq<seq<real>>)
    requires 1 <= |data| <= 2
    ensures |data| == 1 ==> Concat(data) == data[0] && TotalLength(data) == |data[0]|
    ensures |data| == 2 ==> Concat(data) == data[0] + data[1] && TotalLength(data) == |data[0]| + |data[1]|
  {
    assert data[..1][..0] == [];
    if |data| == 2 {
      assert data[..1] == [data[0]];
    }
  }

  /** The second piece is written right after the first. */
  lemma SecondPlacement(data: seq<seq<real>>)
    requires |data| == 2
    ensures PlacedUpTo(data, 2, 0.0) == data[0] + data[1]
  {
    ConcatOfTwo(data);
    FirstPlacement(data);
    var p1 := PlacedUpTo(data, 1, 0.0);
    var silence := seq(|data[1]|, _ => 0.0);
    assert p1 == data[0] + silence;
    assert Placement(data, 1) == |data[0]|;
    assert PlacedUpTo(data, 2, 0.0) == WriteAt(p1, |data[0]|, data[1]);
    WriteAfterPrefix(data[0], data[1], silence);
    assert silence[|data[1]|..] == [];
  }

  /** With at most two pieces the placement is exact concatenation. */
  lemma LegacyConcatUpToTwo(data: seq<seq<real>>)
    requires |data| <= 2
    ensures LegacyConcat(data) == Concat(data)
  {
    if |data| == 1 {
      ConcatOfTwo(data);
      FirstPlacement(data);
      assert seq(TotalLength(data) - |data[0]|, _ => 0.0) == [];
    } else if |data| == 2 {
      ConcatOfTwo(data);
      SecondPlacement(data);
    }
  }

  /** Three one-sample pieces: the third overwrites the second and the last sample stays silent. */
  lemma LegacyConcatOverwrites()
    ensures LegacyConcat([[1.0], [2.0], [3.0]]) == [1.0, 3.0, 0.0]
    ensures Concat([[1.0], [2.0], [3.0]]) == [1.0, 2.0, 3.0]
  {
    var data: seq<seq<real>> := [[1.0], [2.0], [3.0]];
    assert data[..2] == [[1.0], [2.0]];
    assert data[..2][..1] == [[1.0]];
    assert data[..2][..1][..0] == [];
    assert Concat(data[..2][..1]) == [1.0];
    assert Concat(data[..2]) == [1.0, 2.0];
    assert TotalLength(data[..2][..1]) == 1;
    assert TotalLength(data[..2]) == 2;
    assert TotalLength(data) == 3;
    var p0 := PlacedUpTo(data, 0, 0.0);
    assert p0 == [0.0, 0.0, 0.0];
    var p1 := PlacedUpTo(data, 1, 0.0);
    assert p1 == WriteAt(p0, 0, [1.0]);
    assert p1 == [1.0, 0.0, 0.0];
    var p2 := PlacedUpTo(data, 2, 0.0);
    assert p2 == WriteAt(p1, 1, [2.0]);
    assert p2 == [1.0, 2.0, 0.0];
    assert PlacedUpTo(data, 3, 0.0) == WriteAt(p2, 1, [3.0]);
    assert WriteAt(p2, 1, [3.0]) == [1.0, 3.0, 0.0];
  }

  function MaxChannels(buffers: seq<AudioData>): nat
  {
    if buffers == [] then 0
    else
      var m := MaxChannels(buffers[..|buffers| - 1]);
      var n := |buffers[|buffers| - 1].channels|;
      if n > m then n else m
  }

  function ChannelData(buffers: seq<AudioData>, c: nat): (r: seq<seq<real>>)
    requires AllWellFormed(buffers)
    ensures |r| == |buffers|
  {
    seq(|buffers|, k requires 0 <= k < |buffers| => Timeline.ChannelOrSilence(buffers[k], c))
  }

  /**
   * What `createAudioBuffer` builds: `createBuffer` with zero channels throws, so no input
   * gives no buffer; otherwise one placed channel per channel of the widest input.
   */
  function LegacyMaster(buffers: seq<AudioData>): Option<AudioData>
    requires AllWellFormed(buffers)
  {
    var n := MaxChannels(buffers);
    if n == 0 then None
    else Some(Timeline.AudioData(seq(n, c requires 0 <= c < n => LegacyConcat(ChannelData(buffers, c)))))
  }

  /** The inputs `decodeBuffers` hands to `createAudioBuffer`: the new batch, then the previous master. */
  function Inputs(batch: seq<AudioData>, previous: Option<AudioData>): seq<AudioData>
  {
    if previous.Some? then batch + [previous.value] else batch
  }

  lemma OneChannelMaster(buffers: seq<AudioData>)
    requires 1 <= |buffers| <= 2 && forall b :: b in buffers ==> |b.channels| == 1 && |b.channels[0]| == 1
    ensures AllWellFormed(buffers)
    ensures LegacyMaster(buffers) == Some(Timeline.AudioData([Concat(ChannelData(buffers, 0))]))
  {
    assert buffers[0] in buffers;
    var front := buffers[..|buffers| - 1];
    if |buffers| == 2 {
      assert buffers[1] in buffers;
      assert front == [buffers[0]];
      assert front[..0] == [];
      assert MaxChannels(front) == 1;
    } else {
      assert front == [];
    }
    assert MaxChannels(buffers) == 1;
    LegacyConcatUpToTwo(ChannelData(buffers, 0));
    var chans := seq(1, c requires 0 <= c < 1 => LegacyConcat(ChannelData(buffers, c)));
    assert chans == [Concat(ChannelData(buffers, 0))];
  }

  /**
   * Two batches of one file each: `sourceBuffers` lists the first file first, but the master
   * channel starts with the second file's samples.
   */
  lemma NewBatchComesFirst()
    ensures var a := Timeline.AudioData([[1.0]]);
      var b := Timeline.AudioData([[2.0]]);
      var first := LegacyMaster([a]);
      && first == Some(a)
      && LegacyMaster(Inputs([b], first)) == Some(Timeline.AudioData([[2.0, 1.0]]))
  {
    var a := Timeline.AudioData([[1.0]]);
    var b := Timeline.AudioData([[2.0]]);
    OneChannelMaster([a]);
    var d1: seq<seq<real>> := [[1.0]];
    assert ChannelData([a], 0) == d1;
    assert d1[..0] == [];
    assert Concat(d1) == [1.0];
    assert Inputs([b], Some(a)) == [b, a];
    OneChannelMaster([b, a]);
    var d2: seq<seq<real>> := [[2.0], [1.0]];
    assert ChannelData([b, a], 0) == d2;
    assert d2[..1] == [[2.0]];
    assert d2[..1][..0] == [];
    assert Concat(d2) == [2.0, 1.0];
  }

  class LegacyAudioContext {
    /** `sourceBuffers`: every decoded buffer, in decoding order. */
    var sourceBuffers: seq<AudioData>
    /** `buffer`: the master buffer; `None` until a batch has produced one. */
    var buffer: Option<AudioData>
    /** Payloads of the "decoded buffers" events triggered so far, oldest first. */
    var fired: seq<AudioData>

    ghost predicate Valid()
      reads this
    {
      AllWellFormed(sourceBuffers) && (buffer.Some? ==> Timeline.WellFormed(buffer.value))
    }

    constructor ()
      ensures Valid() && sourceBuffers == [] && buffer == None && fired == []
    {
      sourceBuffers := [];
      buffer := None;
      fired := [];
    }

    /**
     * `concatBuffersData` as written: piece 0 at offset 0, every later piece at the previous
     * piece's length.
     */
    method ConcatBuffersData(buffersData: seq<seq<real>>) returns (r: seq<real>)
      ensures r == LegacyConcat(buffersData)
    {
      var resultLength := TotalLength(buffersData);
      var resultArray := new real[resultLength](_ => 0.0);
      assert resultArray[..] == PlacedUpTo(buffersData, 0, 0.0);
      var idx := 0;
      while idx < |buffersData|
        invariant 0 <= idx <= |buffersData|
        invariant resultArray[..] == PlacedUpTo(buffersData, idx, 0.0)
      {
        var bf := buffersData[idx];
        var offset := if idx == 0 then 0 else |buffersData[idx - 1]|;
        PlacementFits(buffersData, idx);
        SetAt(resultArray, bf, offset);
        idx := idx + 1;
      }
      r := resultArray[..];
    }

    /**
     * `createAudioBuffer`: fails (the platform refuses a zero-channel buffer) when there is no
     * input; otherwise the do-while fills every channel, the first one at least.
     */
    method CreateAudioBuffer(fromAudioBuffers: seq<AudioData>) returns (result: Option<AudioData>)
      requires AllWellFormed(fromAudioBuffers)
      ensures result == LegacyMaster(fromAudioBuffers)
    {
      var maxChannels := WidestInput(fromAudioBuffers);
      if maxChannels == 0 {
        return None;
      }
      var channels: seq<seq<real>> := [];
      var idx := 0;
      // do { ... } while (++idx < maxChannels)
      while true
        invariant 0 <= idx < maxChannels
        invariant |channels| == idx
        invariant forall c :: 0 <= c < idx ==> channels[c] == LegacyConcat(ChannelData(fromAudioBuffers, c))
        decreases maxChannels - idx
      {
        var data := ChannelPieces(fromAudioBuffers, idx);
        var merged := ConcatBuffersData(data);
        channels := channels + [merged];
        idx := idx + 1;
        if !(idx < maxChannels) {
          break;
        }
      }
      assert channels == seq(maxChannels, c requires 0 <= c < maxChannels => LegacyConcat(ChannelData(fromAudioBuffers, c)));
      result := Some(Timeline.AudioData(channels));
    }

    /** The first loop of `createAudioBuffer`: the largest channel count over the inputs. */
    method WidestInput(fromAudioBuffers: seq<AudioData>) returns (maxChannels: nat)
      ensures maxChannels == MaxChannels(fromAudioBuffers)
    {
      maxChannels := 0;
      for i := 0 to |fromAudioBuffers|
        invariant maxChannels == MaxChannels(fromAudioBuffers[..i])
      {
        assert fromAudioBuffers[..i + 1][..i] == fromAudioBuffers[..i];
        if |fromAudioBuffers[i].channels| > maxChannels {
          maxChannels := |fromAudioBuffers[i].channels|;
        }
      }
      assert fromAudioBuffers[..|fromAudioBuffers|] == fromAudioBuffers;
    }

    /** The `forEach` of `createAudioBuffer`: each input's channel `idx`, or silence of its length. */
    method ChannelPieces(fromAudioBuffers: seq<AudioData>, idx: nat) returns (data: seq<seq<real>>)
      requires AllWellFormed(fromAudioBuffers)
      ensures data == ChannelData(fromAudioBuffers, idx)
    {
      data := [];
      for k := 0 to |fromAudioBuffers|
        invariant data == ChannelData(fromAudioBuffers, idx)[..k]
      {
        var abf := fromAudioBuffers[k];
        assert abf in fromAudioBuffers;
        if idx <= |abf.channels| - 1 {
          data := data + [abf.channels[idx]];
        } else {
          data := data + [Zeros(|abf.channels[0]|)];
        }
      }
    }

    /**
     * `decodeBuffers`: a decoding failure anywhere rejects the batch and nothing changes;
     * otherwise the batch is appended to `sourceBuffers` while the master is rebuilt from the
     * batch followed by the previous master, and the event fires.
     */
    method DecodeBuffers(decoded: seq<Option<AudioData>>)
      requires Valid() && forall d :: d in decoded && d.Some? ==> Timeline.WellFormed(d.value)
      modifies this
      ensures Valid()
      ensures if forall d :: d in decoded ==> d.Some? then
          var bfs := seq(|decoded|, k requires 0 <= k < |decoded| => decoded[k].value);
          var master := LegacyMaster(Inputs(bfs, old(buffer)));
          && sourceBuffers == old(sourceBuffers) + bfs
          && buffer == (if master.Some? then master else old(buffer))
          && fired == (if master.Some? then old(fired) + [master.value] else old(fired))
        else
          sourceBuffers == old(sourceBuffers) && buffer == old(buffer) && fired == old(fired)
    {
      if forall d :: d in decoded ==> d.Some? {
        var bfs := seq(|decoded|, k requires 0 <= k < |decoded| => decoded[k].value);
        assert AllWellFormed(bfs) by {
          forall b | b in bfs ensures Timeline.WellFormed(b) {
            var k :| 0 <= k < |bfs| && bfs[k] == b;
            assert decoded[k] in decoded;
          }
        }
        sourceBuffers := sourceBuffers + bfs;
        var inputs := Inputs(bfs, buffer);
        var master := CreateAudioBuffer(inputs);
        if master.Some? {
          LegacyMasterWellFormed(inputs);
          buffer := master;
          fired := fired + [master.value];
        }
      }
    }

    /** `decodeBuffersFromPromises`: a network error anywhere rejects the batch before decoding. */
    method DecodeBuffersFromPromises(retrieved: seq<Timeline.Retrieval>)
      requires Valid()
      requires Timeline.NoNetworkError(retrieved) ==> Timeline.DecodesWellFormed(Timeline.DecodeResults(retrieved))
      modifies this
      ensures Valid()
      ensures if Timeline.NoNetworkError(retrieved) && forall d :: d in Timeline.DecodeResults(retrieved) ==> d.Some? then
          var decoded := Timeline.DecodeResults(retrieved);
          var bfs := seq(|decoded|, k requires 0 <= k < |decoded| => decoded[k].value);
          var master := LegacyMaster(Inputs(bfs, old(buffer)));
          && sourceBuffers == old(sourceBuffers) + bfs
          && buffer == (if master.Some? then master else old(buffer))
          && fired == (if master.Some? then old(fired) + [master.value] else old(fired))
        else
          sourceBuffers == old(sourceBuffers) && buffer == old(buffer) && fired == old(fired)
    {
      if Timeline.NoNetworkError(retrieved) {
        DecodeBuffers(Timeline.DecodeResults(retrieved));
      }
    }
  }

  /** The master is well formed: every placed channel is as long as all inputs together. */
  lemma LegacyMasterWellFormed(buffers: seq<AudioData>)
    requires AllWellFormed(buffers)
    ensures LegacyMaster(buffers).Some? ==> Timeline.WellFormed(LegacyMaster(buffers).value)
  {
    if LegacyMaster(buffers).Some? {
      var n := MaxChannels(buffers);
      forall c | 0 <= c < n
        ensures TotalLength(ChannelData(buffers, c)) == TotalLength(ChannelData(buffers, 0))
      {
        SameLengthsSameTotal(ChannelData(buffers, c), ChannelData(buffers, 0));
      }
    }
  }

  lemma {:induction false} SameLengthsSameTotal(a: seq<seq<real>>, b: seq<seq<real>>)
    requires |a| == |b| && forall k :: 0 <= k < |a| ==> |a[k]| == |b[k]|
    ensures TotalLength(a) == TotalLength(b)
  {
    if a != [] {
      SameLengthsSameTotal(a[..|a| - 1], b[..|b| - 1]);
    }
  }
}
