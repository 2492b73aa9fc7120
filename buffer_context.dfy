/**
 * The playback-buffer context the effects store talks to (`AudioBufferContext`). Its
 * implementation is not part of this model; it is described here by the operations the store
 * calls: the sample rate, the number of loaded files, `extractBufferAt`, `applyBufferChanges`,
 * `revertBufferChanges`, and the "buffer changed" notification, counted in `changeEvents`.
 */
module BufferContext {
  import opened Seqs

  /** One rendered window handed to `applyBufferChanges`: samples to write from `offset` on. */
  datatype Patch = Patch(offset: int, samples: seq<real>)

  predicate Covers(p: Patch, k: int)
  {
    p.offset <= k < p.offset + |p.samples|
  }

  /** The channel after writing the patches in order; writes past either end are dropped. */
  function ApplyPatches(channel: seq<real>, patches: seq<Patch>): (r: seq<real>)
    ensures |r| == |channel|
  {
    if patches == [] then channel
    else
      var last := patches[|patches| - 1];
      WriteAt(ApplyPatches(channel, patches[..|patches| - 1]), last.offset, last.samples)
  }

  /** `k` clamped into `[0, len]`. */
  function Clamp(k: int, len: nat): (c: nat)
    ensures c <= len
    ensures 0 <= k <= len ==> c == k
    ensures k < 0 ==> c == 0
    ensures k > len ==> c == len
  {
    if k < 0 then 0 else if k > len then len else k
  }

  /** A sample no patch covers keeps its value. */
  lemma {:induction false} UncoveredUnchanged(channel: seq<real>, patches: seq<Patch>, k: int)
    requires 0 <= k < |channel|
    requires forall i :: 0 <= i < |patches| ==> !Covers(patches[i], k)
    ensures ApplyPatches(channel, patches)[k] == channel[k]
    decreases |patches|
  {
    if patches != [] {
      UncoveredUnchanged(channel, patches[..|patches| - 1], k);
    }
  }

  /** A covered sample takes its value from the patches alone, whatever the channel held before. */
  lemma {:induction false} CoveredIndependent(a: seq<real>, b: seq<real>, patches: seq<Patch>, k: int, i: nat)
    requires |a| == |b| && 0 <= k < |a|
    requires i < |patches| && Covers(patches[i], k)
    ensures ApplyPatches(a, patches)[k] == ApplyPatches(b, patches)[k]
    decreases |patches|
  {
    var last := patches[|patches| - 1];
    if !Covers(last, k) {
      CoveredIndependent(a, b, patches[..|patches| - 1], k, i);
    }
  }

  /** Writing the same patches again changes nothing. */
  lemma PatchIdempotent(channel: seq<real>, patches: seq<Patch>)
    ensures ApplyPatches(ApplyPatches(channel, patches), patches) == ApplyPatches(channel, patches)
  {
    var once := ApplyPatches(channel, patches);
    forall k | 0 <= k < |channel|
      ensures ApplyPatches(once, patches)[k] == once[k]
    {
      if i :| 0 <= i < |patches| && Covers(patches[i], k) {
        CoveredIndependent(once, channel, patches, k, i);
      } else {
        UncoveredUnchanged(channel, patches, k);
        UncoveredUnchanged(once, patches, k);
      }
    }
  }

  /** Patches laid one after the other without overlap. */
  predicate Ascending(patches: seq<Patch>)
  {
    forall a, b :: 0 <= a < b < |patches| ==> patches[a].offset + |patches[a].samples| <= patches[b].offset
  }

  /** With ascending patches every sample of a patch that lands in the channel is what that patch wrote. */
  lemma {:induction false} AscendingPatchAt(channel: seq<real>, patches: seq<Patch>, i: nat, j: nat)
    requires Ascending(patches)
    requires i < |patches| && j < |patches[i].samples|
    requires 0 <= patches[i].offset + j < |channel|
    ensures ApplyPatches(channel, patches)[patches[i].offset + j] == patches[i].samples[j]
    decreases |patches|
  {
    var init := patches[..|patches| - 1];
    if i < |patches| - 1 {
      assert init[i] == patches[i];
      assert Ascending(init);
      AscendingPatchAt(channel, init, i, j);
    }
  }

  /** A copy of the samples in `[startIndex, endIndex)`, both ends clamped to the bounds. */
  function Extract(samples: seq<real>, startIndex: int, endIndex: int): (r: seq<real>)
    ensures var lo := Clamp(startIndex, |samples|);
      var hi := Clamp(endIndex, |samples|);
      && |r| == (if lo <= hi then hi - lo else 0)
      && forall k :: 0 <= k < |r| ==> r[k] == samples[lo + k]
  {
    var lo := Clamp(startIndex, |samples|);
    var hi := Clamp(endIndex, |samples|);
    if lo <= hi then samples[lo..hi] else []
  }

  class AudioBufferContext {
    const sampleRate: nat
    /** `sourceFiles.length`. */
    var fileCount: nat
    /** The snapshot of the active channel taken when the file set last changed. */
    var original: seq<real>
    /** The active channel of the playable buffer. */
    var active: seq<real>
    /** How many "buffer changed" notifications have been sent. */
    var changeEvents: nat

    ghost predicate Valid()
      reads this
    {
      sampleRate > 0 && |active| == |original|
    }

    constructor (sampleRate: nat, fileCount: nat, samples: seq<real>)
      requires sampleRate > 0
      ensures Valid()
      ensures this.sampleRate == sampleRate && this.fileCount == fileCount
      ensures original == samples && active == samples && changeEvents == 0
    {
      this.sampleRate := sampleRate;
      this.fileCount := fileCount;
      original := samples;
      active := samples;
      changeEvents := 0;
    }

    /** `extractBufferAt(startIndex, endIndex)`, read from the snapshot. */
    function ExtractBufferAt(startIndex: int, endIndex: int): seq<real>
      reads this
    {
      Extract(original, startIndex, endIndex)
    }

    /** Writes the rendered windows onto the active channel; the snapshot is left alone. */
    method ApplyBufferChanges(patches: seq<Patch>)
      requires Valid()
      modifies this
      ensures Valid()
      ensures active == ApplyPatches(old(active), patches)
      ensures original == old(original) && fileCount == old(fileCount)
      ensures changeEvents == old(changeEvents) + 1
    {
      active := ApplyPatches(active, patches);
      changeEvents := changeEvents + 1;
    }

    /** Restores the active channel from the snapshot. */
    method RevertBufferChanges()
      requires Valid()
      modifies this
      ensures Valid()
      ensures active == original
      ensures original == old(original) && fileCount == old(fileCount)
      ensures changeEvents == old(changeEvents) + 1
    {
      active := original;
      changeEvents := changeEvents + 1;
    }

    /** A change of the file set: a new timeline, a fresh snapshot, and the notification. */
    method Reload(fileCount: nat, samples: seq<real>)
      requires Valid()
      modifies this
      ensures Valid()
      ensures this.fileCount == fileCount && original == samples && active == samples
      ensures changeEvents == old(changeEvents) + 1
    {
      this.fileCount := fileCount;
      original := samples;
      active := samples;
      changeEvents := changeEvents + 1;
    }
  }

  /** Reading the whole snapshot gives the snapshot back, so after a revert the active channel equals it. */
  lemma ExtractWhole(samples: seq<real>)
    ensures Extract(samples, 0, |samples|) == samples
  {
  }
}
