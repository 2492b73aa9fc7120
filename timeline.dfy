/**
 * The timeline aggregator `AudioContext` of dist/waveaudio.js: the ordered list of loaded source
 * files and the master buffer built from them by per-channel concatenation.
 */
module Timeline {
  import opened Wrappers
  import opened Seqs

  /** A decoded audio buffer: one sample sequence per channel. */
  datatype AudioData = AudioData(channels: seq<seq<real>>)

  /** What the platform decoder hands back: at least one channel, all channels of one length. */
  predicate WellFormed(b: AudioData)
  {
    |b.channels| >= 1 && forall c :: 0 <= c < |b.channels| ==> |b.channels[c]| == |b.channels[0]|
  }

  /** A loaded file: its url, its decoded buffer and its display colour. */
  datatype SourceFile = SourceFile(url: string, buffer: AudioData, color: string)

  /** A requested file before its bytes arrive (what `sendRequest` returns, without the promise). */
  datatype PendingFile = PendingFile(url: string, color: string)

  /**
   * How the retrieval of one file ended: a network error, or bytes together with what the
   * platform decoder makes of them (`None` is a decoding error).
   */
  datatype Retrieval = NetworkError | Retrieved(decoded: Option<AudioData>)

  predicate AllWellFormed(files: seq<SourceFile>)
  {
    forall f :: f in files ==> WellFormed(f.buffer)
  }

  /** `fileNames`: the urls of the files, in file order. */
  function Names(files: seq<SourceFile>): seq<string>
  {
    seq(|files|, k requires 0 <= k < |files| => files[k].url)
  }

  // ---------------------------------------------------------------------------------------------
  // Channel layout of the master buffer (createAudioBuffer, concatBuffersData)

  /** Channel `c` of a file as the layout uses it: the channel itself, or silence of the file's length. */
  function ChannelOrSilence(b: AudioData, c: nat): (r: seq<real>)
    requires WellFormed(b)
    ensures |r| == |b.channels[0]|
  {
    if c <= |b.channels| - 1 then b.channels[c] else Zeros(|b.channels[0]|)
  }

  function MaxChannels(files: seq<SourceFile>): nat
  {
    if files == [] then 0
    else
      var m := MaxChannels(files[..|files| - 1]);
      var n := |files[|files| - 1].buffer.channels|;
      if n > m then n else m
  }

  /** The per-file pieces that make up master channel `c`, in file order. */
  function ChannelData(files: seq<SourceFile>, c: nat): (r: seq<seq<real>>)
    requires AllWellFormed(files)
    ensures |r| == |files|
  {
    seq(|files|, k requires 0 <= k < |files| => ChannelOrSilence(files[k].buffer, c))
  }

  /** The master buffer of a file list: what `createAudioBuffer` builds for it. */
  function Master(files: seq<SourceFile>, sampleRate: nat): AudioData
    requires AllWellFormed(files)
  {
    var n := MaxChannels(files);
    if n == 0 then AudioData([Zeros(sampleRate)])
    else AudioData(seq(n, c requires 0 <= c < n => Concat(ChannelData(files, c))))
  }

  /** The length `findStartPositionsOnChannel` reads for a file: its channel `ch`, or channel 0. */
  function ChannelLength(f: SourceFile, ch: nat): nat
    requires WellFormed(f.buffer)
  {
    |f.buffer.channels[if ch > |f.buffer.channels| - 1 then 0 else ch]|
  }

  function SumLengths(files: seq<SourceFile>, ch: nat): nat
    requires AllWellFormed(files)
  {
    if files == [] then 0
    else SumLengths(files[..|files| - 1], ch) + ChannelLength(files[|files| - 1], ch)
  }

  /** Each file's starting sample: the lengths of the files before it, added up. */
  function StartPositions(files: seq<SourceFile>, ch: nat): (r: seq<nat>)
    requires AllWellFormed(files)
    ensures |r| == |files|
  {
    seq(|files|, k requires 0 <= k < |files| => SumLengths(files[..k], ch))
  }

  // ---------------------------------------------------------------------------------------------
  // File removal (removeFiles)

  /** `sourceFiles.indexOf(sourceFiles.find(f => f.url === name))`: the first match, or -1. */
  function IndexOfUrl(files: seq<SourceFile>, name: string): (r: int)
    ensures -1 <= r < |files|
    ensures r >= 0 ==> files[r].url == name && forall j :: 0 <= j < r ==> files[j].url != name
    ensures r == -1 ==> forall j :: 0 <= j < |files| ==> files[j].url != name
  {
    if files == [] then -1
    else if files[0].url == name then 0
    else
      var i := IndexOfUrl(files[1..], name);
      if i == -1 then -1 else i + 1
  }

  function RemoveOne(files: seq<SourceFile>, name: string): seq<SourceFile>
  {
    Splice(files, IndexOfUrl(files, name))
  }

  /** The file list after removing each name in turn. */
  function RemoveAll(files: seq<SourceFile>, names: seq<string>): (r: seq<SourceFile>)
    ensures forall f :: f in r ==> f in files
  {
    if names == [] then files
    else
      var before := RemoveAll(files, names[..|names| - 1]);
      var name := names[|names| - 1];
      assert forall f :: f in RemoveOne(before, name) ==> f in before by {
        if before != [] {
          SpliceMultiset(before, IndexOfUrl(before, name));
        }
      }
      RemoveOne(before, name)
  }

  /** The merged list a successful batch contributes: each request with its decoded buffer. */
  function Attach(files: seq<PendingFile>, decoded: seq<Option<AudioData>>): (r: seq<SourceFile>)
    requires |decoded| == |files| && forall d :: d in decoded ==> d.Some?
    ensures |r| == |files|
  {
    seq(|files|, k requires 0 <= k < |files| => SourceFile(files[k].url, decoded[k].value, files[k].color))
  }

  predicate NoNetworkError(retrieved: seq<Retrieval>)
  {
    forall r :: r in retrieved ==> r.Retrieved?
  }

  function DecodeResults(retrieved: seq<Retrieval>): (r: seq<Option<AudioData>>)
    requires NoNetworkError(retrieved)
    ensures |r| == |retrieved|
  {
    seq(|retrieved|, k requires 0 <= k < |retrieved| => retrieved[k].decoded)
  }

  predicate DecodesWellFormed(decoded: seq<Option<AudioData>>)
  {
    forall d :: d in decoded && d.Some? ==> WellFormed(d.value)
  }

  // ---------------------------------------------------------------------------------------------
  // Properties of the layout

  /** The master has as many channels as the widest file, and only no file at all gives none. */
  lemma {:induction false} MaxChannelsIsMaximum(files: seq<SourceFile>)
    ensures forall f :: f in files ==> |f.buffer.channels| <= MaxChannels(files)
    ensures files != [] ==> exists f :: f in files && |f.buffer.channels| == MaxChannels(files)
    ensures AllWellFormed(files) ==> (MaxChannels(files) == 0 <==> files == [])
  {
    if files != [] {
      var init := files[..|files| - 1];
      MaxChannelsIsMaximum(init);
      assert files == init + [files[|files| - 1]];
      assert files[|files| - 1] in files;
    }
  }

  lemma ChannelDataPrefix(files: seq<SourceFile>, c: nat, k: nat)
    requires AllWellFormed(files) && k <= |files|
    ensures AllWellFormed(files[..k])
    ensures ChannelData(files, c)[..k] == ChannelData(files[..k], c)
  {
    assert forall f :: f in files[..k] ==> f in files;
  }

  /** Every master channel is as long as all files together (channel 0 lengths, added up). */
  lemma {:induction false} ChannelDataTotal(files: seq<SourceFile>, c: nat, ch: nat)
    requires AllWellFormed(files)
    ensures TotalLength(ChannelData(files, c)) == SumLengths(files, ch)
  {
    if files != [] {
      var n := |files| - 1;
      ChannelDataPrefix(files, c, n);
      ChannelDataTotal(files[..n], c, ch);
      assert files[n] in files;
    }
  }

  /**
   * The master buffer is well formed; it has one channel per channel of the widest file (one
   * second of silence when there is no file) and each channel holds every file's samples.
   */
  lemma MasterShape(files: seq<SourceFile>, sampleRate: nat)
    requires AllWellFormed(files)
    ensures WellFormed(Master(files, sampleRate))
    ensures files == [] ==> Master(files, sampleRate).channels == [Zeros(sampleRate)]
    ensures files != [] ==> |Master(files, sampleRate).channels| == MaxChannels(files)
    ensures files != [] ==> forall c :: 0 <= c < MaxChannels(files) ==>
      |Master(files, sampleRate).channels[c]| == SumLengths(files, 0)
  {
    MaxChannelsIsMaximum(files);
    forall c | 0 <= c < MaxChannels(files)
      ensures |Concat(ChannelData(files, c))| == SumLengths(files, 0)
    {
      ConcatLength(ChannelData(files, c));
      ChannelDataTotal(files, c, 0);
    }
  }

  /**
   * File `k` occupies master channel `c` from its start position on: sample `j` there is the
   * file's channel `c` (or silence, when the file lacks that channel).
   */
  lemma MasterAt(files: seq<SourceFile>, sampleRate: nat, c: nat, k: nat, j: nat)
    requires AllWellFormed(files)
    requires c < MaxChannels(files) && k < |files| && j < |files[k].buffer.channels[0]|
    ensures StartPositions(files, 0)[k] + j < |Master(files, sampleRate).channels[c]|
    ensures Master(files, sampleRate).channels[c][StartPositions(files, 0)[k] + j]
         == ChannelOrSilence(files[k].buffer, c)[j]
  {
    assert files[k] in files;
    ConcatAt(ChannelData(files, c), k, j);
    ChannelDataPrefix(files, c, k);
    ChannelDataTotal(files[..k], c, 0);
  }

  /**
   * The start positions begin at 0, each is the previous one plus the previous file's length
   * (the requested channel falling back to channel 0 changes no length), so they never decrease.
   */
  lemma StartPositionsSteps(files: seq<SourceFile>, ch: nat)
    requires AllWellFormed(files)
    ensures files != [] ==> StartPositions(files, ch)[0] == 0
    ensures forall k :: 0 <= k < |files| - 1 ==>
      StartPositions(files, ch)[k + 1] == StartPositions(files, ch)[k] + |files[k].buffer.channels[0]|
    ensures forall i, j :: 0 <= i <= j < |files| ==> StartPositions(files, ch)[i] <= StartPositions(files, ch)[j]
  {
    var p := StartPositions(files, ch);
    forall k | 0 <= k < |files| - 1
      ensures p[k + 1] == p[k] + |files[k].buffer.channels[0]|
    {
      assert files[..k + 1][..k] == files[..k];
      assert files[k] in files;
    }
    forall i, j | 0 <= i <= j < |files|
      ensures p[i] <= p[j]
    {
      SumLengthsMonotone(files, ch, i, j);
    }
  }

  lemma {:induction false} SumLengthsMonotone(files: seq<SourceFile>, ch: nat, i: nat, j: nat)
    requires AllWellFormed(files) && i <= j <= |files|
    ensures AllWellFormed(files[..i]) && AllWellFormed(files[..j])
    ensures SumLengths(files[..i], ch) <= SumLengths(files[..j], ch)
    decreases j - i
  {
    assert forall f :: f in files[..i] ==> f in files;
    assert forall f :: f in files[..j] ==> f in files;
    if i < j {
      SumLengthsMonotone(files, ch, i, j - 1);
      assert files[..j][..j - 1] == files[..j - 1];
    }
  }

  /** The start positions are the master offsets: file `k` starts after the samples of files `0..k-1`. */
  lemma StartPositionIsOffset(files: seq<SourceFile>, c: nat, k: nat)
    requires AllWellFormed(files) && k < |files|
    ensures StartPositions(files, 0)[k] == TotalLength(ChannelData(files, c)[..k])
  {
    ChannelDataPrefix(files, c, k);
    ChannelDataTotal(files[..k], c, 0);
  }

  // ---------------------------------------------------------------------------------------------
  // Properties of removal

  /**
   * A name that some file carries removes the first such file and keeps the others in order; a
   * name that no file carries removes the last file (`splice(-1, 1)`).
   */
  lemma RemoveOneCases(files: seq<SourceFile>, name: string)
    ensures var i := IndexOfUrl(files, name);
      if i >= 0 then
        && files[i].url == name && (forall j :: 0 <= j < i ==> files[j].url != name)
        && RemoveOne(files, name) == files[..i] + files[i + 1..]
      else
        RemoveOne(files, name) == if files == [] then [] else files[..|files| - 1]
  {
  }

  /** Every name removes exactly one file, as long as there is one left to remove. */
  lemma {:induction false} RemoveAllCount(files: seq<SourceFile>, names: seq<string>)
    ensures |RemoveAll(files, names)| == if |names| <= |files| then |files| - |names| else 0
  {
    if names != [] {
      RemoveAllCount(files, names[..|names| - 1]);
    }
  }

  class AudioContext {
    /** `sourceFiles`: the loaded files, in timeline order. */
    var sourceFiles: seq<SourceFile>
    /** `buffer`: the master buffer; `None` until the first batch has been decoded. */
    var buffer: Option<AudioData>
    /** Payloads of the "decoded buffers" events triggered so far, oldest first. */
    var fired: seq<AudioData>
    /** The sample rate of the platform audio context. */
    const sampleRate: nat

    /** The master buffer always is the layout of the current file list. */
    ghost predicate Valid()
      reads this
    {
      && AllWellFormed(sourceFiles)
      && (buffer.None? ==> sourceFiles == [])
      && (buffer.Some? ==> buffer.value == Master(sourceFiles, sampleRate))
    }

    constructor (sampleRate: nat)
      ensures Valid()
      ensures this.sampleRate == sampleRate
      ensures sourceFiles == [] && buffer == None && fired == []
    {
      this.sampleRate := sampleRate;
      sourceFiles := [];
      buffer := None;
      fired := [];
    }

    /**
     * `concatBuffersData`: a fresh zero-filled array of the summed length, each piece copied in at
     * the running total of the lengths before it.
     */
    method ConcatBuffersData(buffersData: seq<seq<real>>) returns (r: seq<real>)
      ensures r == Concat(buffersData)
    {
      ConcatLength(buffersData);
      var resultLength := TotalLength(buffersData);
      var resultArray := new real[resultLength](_ => 0.0);
      var currLength := 0;
      assert resultArray[..] == Concat(buffersData[..0]) + Zeros(resultLength);
      for i := 0 to |buffersData|
        invariant currLength == TotalLength(buffersData[..i]) <= resultLength
        invariant resultArray[..] == Concat(buffersData[..i]) + Zeros(resultLength - currLength)
      {
        var bf := buffersData[i];
        var done := Concat(buffersData[..i]);
        TotalLengthPrefix(buffersData, i);
        TotalLengthPrefix(buffersData, i + 1);
        ConcatLength(buffersData[..i]);
        SetAt(resultArray, bf, currLength);
        WriteAfterPrefix(done, bf, Zeros(resultLength - currLength));
        assert Zeros(resultLength - currLength)[|bf|..] == Zeros(resultLength - currLength - |bf|);
        assert buffersData[..i + 1] == buffersData[..i] + [bf];
        ConcatSnoc(buffersData[..i], bf);
        currLength := currLength + |bf|;
      }
      assert buffersData[..|buffersData|] == buffersData;
      r := resultArray[..];
    }

    /**
     * `createAudioBuffer`: as many channels as the widest file, each the concatenation over the
     * files of that channel (or silence); one second of silence when there is no file.
     */
    method CreateAudioBuffer(fromAudioBuffers: seq<SourceFile>) returns (result: AudioData)
      requires AllWellFormed(fromAudioBuffers)
      ensures result == Master(fromAudioBuffers, sampleRate)
    {
      var maxChannels := WidestFile(fromAudioBuffers);
      if maxChannels == 0 {
        return AudioData([Zeros(sampleRate)]);
      }
      var channels: seq<seq<real>> := [];
      var idx := 0;
      // do { ... } while (++idx < maxChannels)
      while true
        invariant 0 <= idx < maxChannels
        invariant |channels| == idx
        invariant forall c :: 0 <= c < idx ==> channels[c] == Concat(ChannelData(fromAudioBuffers, c))
        decreases maxChannels - idx
      {
        var data := ChannelPieces(fromAudioBuffers, idx);
        var merged := ConcatBuffersData(data);
        channels := channels + [merged];
        idx := idx + 1;
        if !(idx < maxChannels) {
          break;
        }
      }
      assert channels == seq(maxChannels, c requires 0 <= c < maxChannels => Concat(ChannelData(fromAudioBuffers, c)));
      result := AudioData(channels);
    }

    /** The first loop of `createAudioBuffer`: the largest channel count over the files. */
    method WidestFile(fromAudioBuffers: seq<SourceFile>) returns (maxChannels: nat)
      ensures maxChannels == MaxChannels(fromAudioBuffers)
    {
      maxChannels := 0;
      for i := 0 to |fromAudioBuffers|
        invariant maxChannels == MaxChannels(fromAudioBuffers[..i])
      {
        assert fromAudioBuffers[..i + 1][..i] == fromAudioBuffers[..i];
        if |fromAudioBuffers[i].buffer.channels| > maxChannels {
          maxChannels := |fromAudioBuffers[i].buffer.channels|;
        }
      }
      assert fromAudioBuffers[..|fromAudioBuffers|] == fromAudioBuffers;
    }

    /** The `forEach` of `createAudioBuffer`: each file's channel `idx`, or silence of its length. */
    method ChannelPieces(fromAudioBuffers: seq<SourceFile>, idx: nat) returns (data: seq<seq<real>>)
      requires AllWellFormed(fromAudioBuffers)
      ensures data == ChannelData(fromAudioBuffers, idx)
    {
      data := [];
      for k := 0 to |fromAudioBuffers|
        invariant data == ChannelData(fromAudioBuffers, idx)[..k]
      {
        var abf := fromAudioBuffers[k].buffer;
        assert fromAudioBuffers[k] in fromAudioBuffers;
        if idx <= |abf.channels| - 1 {
          data := data + [abf.channels[idx]];
        } else {
          data := data + [Zeros(|abf.channels[0]|)];
        }
      }
    }

    /**
     * `findStartPositionsOnChannel`: one entry per file, each the running sum of the lengths of
     * the files before it.
     */
    method FindStartPositionsOnChannel(channel: nat) returns (positions: seq<nat>)
      requires AllWellFormed(sourceFiles)
      ensures positions == StartPositions(sourceFiles, channel)
    {
      positions := [];
      var sum := 0;
      for i := 0 to |sourceFiles|
        invariant sum == SumLengths(sourceFiles[..i], channel)
        invariant positions == StartPositions(sourceFiles[..i], channel)
      {
        var file := sourceFiles[i];
        var ch := if channel > |file.buffer.channels| - 1 then 0 else channel;
        var startAt := sum;
        positions := positions + [startAt];
        sum := sum + |file.buffer.channels[ch]|;
        assert sourceFiles[..i + 1][..i] == sourceFiles[..i];
        assert forall k :: 0 <= k <= i ==> sourceFiles[..i + 1][..k] == sourceFiles[..i][..k];
      }
      assert sourceFiles[..|sourceFiles|] == sourceFiles;
    }

    /**
     * `decodeBuffers`: once every buffer of the batch has decoded, the batch is appended after the
     * loaded files in request order, the master is rebuilt and the event fires. A single decoding
     * failure rejects the whole batch: nothing changes.
     */
    method DecodeBuffers(files: seq<PendingFile>, decoded: seq<Option<AudioData>>)
      requires Valid() && |decoded| == |files| && DecodesWellFormed(decoded)
      modifies this
      ensures Valid()
      ensures if forall d :: d in decoded ==> d.Some? then
          && sourceFiles == old(sourceFiles) + Attach(files, decoded)
          && buffer == Some(Master(sourceFiles, sampleRate))
          && fired == old(fired) + [buffer.value]
        else
          sourceFiles == old(sourceFiles) && buffer == old(buffer) && fired == old(fired)
    {
      if forall d :: d in decoded ==> d.Some? {
        var bfs := Attach(files, decoded);
        assert forall f :: f in bfs ==> WellFormed(f.buffer) by {
          forall f | f in bfs ensures WellFormed(f.buffer) {
            var k :| 0 <= k < |bfs| && bfs[k] == f;
            assert decoded[k] in decoded;
          }
        }
        sourceFiles := sourceFiles + bfs;
        var b := CreateAudioBuffer(sourceFiles);
        buffer := Some(b);
        fired := fired + [b];
      }
    }

    /**
     * `decodeBuffersFromPromises`: a network error on any file of the batch rejects the whole
     * batch before decoding; otherwise the decoded results go to `decodeBuffers`.
     */
    method DecodeBuffersFromPromises(files: seq<PendingFile>, retrieved: seq<Retrieval>)
      requires Valid() && |retrieved| == |files|
      requires NoNetworkError(retrieved) ==> DecodesWellFormed(DecodeResults(retrieved))
      modifies this
      ensures Valid()
      ensures if NoNetworkError(retrieved) && forall d :: d in DecodeResults(retrieved) ==> d.Some? then
          && sourceFiles == old(sourceFiles) + Attach(files, DecodeResults(retrieved))
          && buffer == Some(Master(sourceFiles, sampleRate))
          && fired == old(fired) + [buffer.value]
        else
          sourceFiles == old(sourceFiles) && buffer == old(buffer) && fired == old(fired)
    {
      if NoNetworkError(retrieved) {
        DecodeBuffers(files, DecodeResults(retrieved));
      }
    }

    /**
     * `removeFiles`: each name in turn removes the first file with that url (an unknown name
     * removes the last file); then the master is rebuilt and the event fires iff `fireEvent`.
     */
    method RemoveFiles(filesNames: seq<string>, fireEvent: bool)
      requires Valid()
      modifies this
      ensures Valid()
      ensures sourceFiles == RemoveAll(old(sourceFiles), filesNames)
      ensures buffer == Some(Master(sourceFiles, sampleRate))
      ensures fired == if fireEvent then old(fired) + [buffer.value] else old(fired)
    {
      for i := 0 to |filesNames|
        invariant sourceFiles == RemoveAll(old(sourceFiles), filesNames[..i])
        invariant fired == old(fired)
      {
        assert filesNames[..i + 1][..i] == filesNames[..i];
        var index := IndexOfUrl(sourceFiles, filesNames[i]);
        sourceFiles := Splice(sourceFiles, index);
      }
      assert filesNames[..|filesNames|] == filesNames;
      var b := CreateAudioBuffer(sourceFiles);
      buffer := Some(b);
      if fireEvent {
        fired := fired + [b];
      }
    }
  }
}
