/** `WaveAudioJS.files` and `addFiles` (dist/waveaudio.js): reconciling the loaded file list with a requested one. */
module WaveAudio {
  import opened Wrappers
  import opened Base
  import opened Timeline

  /** The elements of `a` that do occur in `b`, in `a`'s order. */
  function Intersect(a: seq<string>, b: seq<string>): seq<string>
  {
    if a == [] then [] else (if a[0] in b then [a[0]] else []) + Intersect(a[1..], b)
  }

  /** What `sendRequest` makes of each url: the request with its display colour. */
  function Pending(urls: seq<string>, colors: seq<string>): (r: seq<PendingFile>)
    requires |colors| == |urls|
    ensures |r| == |urls|
  {
    seq(|urls|, k requires 0 <= k < |urls| => PendingFile(urls[k], colors[k]))
  }

  lemma NamesCons(f: SourceFile, rest: seq<SourceFile>)
    ensures Names([f] + rest) == [f.url] + Names(rest)
  {
  }

  lemma NamesAppend(a: seq<SourceFile>, b: seq<SourceFile>)
    ensures Names(a + b) == Names(a) + Names(b)
  {
  }

  lemma RemoveAllAppend(files: seq<SourceFile>, a: seq<string>, b: seq<string>)
    ensures RemoveAll(files, a + b) == RemoveAll(RemoveAll(files, a), b)
    decreases |b|
  {
    if b == [] {
      assert a + b == a;
    } else {
      assert (a + b)[..|a + b| - 1] == a + b[..|b| - 1];
      RemoveAllAppend(files, a, b[..|b| - 1]);
    }
  }

  /** Removing a name that some file carries takes exactly one occurrence out of the name list. */
  lemma RemoveOneNames(files: seq<SourceFile>, name: string)
    requires name in Names(files)
    ensures multiset(Names(RemoveOne(files, name))) == multiset(Names(files)) - multiset{name}
  {
    var i := IndexOfUrl(files, name);
    var ns := Names(files);
    assert i >= 0 by {
      var k :| 0 <= k < |ns| && ns[k] == name;
      assert files[k].url == name;
    }
    assert RemoveOne(files, name) == files[..i] + files[i + 1..];
    assert Names(files[..i] + files[i + 1..]) == ns[..i] + ns[i + 1..];
    assert ns == ns[..i] + [name] + ns[i + 1..];
    assert multiset(ns) == multiset(ns[..i]) + multiset{name} + multiset(ns[i + 1..]);
  }

  /** Removing a name the front file does not carry leaves the front file in place. */
  lemma RemoveOneCons(f: SourceFile, rest: seq<SourceFile>, name: string)
    requires f.url != name && name in Names(rest)
    ensures RemoveOne([f] + rest, name) == [f] + RemoveOne(rest, name)
  {
    var i := IndexOfUrl(rest, name);
    assert ([f] + rest)[1..] == rest;
    assert i >= 0 by {
      var k :| 0 <= k < |rest| && Names(rest)[k] == name;
      assert rest[k].url == name;
    }
    assert IndexOfUrl([f] + rest, name) == i + 1;
    assert ([f] + rest)[..i + 1] == [f] + rest[..i];
    assert ([f] + rest)[i + 2..] == rest[i + 1..];
  }

  /**
   * A file whose url is not one of the names stays in front, as long as every name is still
   * carried by some file when its turn comes.
   */
  lemma {:induction false} RemoveAllSkips(f: SourceFile, rest: seq<SourceFile>, names: seq<string>)
    requires f.url !in names
    requires multiset(names) <= multiset(Names(rest))
    ensures RemoveAll([f] + rest, names) == [f] + RemoveAll(rest, names)
    decreases |names|
  {
    if names != [] {
      var d := names[0];
      assert names == [d] + names[1..];
      assert d in multiset(Names(rest));
      RemoveOneNames(rest, d);
      RemoveOneCons(f, rest, d);
      RemoveAllAppend([f] + rest, [d], names[1..]);
      RemoveAllAppend(rest, [d], names[1..]);
      assert multiset(names[1..]) <= multiset(Names(RemoveOne(rest, d)));
      RemoveAllSkips(f, RemoveOne(rest, d), names[1..]);
    }
  }

  /** The removed names all come from the remaining files and never name the file in front. */
  lemma DiffOfRest(f: SourceFile, rest: seq<SourceFile>, requested: seq<string>)
    requires f.url in requested
    ensures var d := GetDiff(Names(rest), requested);
      f.url !in d && multiset(d) <= multiset(Names(rest))
  {
    var d := GetDiff(Names(rest), requested);
    forall x ensures multiset(d)[x] <= multiset(Names(rest))[x] {
      GetDiffCounts(Names(rest), requested, x);
    }
    GetDiffCounts(Names(rest), requested, f.url);
  }

  /**
   * Removing `getDiff(loaded, requested)` from the loaded files leaves exactly the files whose
   * urls are requested, in their original order.
   */
  lemma {:induction false} RemovingTheDiffKeepsRequested(files: seq<SourceFile>, requested: seq<string>)
    ensures Names(RemoveAll(files, GetDiff(Names(files), requested))) == Intersect(Names(files), requested)
  {
    if files != [] {
      var f, rest := files[0], files[1..];
      assert files == [f] + rest;
      NamesCons(f, rest);
      var d := GetDiff(Names(rest), requested);
      RemovingTheDiffKeepsRequested(rest, requested);
      if f.url in requested {
        assert GetDiff(Names(files), requested) == d;
        DiffOfRest(f, rest, requested);
        RemoveAllSkips(f, rest, d);
        NamesCons(f, RemoveAll(rest, d));
      } else {
        assert GetDiff(Names(files), requested) == [f.url] + d;
        RemoveAllAppend(files, [f.url], d);
        assert RemoveAll(files, [f.url]) == rest by {
          assert [f.url][..0] == [];
        }
      }
    }
  }

  /** Every requested name ends up loaded, and nothing else: the kept names plus the added ones. */
  lemma ReconciledNames(loaded: seq<string>, requested: seq<string>, x: string)
    ensures x in Intersect(loaded, requested) + GetDiff(requested, loaded) <==> x in requested
  {
    IntersectMembers(loaded, requested, x);
  }

  lemma {:induction false} IntersectMembers(a: seq<string>, b: seq<string>, x: string)
    ensures x in Intersect(a, b) <==> x in a && x in b
  {
    if a != [] {
      IntersectMembers(a[1..], b, x);
      assert a == [a[0]] + a[1..];
    }
  }

  class WaveAudioJS {
    const audioCtx: AudioContext

    ghost predicate Valid()
      reads this, audioCtx
    {
      audioCtx.Valid()
    }

    constructor (audioCtx: AudioContext)
      requires audioCtx.Valid()
      ensures Valid() && this.audioCtx == audioCtx
    {
      this.audioCtx := audioCtx;
    }

    /**
     * `addFiles`: one request per url, decoded and appended as one batch. `retrieved` is how
     * each request ended and `colors` the random colour each was given.
     */
    method AddFiles(filesNames: seq<string>, retrieved: seq<Retrieval>, colors: seq<string>)
      requires Valid() && |retrieved| == |filesNames| && |colors| == |filesNames|
      requires NoNetworkError(retrieved) ==> DecodesWellFormed(DecodeResults(retrieved))
      modifies audioCtx
      ensures Valid()
      ensures if NoNetworkError(retrieved) && forall d :: d in DecodeResults(retrieved) ==> d.Some? then
          && audioCtx.sourceFiles == old(audioCtx.sourceFiles) + Attach(Pending(filesNames, colors), DecodeResults(retrieved))
          && audioCtx.buffer.Some?
          && audioCtx.buffer == Some(Master(audioCtx.sourceFiles, audioCtx.sampleRate))
          && audioCtx.fired == old(audioCtx.fired) + [audioCtx.buffer.value]
        else
          && audioCtx.sourceFiles == old(audioCtx.sourceFiles)
          && audioCtx.buffer == old(audioCtx.buffer)
          && audioCtx.fired == old(audioCtx.fired)
    {
      var files := Pending(filesNames, colors);
      audioCtx.DecodeBuffersFromPromises(files, retrieved);
    }

    /**
     * `files(requested)`: removes the loaded files whose urls are not requested (without an event
     * when files are about to be added), then adds the requested urls that are not loaded.
     */
    method Files(files: seq<string>, retrieved: seq<Retrieval>, colors: seq<string>)
      requires Valid()
      requires |retrieved| == |colors| == |GetDiff(files, Names(audioCtx.sourceFiles))|
      requires NoNetworkError(retrieved) ==> DecodesWellFormed(DecodeResults(retrieved))
      modifies audioCtx
      ensures Valid()
      ensures var loaded := old(Names(audioCtx.sourceFiles));
        var added := GetDiff(files, loaded);
        var kept := RemoveAll(old(audioCtx.sourceFiles), GetDiff(loaded, files));
        var loadedAll := added != [] && NoNetworkError(retrieved) && forall d :: d in DecodeResults(retrieved) ==> d.Some?;
        var removedOnly := GetDiff(loaded, files) != [] && added == [];
        && audioCtx.sourceFiles == (if loadedAll then kept + Attach(Pending(added, colors), DecodeResults(retrieved)) else kept)
        && audioCtx.buffer == (if loadedAll then Some(Master(audioCtx.sourceFiles, audioCtx.sampleRate))
                               else if GetDiff(loaded, files) != [] then Some(Master(kept, audioCtx.sampleRate))
                               else old(audioCtx.buffer))
        && audioCtx.fired == old(audioCtx.fired)
             + (if removedOnly then [Master(kept, audioCtx.sampleRate)] else [])
             + (if loadedAll then [audioCtx.buffer.value] else [])
    {
      var removedFiles := GetDiff(Names(audioCtx.sourceFiles), files);
      var addedFiles := GetDiff(files, Names(audioCtx.sourceFiles));
      ghost var kept := RemoveAll(audioCtx.sourceFiles, removedFiles);
      ghost var fired := audioCtx.fired;
      ghost var loadedAll := addedFiles != [] && NoNetworkError(retrieved)
        && forall d :: d in DecodeResults(retrieved) ==> d.Some?;
      if |removedFiles| > 0 {
        audioCtx.RemoveFiles(removedFiles, !(|addedFiles| > 0));
      }
      assert audioCtx.sourceFiles == kept;
      assert audioCtx.buffer == if removedFiles != [] then Some(Master(kept, audioCtx.sampleRate)) else old(audioCtx.buffer);
      ghost var fired1 := fired + (if removedFiles != [] && addedFiles == [] then [Master(kept, audioCtx.sampleRate)] else []);
      assert audioCtx.fired == fired1;
      if |addedFiles| > 0 {
        AddFiles(addedFiles, retrieved, colors);
        if loadedAll {
          assert audioCtx.sourceFiles == kept + Attach(Pending(addedFiles, colors), DecodeResults(retrieved));
          assert audioCtx.fired == fired1 + [audioCtx.buffer.value];
        } else {
          assert audioCtx.sourceFiles == kept && audioCtx.fired == fired1;
        }
      }
    }
  }

  /**
   * After `files(requested)` with every added file loaded, the loaded urls are the requested
   * ones that were loaded before, in their old order, followed by the newly added ones.
   */
  lemma FilesOutcome(loaded: seq<SourceFile>, requested: seq<string>, added: seq<SourceFile>)
    requires Names(added) == GetDiff(requested, Names(loaded))
    ensures var now := RemoveAll(loaded, GetDiff(Names(loaded), requested)) + added;
      && Names(now) == Intersect(Names(loaded), requested) + GetDiff(requested, Names(loaded))
      && forall x :: x in Names(now) <==> x in requested
  {
    var kept := RemoveAll(loaded, GetDiff(Names(loaded), requested));
    var names := Intersect(Names(loaded), requested) + GetDiff(requested, Names(loaded));
    RemovingTheDiffKeepsRequested(loaded, requested);
    NamesAppend(kept, added);
    assert Names(kept + added) == names;
    forall x ensures x in names <==> x in requested {
      ReconciledNames(Names(loaded), requested, x);
    }
  }
}
