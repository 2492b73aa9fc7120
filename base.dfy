/**
 * `BaseClass` (src/base.ts, bundled again in dist/waveaudio.js): the configuration helpers every
 * component extends.
 */
module Base {
  import opened Wrappers

  /** `getDiff(first, second)`: the elements of `first` that do not occur in `second`. */
  function GetDiff<T(==)>(first: seq<T>, second: seq<T>): (r: seq<T>)
    ensures forall i :: 0 <= i < |r| ==> r[i] in first && r[i] !in second
    ensures forall i :: 0 <= i < |first| && first[i] !in second ==> first[i] in r
    ensures |r| <= |first|
  {
    if first == [] then []
    else (if first[0] in second then [] else [first[0]]) + GetDiff(first[1..], second)
  }

  /** The filter keeps `first`'s order: it distributes over concatenation. */
  lemma {:induction false} GetDiffAppend<T>(a: seq<T>, b: seq<T>, second: seq<T>)
    ensures GetDiff(a + b, second) == GetDiff(a, second) + GetDiff(b, second)
  {
    if a != [] {
      assert (a + b)[1..] == a[1..] + b;
      GetDiffAppend(a[1..], b, second);
    } else {
      assert a + b == b;
    }
  }

  /** Duplicates are kept: every kept value occurs as often as in `first`. */
  lemma {:induction false} GetDiffCounts<T>(first: seq<T>, second: seq<T>, x: T)
    ensures multiset(GetDiff(first, second))[x] == if x in second then 0 else multiset(first)[x]
  {
    if first != [] {
      var head := if first[0] in second then [] else [first[0]];
      GetDiffCounts(first[1..], second, x);
      assert GetDiff(first, second) == head + GetDiff(first[1..], second);
      assert first == [first[0]] + first[1..];
      assert multiset(first) == multiset{first[0]} + multiset(first[1..]);
      assert multiset(GetDiff(first, second)) == multiset(head) + multiset(GetDiff(first[1..], second));
    }
  }

  /** `getDiff(a, [])` is `a` and `getDiff(a, a)` is empty. */
  lemma {:induction false} GetDiffBoundaries<T>(a: seq<T>)
    ensures GetDiff(a, []) == a
    ensures GetDiff(a, a) == []
  {
    GetDiffNothing(a);
    GetDiffCovered(a, a);
  }

  lemma {:induction false} GetDiffCovered<T>(a: seq<T>, second: seq<T>)
    requires forall i :: 0 <= i < |a| ==> a[i] in second
    ensures GetDiff(a, second) == []
  {
    if a != [] {
      GetDiffCovered(a[1..], second);
    }
  }

  lemma {:induction false} GetDiffNothing<T>(a: seq<T>)
    ensures GetDiff(a, []) == a
  {
    if a != [] {
      GetDiffNothing(a[1..]);
      assert a == [a[0]] + a[1..];
    }
  }

  /** How the `audioFiles` option was given to the constructor. */
  datatype AudioFilesOption = Url(url: string) | Urls(urls: seq<string>) | NotAList

  /**
   * The `audioFiles` check of `validateProperties`: a string becomes a one-element list, an
   * array is kept, anything else is rejected.
   */
  function NormaliseAudioFiles(option: AudioFilesOption): (r: Result<seq<string>, string>)
    ensures r.Failure? <==> option.NotAList?
    ensures r.Failure? ==> r.error == "Invalid data for audio files"
    ensures option.Url? ==> r == Success([option.url])
    ensures option.Urls? ==> r == Success(option.urls)
  {
    match option
    case Url(url) => Success([url])
    case Urls(urls) => Success(urls)
    case NotAList => Failure("Invalid data for audio files")
  }

  /** Normalising an already normalised list changes nothing. */
  lemma NormaliseIdempotent(option: AudioFilesOption)
    requires NormaliseAudioFiles(option).Success?
    ensures NormaliseAudioFiles(Urls(NormaliseAudioFiles(option).value)) == NormaliseAudioFiles(option)
  {
  }

  /**
   * The result of `setProperties`: every own key of `extended` that the configuration also has
   * takes the configured value; every other key keeps its value; no key is added.
   */
  function Overlay<V>(configured: map<string, V>, extended: map<string, V>): (r: map<string, V>)
    ensures r.Keys == extended.Keys
    ensures forall k :: k in extended && k in configured ==> r[k] == configured[k]
    ensures forall k :: k in extended && k !in configured ==> r[k] == extended[k]
  {
    map k | k in extended :: if k in configured then configured[k] else extended[k]
  }

  /** Applying the same configuration twice gives the same object as applying it once. */
  lemma OverlayIdempotent<V>(configured: map<string, V>, extended: map<string, V>)
    ensures Overlay(configured, Overlay(configured, extended)) == Overlay(configured, extended)
  {
  }

  /**
   * `getColorAt(idx)`, configured-colour branch: the colour at `idx` when `colors` is an array
   * (`Some`) holding a truthy (non-empty) string there; `None` is the random-colour fallback.
   */
  function GetColorAt(colors: Option<seq<string>>, idx: int): (r: Option<string>)
    ensures r.Some? <==> colors.Some? && 0 <= idx < |colors.value| && colors.value[idx] != ""
    ensures r.Some? ==> r.value == colors.value[idx]
  {
    if colors.Some? && 0 <= idx < |colors.value| && colors.value[idx] != "" then Some(colors.value[idx]) else None
  }

  /** The configuration object and the own properties of the instance built from it. */
  class BaseClass<V> {
    /** The options object given to the constructor, by own key. */
    var properties: map<string, V>
    /** This instance's own properties, by name. */
    var fields: map<string, V>

    constructor (properties: map<string, V>, fields: map<string, V>)
      ensures this.properties == properties && this.fields == fields
    {
      this.properties := properties;
      this.fields := fields;
    }

    /** `setProperties(extended)`: copies each configured key that `extended` already owns. */
    method SetProperties(extended: BaseClass<V>)
      modifies extended`fields
      ensures extended.fields == Overlay(properties, old(extended.fields))
    {
      var todo := properties.Keys;
      while todo != {}
        invariant todo <= properties.Keys
        invariant extended.fields.Keys == old(extended.fields).Keys
        invariant forall k :: k in extended.fields ==>
          extended.fields[k] == if k in properties && k !in todo then properties[k] else old(extended.fields)[k]
        decreases todo
      {
        var prop :| prop in todo;
        if prop in extended.fields {
          extended.fields := extended.fields[prop := properties[prop]];
        }
        todo := todo - {prop};
      }
    }
  }
}
