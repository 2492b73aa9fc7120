/**
 * The effect catalog of src/effects.data.ts: the `Property` descriptor with its constructor
 * defaults and the static `Effects.list` table of the ten effect types.
 */
module EffectsData {
  import opened Wrappers

  /** `Property.Boolean`, `Property.Integer`, `Property.Float`. */
  datatype PropertyType = Boolean | Integer | Float

  /** The type tag as the source spells it. */
  function TypeTag(t: PropertyType): (tag: string)
    ensures tag in {"boolean", "integer", "float"}
  {
    match t
    case Boolean => "boolean"
    case Integer => "integer"
    case Float => "float"
  }

  /** A parameter descriptor; `max` is `null` in the source when the property has no upper bound. */
  datatype Property = Property(name: string, kind: PropertyType, defaultValue: real,
                               min: real, max: Option<real>, step: real)

  /** `new Property(name, type, defaultValue, min = 0, max = null, step = 1)`. */
  function MakeProperty(name: string, kind: PropertyType, defaultValue: real,
                        min: real := 0.0, max: Option<real> := None, step: real := 1.0): (p: Property)
    ensures p.name == name && p.kind == kind && p.defaultValue == defaultValue
    ensures p.min == min && p.max == max && p.step == step
  {
    Property(name, kind, defaultValue, min, max, step)
  }

  /** One `Effects.list` entry. */
  datatype EffectDescriptor = EffectDescriptor(properties: seq<Property>, description: string)

  /** The keys of `Effects.list`, in the order the table declares them. */
  const EffectTypes: seq<string> :=
    ["Gain", "Panner", "Tremolo", "Chorus", "Phaser", "Overdrive", "Delay", "Compressor",
     "Bitcrusher", "MoogFilter"]

  function Bool(name: string, defaultValue: real): Property
  {
    MakeProperty(name, Boolean, defaultValue)
  }

  function Int(name: string, defaultValue: real, min: real, max: real, step: real := 1.0): Property
  {
    MakeProperty(name, Integer, defaultValue, min, Some(max), step)
  }

  function Flt(name: string, defaultValue: real, min: real, max: real, step: real): Property
  {
    MakeProperty(name, Float, defaultValue, min, Some(max), step)
  }

  const GainEntry: EffectDescriptor :=
    EffectDescriptor([
      Flt("gain", 0.7, 0.0, 30.0, 0.1)], "")

  const PannerEntry: EffectDescriptor :=
    EffectDescriptor([
      Flt("pan", 0.0, -1.0, 1.0, 0.1)], "")

  const TremoloEntry: EffectDescriptor :=
    EffectDescriptor([
      Flt("intensity", 0.3, 0.0, 1.0, 0.01),
      Flt("rate", 4.0, 0.001, 8.0, 0.001),
      Int("stereoPhase", 0.0, 0.0, 180.0, 1.0),
      Bool("bypass", 0.0)], "")

  const ChorusEntry: EffectDescriptor :=
    EffectDescriptor([
      Flt("rate", 1.5, 0.01, 8.0, 0.01),
      Flt("delay", 0.0045, 0.0, 1.0, 0.0001),
      Flt("feedback", 0.45, 0.0, 0.8, 0.01),
      Bool("bypass", 0.0)], "")

  const PhaserEntry: EffectDescriptor :=
    EffectDescriptor([
      Flt("rate", 1.2, 0.01, 8.0, 0.01),
      Flt("depth", 0.3, 0.0, 1.0, 0.01),
      Flt("feedback", 0.2, 0.0, 0.8, 0.01),
      Flt("stereoPhase", 30.0, 0.0, 180.0, 1.0),
      Int("baseModulationFrequency", 700.0, 500.0, 1500.0, 1.0),
      Bool("bypass", 0.0)], "")

  const OverdriveEntry: EffectDescriptor :=
    EffectDescriptor([
      Flt("outputGain", 0.5, 0.0, 1.0, 0.01),
      Flt("drive", 0.7, 0.0, 1.0, 0.01),
      Flt("curveAmount", 0.8, 0.0, 1.0, 0.01),
      Int("algorithmIndex", 0.0, 0.0, 5.0, 1.0),
      Bool("bypass", 0.0)], "")

  const DelayEntry: EffectDescriptor :=
    EffectDescriptor([
      Int("delayTime", 150.0, 1.0, 10000.0),
      Flt("wetLevel", 0.25, 0.0, 1.0, 0.01),
      Flt("dryLevel", 1.0, 0.0, 1.0, 0.01),
      Int("cutoff", 2000.0, 20.0, 22050.0),
      Flt("feedback", 0.45, 0.0, 0.8, 0.01),
      Bool("bypass", 0.0)], "")

  const CompressorEntry: EffectDescriptor :=
    EffectDescriptor([
      Int("threshold", -1.0, -100.0, 0.0, 1.0),
      Int("makeupGain", 1.0, 0.0, 5.0, 1.0),
      Int("attack", 1.0, 0.0, 1000.0, 1.0),
      Int("release", 0.0, 0.0, 3000.0, 1.0),
      Int("ratio", 4.0, 1.0, 20.0, 1.0),
      Int("knee", 5.0, 0.0, 40.0, 1.0),
      Bool("automakeup", 1.0),
      Bool("bypass", 0.0)], "")

  const BitcrusherEntry: EffectDescriptor :=
    EffectDescriptor([
      Int("bits", 4.0, 1.0, 16.0, 1.0),
      Flt("normfreq", 0.1, 0.0, 1.0, 0.1),
      Int("bufferSize", 4096.0, 256.0, 16384.0, 2.0)], "")

  const MoogFilterEntry: EffectDescriptor :=
    EffectDescriptor([
      Flt("cutoff", 0.065, 0.0, 1.0, 0.001),
      Flt("resonance", 3.5, 0.0, 4.0, 0.1),
      Int("bufferSize", 4096.0, 256.0, 16384.0, 2.0)], "")

  /** `Effects.list`. */
  const List: map<string, EffectDescriptor> := map[
    "Gain" := GainEntry,
    "Panner" := PannerEntry,
    "Tremolo" := TremoloEntry,
    "Chorus" := ChorusEntry,
    "Phaser" := PhaserEntry,
    "Overdrive" := OverdriveEntry,
    "Delay" := DelayEntry,
    "Compressor" := CompressorEntry,
    "Bitcrusher" := BitcrusherEntry,
    "MoogFilter" := MoogFilterEntry
  ]

  /** What the `add` loop needs of a descriptor's property list. */
  predicate DistinctNames(props: seq<Property>)
  {
    forall i, j :: 0 <= i < j < |props| ==> props[i].name != props[j].name
  }

  /** A bounded property's default lies within its bounds. */
  predicate InBounds(p: Property)
  {
    p.max.Some? ==> p.min <= p.defaultValue <= p.max.value
  }

  /** A toggle has no upper bound and is off or on; an integer property has a whole default. */
  predicate KindRespected(p: Property)
  {
    && (p.kind == Boolean ==> p.max == None && (p.defaultValue == 0.0 || p.defaultValue == 1.0))
    && (p.kind == Integer ==> p.defaultValue == p.defaultValue.Floor as real)
  }

  /** Every property of a list respects its bounds and its kind. */
  predicate WellBounded(props: seq<Property>)
  {
    forall k :: 0 <= k < |props| ==> InBounds(props[k]) && KindRespected(props[k])
  }

  predicate SoundDescriptor(d: EffectDescriptor)
  {
    DistinctNames(d.properties) && WellBounded(d.properties)
  }

  /** Constructor defaults: omitted bounds are 0 and none, an omitted step is 1. */
  lemma PropertyDefaults(name: string, kind: PropertyType, defaultValue: real)
    ensures var p := MakeProperty(name, kind, defaultValue);
      p.min == 0.0 && p.max == None && p.step == 1.0
  {
  }

  /** The table has exactly the ten listed types, each named once. */
  lemma CatalogTypes()
    ensures |EffectTypes| == 10
    ensures forall i, j :: 0 <= i < j < |EffectTypes| ==> EffectTypes[i] != EffectTypes[j]
    ensures List.Keys == set t | t in EffectTypes
  {
  }

  /** Distinct kinds carry distinct tags. */
  lemma TypeTagInjective(t: PropertyType, u: PropertyType)
    ensures TypeTag(t) == TypeTag(u) <==> t == u
  {
  }

  lemma GainSound()
    ensures SoundDescriptor(GainEntry)
  {
    assert DistinctNames(GainEntry.properties);
    assert WellBounded(GainEntry.properties);
  }

  lemma PannerSound()
    ensures SoundDescriptor(PannerEntry)
  {
    assert DistinctNames(PannerEntry.properties);
    assert WellBounded(PannerEntry.properties);
  }

  lemma TremoloSound()
    ensures SoundDescriptor(TremoloEntry)
  {
    assert DistinctNames(TremoloEntry.properties);
    assert WellBounded(TremoloEntry.properties);
  }

  lemma ChorusSound()
    ensures SoundDescriptor(ChorusEntry)
  {
    assert DistinctNames(ChorusEntry.properties);
    assert WellBounded(ChorusEntry.properties);
  }

  lemma PhaserSound()
    ensures SoundDescriptor(PhaserEntry)
  {
    assert DistinctNames(PhaserEntry.properties);
    assert WellBounded(PhaserEntry.properties);
  }

  lemma OverdriveSound()
    ensures SoundDescriptor(OverdriveEntry)
  {
    assert DistinctNames(OverdriveEntry.properties);
    assert WellBounded(OverdriveEntry.properties);
  }

  lemma DelaySound()
    ensures SoundDescriptor(DelayEntry)
  {
    assert DistinctNames(DelayEntry.properties);
    assert WellBounded(DelayEntry.properties);
  }

  lemma CompressorSound()
    ensures SoundDescriptor(CompressorEntry)
  {
    assert DistinctNames(CompressorEntry.properties);
    assert WellBounded(CompressorEntry.properties);
  }

  lemma BitcrusherSound()
    ensures SoundDescriptor(BitcrusherEntry)
  {
    assert DistinctNames(BitcrusherEntry.properties);
    assert WellBounded(BitcrusherEntry.properties);
  }

  lemma MoogFilterSound()
    ensures SoundDescriptor(MoogFilterEntry)
  {
    assert DistinctNames(MoogFilterEntry.properties);
    assert WellBounded(MoogFilterEntry.properties);
  }

  /** Every descriptor of the table respects bounds and kinds and names its properties once. */
  lemma CatalogSound(t: string)
    requires t in List
    ensures SoundDescriptor(List[t])
  {
    GainSound();
    PannerSound();
    TremoloSound();
    ChorusSound();
    PhaserSound();
    OverdriveSound();
    DelaySound();
    CompressorSound();
    BitcrusherSound();
    MoogFilterSound();
  }
}
