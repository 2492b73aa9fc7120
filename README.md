# waveaudio.js — a verified model of the timeline and effect-window core

waveaudio.js loads audio files into one master timeline, draws the timeline as a waveform, and
applies audio effects to stretches of it. This project models the parts of the library that do
that bookkeeping:

- **Timeline aggregator** (`AudioContext` in `dist/waveaudio.js`, module `Timeline`).
  - Keeps the ordered list of loaded source files.
  - Appends each decoded batch after the files already loaded.
  - Removes files by url.
  - Builds the master buffer by concatenating each channel over the files. A file that lacks a
    channel contributes silence of its own length.
  - Computes each file's start sample as a running sum.
- **Older aggregator** (`src/audio.context.ts`, module `LegacyTimeline`). Its concatenation
  places each piece at the previous piece's length. Its decoding builds the master from the new
  batch followed by the previous master.
- **File-list reconciliation** (`WaveAudioJS.files` and `addFiles`, module `WaveAudio`).
- **Owner lookup** of the waveform (a `reduce` over the start positions inside
  `CanvasContext.computeValues` of the bundle, module `Waveform`).
- **Effects registry and window planner** (`EffectsStore` in `src/effects.store.ts`, module `Effects`).
  - Registers effect records with catalog defaults.
  - Computes each record's seconds and the union interval.
  - Plans one window per whole second that has active effects. Each window has its patch
    offset, its input range and its effect chain, in registration order.
  - Hands the rendered windows to the buffer context.
  - Removes records, and drops them all when the set of loaded files changes.
- **Effect catalog** (`src/effects.data.ts`, module `EffectsData`).
- **Buffer context** the registry talks to (module `BufferContext`). Its class has a snapshot
  of the active channel and the active channel itself. It has clamped extraction, patching of
  the active channel, revert, and a count of "buffer changed" notifications.
- **Event dispatcher** (`src/event.dispatcher.ts`, module `Events`). It keeps a handler list
  with append, remove-every-equal, and a trigger that runs over a snapshot.
- **Base helpers** (`src/base.ts`, module `Base`): `getDiff`, `setProperties`, the
  `audioFiles` normalisation and `getColorAt`.
- **Canvas computations** (`src/canvas.context.ts`, module `Canvas`): the per-column min/max
  scan of `computeValues`, and `toHHMMSS` with a proved read-back of its label.

How the model stands in for the platform:

- Samples are `real`, and a decoded file is one sequence of samples per channel.
- Lengths are sample counts.
- Everything the platform does asynchronously is a parameter:
  - `Retrieval` is how a request ended;
  - `Option<AudioData>` is what the decoder made of the bytes;
  - `render` is the offline rendering of one window.
- Event payloads are recorded in a `fired` sequence or counted in `changeEvents`.

Behaviour of the code that the model keeps:

- A batch of files is all-or-nothing. One failed retrieval or decode rejects the whole batch
  (`Promise.all`), and nothing changes.
- Start positions never decrease (`Timeline.StartPositionsSteps`). They increase strictly
  when every file has at least one sample, which is what the platform decoder produces.
- A record's seconds start at `indexStart / sampleRate`, which may be fractional. Such a record
  never matches a whole second, so it is never rendered (`Effects.OffGridNeverActive`, listed
  under "## Findings").
- A planned window whose input range lies outside the buffer has an empty input, and
  `createBuffer(1, 0, rate)` throws. `apply()` and `remove(effect, true)` then fail with nothing
  patched and no notification (`Effects.PlanThrowsIff`).
- Removing an unmatched url or record removes the last element, because `splice(-1, 1)` counts
  from the end.
- Adding an unknown effect type throws before anything is registered.
- Rendered windows are written onto the active channel, and the snapshot is left alone. Inputs
  are always read from the snapshot.

## Model

| member | source | states |
|---|---|---|
| Seqs.ConcatLength | dist/waveaudio.js:199-201 | the concatenation is exactly as long as all pieces together |
| Seqs.ConcatAt | dist/waveaudio.js:202-206 | sample `j` of piece `k` sits at index (lengths of pieces `0..k-1`) + `j` of the concatenation |
| Seqs.SetAt | dist/waveaudio.js:204 | `Float32Array.set(src, offset)` for a source that fits: the array afterwards is the old one with `src` written from `offset` on, everything else unchanged |
| Seqs.Splice | src/effects.store.ts:49 | `splice(i, 1)` removes exactly one element of a non-empty list (the last one for `-1`) and nothing from an empty one |
| Seqs.SpliceMultiset | dist/waveaudio.js:119 | splicing removes one occurrence of the element at the spliced position and adds nothing |
| Seqs.SpliceAt | src/effects.store.ts:49 | elements before the removed position keep their index; those after it move down by one |
| Seqs.IndexOf | src/effects.store.ts:49 | `indexOf` is the first index holding the value, or -1 exactly when it is absent |
| Base.GetDiff | src/base.ts:63-65 | every result element is in `first` and not in `second`; every element of `first` not in `second` is in the result |
| Base.GetDiffAppend | src/base.ts:63-65 | the filter keeps `first`'s order: it distributes over concatenation |
| Base.GetDiffCounts | src/base.ts:63-65 | duplicates are kept: a value absent from `second` occurs as often as in `first`, a value present occurs zero times |
| Base.GetDiffBoundaries | src/base.ts:63-65 | `getDiff(a, [])` is `a` and `getDiff(a, a)` is empty |
| Base.NormaliseAudioFiles | src/base.ts:45-48 | a string becomes a one-element list, a list is kept, anything else fails with "Invalid data for audio files" (and only that fails) |
| Base.NormaliseIdempotent | src/base.ts:48 | normalising an already normalised list gives the same list |
| Base.Overlay | src/base.ts:51-57 | exactly the keys on both objects take the configured value; all other keys of `extended` keep theirs; no key is added |
| Base.OverlayIdempotent | src/base.ts:51-57 | applying the same configuration twice equals applying it once |
| Base.BaseClass.SetProperties | src/base.ts:51-57 | the loop over the configured keys leaves `extended`'s own properties equal to the overlay of the configuration |
| Base.GetColorAt | src/base.ts:67-69 | the configured colour is returned exactly when `colors` is an array with a non-empty entry at `idx`, and then it is that entry |
| Events.EventDispatcher.constructor | src/event.dispatcher.ts:13 | a new dispatcher has no handlers |
| Events.EventDispatcher.On | src/event.dispatcher.ts:15-17 | the handler is appended at the end; an already registered handler is registered again |
| Events.EventDispatcher.Off | src/event.dispatcher.ts:19-21 | the list becomes the old list without any registration of the handler |
| Events.WithoutCounts | src/event.dispatcher.ts:20 | after `off(h)` no registration of `h` is left and every other handler keeps its number of registrations |
| Events.WithoutAppend | src/event.dispatcher.ts:20 | the remaining handlers keep their relative order |
| Events.WithoutAbsent | src/event.dispatcher.ts:20 | `off` of a handler that is not registered changes nothing |
| Events.EventDispatcher.Trigger | src/event.dispatcher.ts:23-25 | the handlers called are exactly the registrations at the start of the trigger, in order, once each, whatever `on`/`off` calls each call makes; those calls reach the live list in the order made |
| Events.ReactAllQuiet | src/event.dispatcher.ts:23-25 | handlers that call neither `on` nor `off` leave the handler list as it was |
| Events.ReactSeqDrops | src/event.dispatcher.ts:15-21 | a handler that a call `off`s and does not re-register is no longer registered after that call |
| Timeline.ChannelOrSilence | dist/waveaudio.js:183-188 | a file's piece of a channel is as long as its channel 0 |
| Timeline.MaxChannelsIsMaximum | dist/waveaudio.js:169-171 | the channel count is at least every file's and equal to some file's; it is 0 only for no files |
| Timeline.MasterShape | dist/waveaudio.js:163-197 | the master is well formed: one channel per channel of the widest file, each as long as all files together; with no files, one channel of `sampleRate` silent samples |
| Timeline.MasterAt | dist/waveaudio.js:183-190 | sample `j` of file `k` appears in master channel `c` at the file's start position plus `j`: the file's channel `c`, or silence when the file lacks it |
| Timeline.ChannelDataTotal | dist/waveaudio.js:199 | every master channel is as long as the sum of the files' lengths on any channel |
| Timeline.AudioContext.constructor | dist/waveaudio.js:73-79 | a new aggregator has no files, no master and no event fired |
| Timeline.AudioContext.ConcatBuffersData | dist/waveaudio.js:198-208 | writing each piece into a zeroed array at the running total of the lengths yields exactly the concatenation of the pieces |
| Timeline.AudioContext.WidestFile | dist/waveaudio.js:164-173 | the running maximum is the largest channel count over the files |
| Timeline.AudioContext.ChannelPieces | dist/waveaudio.js:180-189 | the pieces of a channel are each file's channel, or silence of the file's length, in file order |
| Timeline.AudioContext.CreateAudioBuffer | dist/waveaudio.js:163-197 | the built buffer is the master layout of the given files, including the one-second silent buffer for no files |
| Timeline.AudioContext.FindStartPositionsOnChannel | dist/waveaudio.js:151-162 | one position per file, each the sum of the lengths of the files before it on the requested channel (channel 0 when a file lacks it) |
| Timeline.StartPositionsSteps | dist/waveaudio.js:151-162 | the first position is 0, each next one is the previous plus the previous file's length, and positions never decrease |
| Timeline.StartPositionIsOffset | dist/waveaudio.js:157-159 | a file's start position is exactly where its samples begin in every master channel |
| Timeline.IndexOfUrl | dist/waveaudio.js:118-119 | `indexOf(find(...))` is the first file carrying the url, or -1 exactly when none does |
| Timeline.RemoveAll | dist/waveaudio.js:117-125 | removing names never introduces a file |
| Timeline.RemoveOneCases | dist/waveaudio.js:118-119 | a carried url removes the first file carrying it and keeps the rest in order; an unmatched url removes the last file |
| Timeline.RemoveAllCount | dist/waveaudio.js:122-125 | each name removes exactly one file while files remain |
| Timeline.AudioContext.RemoveFiles | dist/waveaudio.js:115-128 | the files become the list with each name removed in turn; the master is rebuilt from them; the event fires, with the new master, iff `fireEvent`. `fireEvent` is a required argument here: the source's default of `true` (dist/waveaudio.js:116) is the call `RemoveFiles(names, true)` |
| Timeline.AudioContext.DecodeBuffers | dist/waveaudio.js:89-114 | if every buffer decodes, the batch is appended after the loaded files in request order, the master is rebuilt from all files and the event fires once with it; otherwise nothing changes |
| Timeline.AudioContext.DecodeBuffersFromPromises | dist/waveaudio.js:80-88 | a network error anywhere in the batch changes nothing; otherwise the outcome is that of decoding the batch |
| WaveAudio.Pending | dist/waveaudio.js:496-500 | one request per url, in url order |
| WaveAudio.NamesAppend | dist/waveaudio.js:144-150 | the url list of two file lists together is their url lists together |
| WaveAudio.RemoveAllAppend | dist/waveaudio.js:122-125 | removing `a + b` equals removing `a` and then `b` |
| WaveAudio.RemoveOneNames | dist/waveaudio.js:118-119 | removing a carried url takes exactly one occurrence of it out of the url list |
| WaveAudio.RemoveOneCons | dist/waveaudio.js:118-119 | a front file whose url differs from a carried url stays in front |
| WaveAudio.RemoveAllSkips | dist/waveaudio.js:122-125 | a file whose url is not among the names stays in front while every name is still carried when its turn comes |
| WaveAudio.DiffOfRest | dist/waveaudio.js:461 | the urls removed from the rest are carried by the rest and never name a requested front file |
| WaveAudio.RemovingTheDiffKeepsRequested | dist/waveaudio.js:461-463 | removing `getDiff(loaded, requested)` leaves exactly the files whose urls are requested, in their old order |
| WaveAudio.ReconciledNames | dist/waveaudio.js:461-464 | the kept urls plus the added ones are exactly the requested urls |
| WaveAudio.WaveAudioJS.AddFiles | dist/waveaudio.js:471-474 | the requested urls become one batch: loaded and appended together, with the master rebuilt from all files and fired once; or files, master and events stay as they were |
| WaveAudio.WaveAudioJS.Files | dist/waveaudio.js:460-465 | the loaded files become the requested ones kept in old order, then the added ones if their batch loads; the master is rebuilt after a removal and again after a loaded batch, and is otherwise the old one; the events are the master of the kept files, only when something was removed and nothing is added, followed by the new master when the batch loads |
| WaveAudio.FilesOutcome | dist/waveaudio.js:460-465 | after a successful reconciliation the loaded urls are the previously loaded requested ones followed by the new ones, and a url is loaded iff it was requested |
| Waveform.ReduceStep | dist/waveaudio.js:366-368 | one step keeps the accumulator or takes the current position, and an accumulator at or below the index stays at or below it |
| Waveform.Reduce | dist/waveaudio.js:366-368 | an accumulator at or below the index yields a result at or below it |
| Waveform.LeftClosestIdx | dist/waveaudio.js:366-368 | the owner index is 0 for no positions, else a valid index of the positions (never the -1 of `indexOf`) |
| Waveform.ReduceIsElement | dist/waveaudio.js:366-368 | the reduce yields one of the given positions |
| Waveform.ReduceIsGreatestBelow | dist/waveaudio.js:366-368 | on sorted positions starting at or below the index, the reduce yields the greatest position at or below it |
| Waveform.OwnerIsGreatestBelow | dist/waveaudio.js:366-368 | the owner is 0 for no positions, else the first index of the greatest position at or below the index |
| Waveform.OwnerHoldsSample | dist/waveaudio.js:366-368 | with the start positions of non-empty files, the owner of any timeline sample is the file that holds it |
| Waveform.LastFileEnds | dist/waveaudio.js:151-162 | the last file's start plus its length is the whole timeline |
| LegacyTimeline.PlacementFits | src/audio.context.ts:92-100 | every `set` fits: the previous piece's length plus this piece's is at most the total, so no write throws |
| LegacyTimeline.PlacedUpTo | src/audio.context.ts:93-103 | after any number of writes the array keeps the summed length |
| LegacyTimeline.LegacyConcatLength | src/audio.context.ts:92-93 | the result is as long as all pieces together |
| LegacyTimeline.FirstPlacement | src/audio.context.ts:97-98 | the first piece lands at 0, followed by silence |
| LegacyTimeline.SecondPlacement | src/audio.context.ts:99-100 | the second piece lands right after the first |
| LegacyTimeline.LegacyConcatUpToTwo | src/audio.context.ts:96-103 | with at most two pieces the placement is exact concatenation |
| LegacyTimeline.LegacyConcatOverwrites | src/audio.context.ts:100 | three one-sample pieces `[1]`, `[2]`, `[3]` give `[1, 3, 0]` instead of `[1, 2, 3]` |
| LegacyTimeline.LegacyAudioContext.ConcatBuffersData | src/audio.context.ts:91-106 | the loop writes piece 0 at 0 and piece `k` at the length of piece `k-1`, into a zeroed array of the summed length |
| LegacyTimeline.LegacyAudioContext.WidestInput | src/audio.context.ts:63-68 | the running maximum is the largest channel count over the inputs |
| LegacyTimeline.LegacyAudioContext.ChannelPieces | src/audio.context.ts:76-83 | the pieces of a channel are each input's channel, or silence of its length |
| LegacyTimeline.LegacyAudioContext.CreateAudioBuffer | src/audio.context.ts:59-89 | no buffer for no input (a zero-channel buffer is refused); otherwise one placed channel per channel of the widest input, the do-while filling the first one at least |
| LegacyTimeline.LegacyMasterWellFormed | src/audio.context.ts:70-86 | every channel of the built buffer has the same length |
| LegacyTimeline.OneChannelMaster | src/audio.context.ts:59-89 | one or two one-sample mono inputs give the plain concatenation |
| LegacyTimeline.NewBatchComesFirst | src/audio.context.ts:33-39 | loading `[1]` and then `[2]` gives the master `[2, 1]`, the new batch first |
| LegacyTimeline.LegacyAudioContext.DecodeBuffers | src/audio.context.ts:28-49 | if every buffer decodes, the batch is appended to the decoded buffers while the master is rebuilt from the batch followed by the previous master, and the event fires with it; otherwise nothing changes |
| LegacyTimeline.LegacyAudioContext.DecodeBuffersFromPromises | src/audio.context.ts:20-26 | a network error anywhere changes nothing; otherwise the outcome is that of decoding the batch |
| Canvas.SampleAt | src/canvas.context.ts:177 | a read yields a sample exactly for an index inside the buffer, `undefined` otherwise |
| Canvas.ScanStepMovesOneEnd | src/canvas.context.ts:178-182 | a step changes at most one end of `[min, max]`, and `undefined` changes neither |
| Canvas.ScanMin | src/canvas.context.ts:174-183 | the first component is the minimum of 1.0 and the column's samples |
| Canvas.ScanMaxBounded | src/canvas.context.ts:175-182 | the second component is -1.0 or one of the column's samples |
| Canvas.ElseIfSkipsMaximum | src/canvas.context.ts:178-182 | the column `[0.5]` scans to `[0.5, -1.0]`, while its extremes are `[0.5, 0.5]` |
| Canvas.EnvelopeIsExtremes | src/canvas.context.ts:174-183 | with both comparisons for every sample, the pair is the minimum of 1.0 and the samples and the maximum of -1.0 and the samples |
| Canvas.ColumnStep | src/canvas.context.ts:171 | `ceil(len / width)`: the smallest step whose `width` columns reach `len` |
| Canvas.ColumnsCoverBuffer | src/canvas.context.ts:171-177 | every sample lies in the window of one column below `width` |
| Canvas.CanvasContext.ScanColumn | src/canvas.context.ts:174-184 | the inner loop of column `i` yields the scan of `[i·step, (i+1)·step)` |
| Canvas.CanvasContext.ComputeValues | src/canvas.context.ts:169-186 | `width` pairs, pair `i` the scan of `[i·step, (i+1)·step)` with `step = ceil(len / width)` |
| Canvas.Digits | src/canvas.context.ts:254 | `toString` of a whole number is a non-empty digit string, one digit exactly below 10 |
| Canvas.DigitsRoundTrip | src/canvas.context.ts:254 | the digits read back as the number |
| Canvas.LeadingZero | src/canvas.context.ts:254 | a leading `"0"` keeps the value |
| Canvas.Label | src/canvas.context.ts:253-266 | a label has at least five characters; without hours and with minutes and seconds below 100 it is exactly five characters, `MM:SS` |
| Canvas.ToHHMMSS | src/canvas.context.ts:248-268 | the label is five characters (`MM:SS`) exactly below one hour; from one hour on it has at least eight, with colons before the last two fields |
| Canvas.Pad | src/canvas.context.ts:253-261 | a padded component reads back as itself and has two digits below 100 |
| Canvas.Components | src/canvas.context.ts:249-251 | minutes and seconds below 60, `h·3600 + m·60 + s = secs`, and no hours exactly below one hour |
| Canvas.LabelWithoutHours | src/canvas.context.ts:262-263 | without hours the label is `MM:SS` and reads back as `m·60 + s` |
| Canvas.LabelWithHours | src/canvas.context.ts:264-266 | with hours the label is `HH:MM:SS` and reads back as `h·3600 + m·60 + s` |
| Canvas.LabelRoundTrip | src/canvas.context.ts:253-266 | a label of minutes and seconds below 60 reads back as its seconds, with two or three fields by the hours and two-digit minutes and seconds |
| Canvas.ToHHMMSSRoundTrip | src/canvas.context.ts:248-268 | `toHHMMSS(n)` reads back as `n`, has an hours field exactly from one hour on, and two-digit minutes and seconds |
| EffectsData.TypeTag | src/effects.data.ts:18-20 | each kind has one of the three tags |
| EffectsData.TypeTagInjective | src/effects.data.ts:18-20 | distinct kinds have distinct tags |
| EffectsData.MakeProperty | src/effects.data.ts:28-35 | the property holds exactly the given fields |
| EffectsData.PropertyDefaults | src/effects.data.ts:28 | omitted bounds are `min = 0` and `max = null`, an omitted step is 1 |
| EffectsData.CatalogTypes | src/effects.data.ts:39-131 | the catalog has exactly the ten types, each once |
| EffectsData.GainSound | src/effects.data.ts:40-45 | the Gain entry names its properties once, and each default is within bounds and respects its kind |
| EffectsData.PannerSound | src/effects.data.ts:46-51 | as for Gain, for Panner |
| EffectsData.TremoloSound | src/effects.data.ts:52-60 | as for Gain, for Tremolo |
| EffectsData.ChorusSound | src/effects.data.ts:61-69 | as for Gain, for Chorus |
| EffectsData.PhaserSound | src/effects.data.ts:70-80 | as for Gain, for Phaser |
| EffectsData.OverdriveSound | src/effects.data.ts:81-90 | as for Gain, for Overdrive |
| EffectsData.DelaySound | src/effects.data.ts:91-101 | as for Gain, for Delay |
| EffectsData.CompressorSound | src/effects.data.ts:102-114 | as for Gain, for Compressor |
| EffectsData.BitcrusherSound | src/effects.data.ts:115-122 | as for Gain, for Bitcrusher |
| EffectsData.MoogFilterSound | src/effects.data.ts:123-130 | as for Gain, for MoogFilter |
| EffectsData.CatalogSound | src/effects.data.ts:39-131 | every catalog entry names its properties once; every bounded default lies within its bounds; every toggle is unbounded and 0 or 1; every integer default is whole |
| BufferContext.ApplyPatches | src/effects.store.ts:145 | writing the patches keeps the channel's length |
| BufferContext.Clamp | src/effects.store.ts:114-116 | an index is clamped into `[0, len]` and kept when already inside |
| BufferContext.Extract | src/effects.store.ts:114-116 | the extracted slice is the snapshot's samples between the clamped ends, empty when they cross |
| BufferContext.UncoveredUnchanged | src/effects.store.ts:145 | a sample no patch covers keeps its value |
| BufferContext.CoveredIndependent | src/effects.store.ts:145 | a covered sample takes its value from the patches alone |
| BufferContext.PatchIdempotent | src/effects.store.ts:145 | writing the same patches twice equals writing them once |
| BufferContext.AscendingPatchAt | src/effects.store.ts:145 | with patches laid one after another, each sample of a patch that lands in the channel is what that patch wrote |
| BufferContext.ExtractWhole | src/effects.store.ts:54 | extracting the whole snapshot gives the snapshot, so after a revert the active channel reads as the snapshot |
| BufferContext.AudioBufferContext.ApplyBufferChanges | src/effects.store.ts:145 | the active channel gets the patches, the snapshot and file count stay, one notification is sent |
| BufferContext.AudioBufferContext.RevertBufferChanges | src/effects.store.ts:54 | the active channel becomes the snapshot, one notification is sent |
| BufferContext.AudioBufferContext.Reload | src/effects.store.ts:13-17 | a change of the file set sets the file count and a fresh snapshot and sends one notification |
| Effects.EffectRecord.constructor | src/effects.store.ts:32-38 | a record holds exactly the given type, properties, range and seconds |
| Effects.FloorDivBounds | src/effects.store.ts:104 | `Math.floor(start / rate)` is the whole number at or just below the ratio |
| Effects.CeilDivBounds | src/effects.store.ts:105 | `Math.ceil(end / rate)` is the whole number at or just above the ratio |
| Effects.RatioOrder | src/effects.store.ts:69-71 | dividing by the rate keeps the order of sample indices, both ways |
| Effects.SecondsEmpty | src/effects.store.ts:68-75 | the seconds are empty exactly when `end <= start` |
| Effects.SecondsCount | src/effects.store.ts:68-75 | the last second is below `end / rate` and one more would not be |
| Effects.OffGridNeverActive | src/effects.store.ts:69-72 | a start index that is not a multiple of the rate gives no whole second, so the record is never active in a window |
| Effects.ActiveAt | src/effects.store.ts:149-163 | a second's chain holds exactly the registered records whose seconds contain it |
| Effects.ActiveAtAppend | src/effects.store.ts:152-161 | the chain keeps registration order: filtering distributes over concatenation |
| Effects.MinStart | src/effects.store.ts:82-91 | the running minimum is at most every start and equal to one |
| Effects.MaxEnd | src/effects.store.ts:82-91 | the running maximum is at least every end and equal to one |
| Effects.WindowsSound | src/effects.store.ts:107-123 | every planned window is the window of a second in range with a non-empty chain: offset and input start `rate·i`, input end `rate·(i+1)` |
| Effects.WindowsComplete | src/effects.store.ts:107-123 | every second in range with an active record gets its window |
| Effects.WindowsAscending | src/effects.store.ts:107-122 | windows come in ascending order, each input range ending before the next window starts |
| Effects.WindowsSpanOneSecond | src/effects.store.ts:111-118 | each planned window spans one second of samples from its offset |
| Effects.PlanCoversEverySecond | src/effects.store.ts:43-45 | every second of every registered record is planned with that record in its chain |
| Effects.OneSecondScenario | src/effects.store.ts:68-123 | a record over `[44100, 88200)` at 44100 Hz has the seconds `[1]` and plans the one window at offset 44100 over `[44100, 88200)` |
| Effects.EmptyRegistryPlan | src/effects.store.ts:141-146 | with no records nothing is planned, nothing throws, and the buffer context receives one empty change list, which leaves the channel as it was |
| Effects.EmptyInputIff | src/effects.store.ts:116-124 | the window of second `i` has an empty clamped input exactly when `i < 0` or `rate·i` is at least the buffer's length |
| Effects.PlanThrowsIff | src/effects.store.ts:107-124 | `apply` throws exactly when some registered record is active in a second outside the buffer |
| Effects.InBufferNeverThrows | src/effects.store.ts:107-124 | records whose ranges lie within `[0, length]` of the buffer never make `apply` throw |
| Effects.SecondInBuffer | src/effects.store.ts:69-72 | a whole second of a record within `[0, length]` starts inside the buffer |
| Effects.RangePastEndThrows | src/effects.store.ts:124 | a record over `[0, 3)` at 1 Hz on a two-sample buffer makes `apply` throw |
| Effects.EmptyWindowThrows | src/effects.store.ts:107-124 | reaching an active second whose window has empty input makes the whole plan throw |
| Effects.PlanStep | src/effects.store.ts:107-121 | one step of the loop extends the windows planned so far to those up to the next second, still with no empty input |
| Effects.WindowsPrefix | src/effects.store.ts:107-123 | the windows planned up to a second are a prefix of those planned up to any later second |
| Effects.CoveringSecondsHoldRange | src/effects.store.ts:68-75 | in the corrected seconds, every sample of the range lies in the window of one of them |
| Effects.CorrectedPlanCoversRange | src/effects.store.ts:68-75 | with the corrected seconds, every sample of every record lies in the input range of a planned window whose chain holds that record |
| Effects.OnGridSecondsCover | src/effects.store.ts:68-75 | for a start on a whole second, `calculateSeconds` gives exactly the corrected seconds |
| Effects.RenderAllPatches | src/effects.store.ts:132-145 | once every window renders, patch `m` is window `m`'s output at window `m`'s offset |
| Effects.PatchLands | src/effects.store.ts:111-145 | one-window patches at the offsets of ascending windows land where they were planned |
| Effects.RenderedLands | src/effects.store.ts:132-145 | each window's rendered output lands at its offset in the active channel |
| Effects.PlannedWindowsLand | src/effects.store.ts:104-145 | for the planner's windows, sample `j` of a window's rendered second ends up at the window's offset plus `j` |
| Effects.OutsideWindowsUntouched | src/effects.store.ts:119-121 | a sample outside every planned window keeps its value |
| Effects.DefaultProperties | src/effects.store.ts:26-30 | the properties map has exactly the descriptor's names as keys, each mapped to its default (the last one wins) |
| Effects.EffectsStore.constructor | src/effects.store.ts:7-12 | a new store has no records and has seen no files |
| Effects.EffectsStore.OnBufferChanged | src/effects.store.ts:13-18 | the records are dropped exactly when the loaded file count moved, and the count is remembered |
| Effects.EffectsStore.Add | src/effects.store.ts:25-41 | an unknown type fails and registers nothing; a known type appends one fresh record with the type, range, seconds and every property at its default, and returns true |
| Effects.EffectsStore.Apply | src/effects.store.ts:43-46 | the whole interval of the registry is planned; it fails exactly when a planned window has empty input (`createBuffer` throws), and then nothing is patched or notified; otherwise, when every window renders, the outputs are patched into the active channel with one notification, and when one fails nothing changes |
| Effects.EffectsStore.Discard | src/effects.store.ts:49 | the record, or the last record for an unknown one, is spliced out |
| Effects.EffectsStore.Remove | src/effects.store.ts:48-58 | splice; then, with `changeBuffer`, re-render the remaining records as `apply` does (failing exactly when `apply` throws, patching and notifying as it does) or revert with one notification when none remain; without it, the buffer and notifications are untouched; returns true unless the re-render throws |
| Effects.EffectsStore.Sync | src/effects.store.ts:60-66 | every record is removed, without touching the buffer |
| Effects.EffectsStore.CalculateSeconds | src/effects.store.ts:68-75 | `start/rate`, `start/rate + 1`, … for as long as they are below `end/rate` |
| Effects.EffectsStore.GetSecondsInterval | src/effects.store.ts:77-93 | `[0, 0]` without records, else the smallest start and the largest end |
| Effects.EffectsStore.EffectsForSecond | src/effects.store.ts:149-163 | the loop collects the chain of the second: the active records in registration order |
| Effects.EffectsStore.PlanSecond | src/effects.store.ts:111-124 | one pass of the loop for second `i`: no window when no record is active (`continue`), the `createBuffer` error when the window's input is empty, and otherwise that second's window |
| Effects.EffectsStore.PlanWindows | src/effects.store.ts:107-124 | the loop builds the windows of the seconds `lo … hi-1` whose chains are not empty, and fails exactly when one of them has empty input, where `createBuffer` throws |
| Effects.EffectsStore.RenderWindows | src/effects.store.ts:132-146 | the windows are rendered one after the other until the first failure; all outputs, as patches at the window offsets, when none fails |
| Effects.EffectsStore.ApplyEffectPerSecond | src/effects.store.ts:95-147 | the windows of the whole seconds covering the range are planned; a window with empty input makes it fail with the buffer and notifications untouched; otherwise the windows are rendered and, if all render, handed to `applyBufferChanges` once; if one fails the buffer is untouched |

## Left out

- Network retrieval and random colours are not modelled (`sendRequest`, `getRandomColor`, the `randomColor` fallback of `getColorAt`). How each request ended, and each file's colour, are parameters; the fallback colour is `None`.
- Platform decoding is not modelled (`decodeAudioData`). It is the `Option<AudioData>` parameter.
- `createBuffer`, `copyToChannel` and `getChannelData` are not modelled as platform calls. The model takes each channel's length from the pieces it concatenates, not from `sampleRate * totalDuration`, because durations are floating point.
- Float32 rounding is not modelled: samples are exact reals, and the aggregators only copy them.
- Tuna effect nodes, their wiring, and `OfflineAudioContext.startRendering` are not modelled. They are the `render` parameter, one call per window. The promise chain is modelled as sequential rendering that stops at the first failure, and async timing is not modelled.
- `AudioBufferContext` is not part of this model's sources. Module `BufferContext` describes it by what the store needs, under assumed semantics:
  - inputs are extracted from a snapshot;
  - patches are written onto the active channel, dropping writes past either end;
  - revert restores the snapshot;
  - each of these sends one notification.
- Canvas drawing, DOM sizing, pixel ratios and the animation-frame progress loop are UI and are not modelled (`resize`, `draw`, `drawFrames`, `computeRenderData`, `drawTimeline`, `clear`).
- In the bundle's `computeValues`, the averaging and pixel normalisation are floating-point numerics and are not modelled (dist/waveaudio.js:353-365 and 369-378). Only the owner lookup is.
- The wrapper-element checks of `validateProperties` are DOM and are not modelled. The `WaveAudioJS` constructor wiring and `render` are not modelled either.
- `setProperties` works on own keys as maps; prototype-chain lookup of `hasOwnProperty` is not modelled.
- `trigger`'s payload argument is not modelled. Each handler call is described by the `on`/`off` calls it makes on the dispatcher (`Reaction`); handlers that throw are not modelled.
- Events.EventDispatcher.Trigger: a handler that calls `trigger` again on the same dispatcher is not modelled; the nested round's calls and their effects on the list are outside the contract. Handlers' calls on other dispatchers are not modelled either.
- Timeline.WellFormed: admits a decoded buffer with no samples, which the platform decoder does not produce. If every file of the list were empty, the code's `createBuffer(maxChannels, 0, rate)` (dist/waveaudio.js:176) would throw, while the model builds a master of empty channels and fires its event.
- Canvas.CanvasContext.ComputeValues: for `width = 0` the source divides by zero (`step` becomes `Infinity`) and then makes no column. The model sets `step` to 0, and its contract then says only that there are no pairs.
- Canvas.ToHHMMSS: only whole, non-negative numbers of seconds are modelled. A fractional count would print its fraction through `toString`, which is not modelled.
- Effects.EffectsStore.CalculateSeconds: `index / sampleRate` and the `i++` steps are exact rational arithmetic, not IEEE doubles.
- Effects.Ratio: division is exact, so the floating-point comparison of `indexOf` on the seconds list is exact equality.
- Effects.EffectsStore.Add: the `properties` map is built by a loop that lets a repeated name's last default win. Every catalog entry names its properties once (`EffectsData.CatalogSound`), so the contract states one default per name.
- WaveAudio.WaveAudioJS.Files, WaveAudio.WaveAudioJS.AddFiles, Timeline.AudioContext.DecodeBuffers and Timeline.AudioContext.DecodeBuffersFromPromises: each call is modelled as finishing, batch landed, before the next call starts. In the source, `files()` removes files at once, but its batch lands later through the `Promise.all` chains (dist/waveaudio.js:80-114). So overlapping calls are not modelled: a second `files()` that diffs against the stale list, a url loaded twice, and batches landing out of order. `WaveAudio.FilesOutcome`'s "a url is loaded iff it was requested" holds for calls that do not overlap.
- Timeline.AudioContext.RemoveFiles: the default `fireEvent = true` (dist/waveaudio.js:116) is not a separate member; a call without the argument is `RemoveFiles(names, true)`.
- `EffectsStore.get()` is a bare accessor and is not modelled. So is the constructor's unused `activeChannel` argument.

## Findings

| source | as written | input that shows it | evidently intended | confidence | as-written member | corrected member |
|---|---|---|---|---|---|---|
| src/audio.context.ts:100 | every piece after the first is written at the previous piece's length, not at the running total | three one-sample pieces `[1]`, `[2]`, `[3]` give `[1, 3, 0]` | each piece written at the sum of the lengths before it, which is what the bundled version does at dist/waveaudio.js:204 | not executed | LegacyTimeline.LegacyConcatOverwrites | Timeline.AudioContext.ConcatBuffersData |
| src/audio.context.ts:35-39 | the master is rebuilt from the new batch followed by the previous master | load `[1]`, then `[2]`: the decoded list is `[1], [2]` but the master is `[2, 1]` | the new batch is appended after the audio already loaded, in the order of the decoded list, as the bundled version does at dist/waveaudio.js:99-105 | not executed | LegacyTimeline.NewBatchComesFirst | Timeline.AudioContext.DecodeBuffers |
| src/canvas.context.ts:178-182 | a sample that lowers `min` is never compared with `max` (`else if`) | the column `[0.5]` gives `[0.5, -1.0]` | the pair is the column's minimum and maximum | not executed | Canvas.ElseIfSkipsMaximum | Canvas.EnvelopeIsExtremes |
| src/effects.store.ts:68-75 | `calculateSeconds` starts at `indexStart / sampleRate`, so a start that is not on a whole second gives only fractional seconds, which the whole-second lookup of `effectsForSecond` never matches | at 44100 Hz a record over `[22050, 88200)` gets the seconds `[0.5, 1.5]`, so samples 44100 to 88199 of second 1 are never rendered | the record is rendered in every whole second whose window holds a sample of its range, from the floor of its start to the ceiling of its end | not executed | Effects.OffGridNeverActive | Effects.CorrectedPlanCoversRange |
