# Depth-camera piano: a Dafny model of its core

The piano turns the nearest depth-camera reading in a region of space into a musical note and
plays it. This project models that core and proves properties of the model:

- **note tables and reverse lookup** (`Tables`): `C_MAJOR_FREQUENCIES` with its C3..C4 and
  pentatonic sub-tables, as ordered tables. Also the tolerance-based `get_note_from_frequency`.
- **distance-to-note mappers**: the configurable `DistanceToNoteMapper` (`Voices`), with the
  range table `_calculate_ranges` builds, and the fixed five-bin mapper of the key module (`Key`).
  Both use closed-interval, first-match bins (`Bins`).
- **detectors**: the angular-sector and bounding-box detectors (`AngularDetector`,
  `BoundingBoxDetector`). Both rest on one row-major scan (`Grid.Scan`) that counts masked pixels
  and keeps the least masked depth.
- **sound**: the `Note` enumeration and its equal-temperament frequency (`Notes`), the per-channel
  gate (`Channel`), and the four-channel tone generator (`ToneGenerator`). The generator covers
  padding, smoothing, gating, mixing and the running flag.
- **melody orchestration** (`Orchestrate`): `get_distance_for_note` and `convert_melody`. The
  central result is that the note requested is the note played.
- **tuner** (`Tuner`): `freq_to_note`, a nearest-note search with earliest-wins ties.

Frequencies and distances are exact `real`s. Python `None` and raised exceptions become `Option`
and `Result` (`Wrappers`).

Two places where the model follows the code rather than the surrounding prose:

- The constructor's default notes are `lowest_note='A3'` and `highest_note='C3'`. They select an
  empty slice, so the mapper fails with a division by zero. `Voices.DefaultConfigFails` proves this.
- `orchestrate_song_and_play.py` imports `SectorDistanceToNoteMapper` and `NoteMapperConfig`.
  Neither is defined in `src/piano/voices.py`, and `SectorDistanceToNoteMapper` is not part of
  this model. Sector mappers are therefore modelled by `DistanceToNoteMapper`, which provides the
  `ranges` and `get_frequency_from_distance` the script uses.

`tests/test_audio.py` expects 2.0 m to sound middle C. The key module's bins give E3 for 2.0 m
(`Key.MiddleDistanceIsE3`), and C4 is never returned (`Key.NeverC4`).

## Model

| member | source | states |
|---|---|---|
| `Tables.Lookup` | src/piano/voices.py:131 | `table[name]` on an ordered dict: no result exactly when no entry has the name; otherwise the result is the frequency of an entry with that name |
| `Tables.CMajorSpread` | src/piano/voices.py:9-60 | the C-major table has positive frequencies, each more than 1% above every earlier one, so it is strictly increasing |
| `Tables.StepSpreadIsSpread` | src/piano/voices.py:9-60 | more than 1% between neighbours implies more than 1% between any earlier and later entry |
| `Tables.SubTableNames` | src/piano/voices.py:63-72 | the C3..C4 and pentatonic tables carry exactly the names their comprehensions list, in order |
| `Tables.C3C4Slice` | src/piano/voices.py:63-66 | `C3_C4_FREQUENCIES` is the eight C-major entries from C3 to C4 |
| `Tables.C3C4Distinct` | src/piano/voices.py:63-72 | both sub-tables have pairwise distinct names |
| `Tables.C3C4Lookup` | src/piano/voices.py:63-66 | looking up any C3..C4 key yields that entry's frequency |
| `Tables.C3C4Increasing` | src/piano/voices.py:63-66 | C3..C4 frequencies are positive and strictly increasing |
| `Tables.LookupPrefix` | src/piano/voices.py:131 | a name no earlier entry carries is looked up to its own entry's frequency |
| `Tables.LookupOwnName` | src/piano/voices.py:131 | in a table with distinct names, an entry's own name is looked up to its frequency |
| `Tables.FirstWithin` | src/piano/voices.py:138-141 | the first entry within the tolerance, with no earlier entry within it; none when no entry is |
| `Tables.NoteFromFrequencyExact` | src/piano/voices.py:136-141 | every table frequency reads back as its own note for any tolerance up to the default 1% |
| `Tables.NoteFromFrequency` | src/piano/voices.py:136-141 | a non-empty result is the first C-major note, in table order, whose frequency is within `tol` percent of the input; "" means no note is; the round trip is `Tables.NoteFromFrequencyExact` and `Tables.NoteFromZero` |
| `Tables.FirstWithinOwn` | src/piano/voices.py:138-141 | in a table spread more than 1% apart, the first entry within 1% of an entry's frequency is that entry |
| `Tables.SpreadNotWithin` | src/piano/voices.py:139 | a frequency more than 1% above another is not within 1% of it |
| `Tables.NoteFromZero` | src/piano/voices.py:136-141 | frequency 0 has no note for any tolerance below 100% |
| `Bins.FirstContaining` | src/piano/voices.py:129-133 | the first bin whose closed interval holds the distance, with no earlier bin holding it; none when no bin does |
| `Bins.ContiguousCovers` | src/piano/voices.py:95-98 | in contiguous bins, every distance between the last bin's low edge and a bin's high edge is held by that bin or a later one |
| `Bins.Descending` | src/piano/voices.py:95-98 | in contiguous, ordered bins, a later bin lies at or below an earlier one |
| `Bins.FirstContainingAntitone` | src/piano/voices.py:129-131 | a larger distance never resolves to a later (nearer) bin |
| `Bins.MidpointResolves` | src/piano/voices.py:129-131 | the midpoint of a bin of positive width resolves to that bin |
| `Voices.IndexOf` | src/piano/voices.py:89-90 | `list.index`: the first position holding the value, or none when absent |
| `Voices.CalculateRanges` | src/piano/voices.py:86-98 | an unknown lowest or highest note fails with that note; an empty selection fails; otherwise one bin per selected note, built as the source builds it |
| `Voices.Partition` | src/piano/voices.py:93-98 | one bin per note, carrying it, of width (max - min)/n, contiguous from `max_range` down to `min_range`, ordered when min <= max |
| `Voices.PartitionFacts` | src/piano/voices.py:95-98 | bin i spanning [max - (i+1)w, max - i w] with n w = max - min gives equal widths, exact end points and contiguity |
| `Voices.NewMapper` | src/piano/voices.py:75-84 | the constructor succeeds exactly when the range calculation does, keeping the settings |
| `Voices.BuiltFacts` | src/piano/voices.py:86-98 | a constructed mapper's bins carry the keys from the lowest to the highest note, run from `max_range` to `min_range` and name only C3..C4 keys |
| `Voices.FrequencyFromDistanceSpec` | src/piano/voices.py:124-133 | out of range gives 0; in range gives the positive C3..C4 frequency of the first bin holding the distance |
| `Voices.FrequencyFromDistance` | src/piano/voices.py:124-133 | a non-zero frequency needs an in-range distance and is the C3..C4 frequency of a bin holding it; the converse is `Voices.FrequencyFromDistanceSpec` |
| `Voices.FrequencyMonotone` | src/piano/voices.py:124-133 | within range, nearer never sounds lower |
| `Voices.NoteFromDistanceSpec` | src/piano/voices.py:143-146 | out of range gives ""; in range gives the note of the bin holding the distance |
| `Voices.NoteFromDistance` | src/piano/voices.py:143-146 | a named note needs an in-range distance and lies within 1% of the distance's frequency; which note is `Voices.NoteFromDistanceSpec` |
| `Voices.NoteFromFrequencyRoundTrip` | src/piano/voices.py:136-141 | every C3..C4 frequency reads back as its key, and 0 reads back as "" |
| `Voices.DefaultConfigFails` | src/piano/voices.py:75 | the default notes A3..C3 select nothing, so construction fails |
| `Voices.FullOctaveExample` | src/piano/voices.py:86-146 | C3..C4 over [0.5, 3.5]: 0.6 m names C4 and 3.4 m names C3 |
| `Key.RangesFacts` | src/piano/key.py:87-106 | the five bins partition [0.5, 3.5] into contiguous 0.6 m bins, each carrying a pentatonic note looked up to its C-major frequency |
| `Key.FrequencyFromDistanceSpec` | src/piano/key.py:108-129 | with the default range, in-range distances sound the positive frequency of the first bin holding them; others give 0 |
| `Key.FrequencyFromDistance` | src/piano/key.py:108-129 | a non-zero frequency needs the distance within the range arguments and is the frequency of one of the five bins holding it; the converse is `Key.FrequencyFromDistanceSpec` |
| `Key.NoteFromDistanceSpec` | src/piano/key.py:62-65 | in range, the note of the bin holding the distance; otherwise "" |
| `Key.NoteFromDistance` | src/piano/key.py:62-65 | a named note needs a distance in [0.5, 3.5] and is a C-major note; which note is `Key.NoteFromDistanceSpec` |
| `Key.RangeArgumentsOnlyGuard` | src/piano/key.py:121-129 | the range arguments only move the outer guard; bins stay fixed, so a distance outside [0.5, 3.5] gives 0 |
| `Key.NeverC4` | src/piano/key.py:100-106 | the result is 0 or the frequency of C3, D3, E3, G3 or A3, never C4 |
| `Key.SharedEdgeGoesFar` | src/piano/key.py:125-127 | 2.9 m, the shared edge of C3 and D3, resolves to the farther C3 |
| `Key.MiddleDistanceIsE3` | src/piano/key.py:100-106 | 2.0 m sounds and names E3 |
| `Key.KeySpec` | src/piano/key.py:138-145 | a key sounds exactly when it has more than 10 valid points and the distance is in [0.5, 3.5]; it is named "" exactly when silent, and otherwise by the bin's note |
| `Key.GetFrequency` | src/piano/key.py:138-140 | sounding needs more than 10 valid points and a distance in [0.5, 3.5]; the converse is `Key.KeySpec` |
| `Key.GetNote` | src/piano/key.py:142-145 | a name needs a positive frequency and is a C-major note; which note is `Key.KeySpec` |
| `Channel.GetFrequency` | src/piano/channel.py:21-25 | the base frequency exactly when the distance is within [min_range, max_range], otherwise none |
| `Channel.GetFrequencyIndependent` | src/piano/channel.py:21-25 | inside the window the result depends on neither the distance nor the azimuth and elevation bounds |
| `Channel.DefaultWindow` | src/piano/channel.py:5-12 | with the default bounds a channel answers exactly for distances in [0.3, 4.0] |
| `Notes.Value` | src/piano/notes.py:4-31 | every member's value is a note letter followed by an octave digit 2..5 |
| `Notes.OctaveAddsTwelve` | src/piano/notes.py:53 | one octave up adds exactly 12 semitones |
| `Notes.A4IsBase` | src/piano/notes.py:36-56 | A4 has offset 0 and sounds 440 Hz when `2 ** 0` is 1 |
| `Notes.SemitonesFromA4` | src/piano/notes.py:39-53 | offsets lie in [-33, 3] and are 0 exactly for A4; their order is `Notes.StepsIncrease` |
| `Notes.Frequency` | src/piano/notes.py:33-56 | positive whenever `2 ** x` is; its order is `Notes.FrequencyIncreases` |
| `Notes.StepsIncrease` | src/piano/notes.py:4-53 | semitone offsets strictly increase along the declaration order |
| `Notes.OffsetsIncrease` | src/piano/notes.py:39-53 | any later member has a larger offset than any earlier one |
| `Notes.FrequencyIncreases` | src/piano/notes.py:33-56 | with any strictly increasing `2 ** x`, frequency strictly increases along the declaration order |
| `ToneGenerator.Init` | src/piano/tone_generator.py:9-20 | a new generator has four channels, each with current frequency, target and phase 0.0, and is not running |
| `ToneGenerator.PadOrTruncate` | src/piano/tone_generator.py:73-74 | exactly four targets: the given ones first, zeros after |
| `ToneGenerator.SetFrequencies` | src/piano/tone_generator.py:70-74 | only the targets change, to the padded list |
| `ToneGenerator.SetFrequenciesIdempotent` | src/piano/tone_generator.py:70-74 | padding a padded list changes nothing, so re-setting the held targets is a no-op |
| `ToneGenerator.Smooth` | src/piano/tone_generator.py:29-30 | one smoothing step shrinks the gap to the target by the factor 0.05 and stays between current and target |
| `ToneGenerator.SmoothingConverges` | src/piano/tone_generator.py:28-30 | after k steps the gap is 0.05^k times the first gap |
| `ToneGenerator.MixBound` | src/piano/tone_generator.py:36-40 | a mixed sample is at most 0.25 times the number of active channels in magnitude |
| `ToneGenerator.MixSample` | src/piano/tone_generator.py:36-40 | with every channel silent the sample is 0; the bound is `ToneGenerator.MixBound` and the independence from silent channels `ToneGenerator.SilentChannelIgnored` |
| `ToneGenerator.SilentChannelIgnored` | src/piano/tone_generator.py:36-40 | channels with non-positive frequency do not affect the mix |
| `ToneGenerator.Callback` | src/piano/tone_generator.py:22-44 | stopped: zeros, completion flag, state unchanged; running: continue flag, every channel takes exactly its smoothed value, each sample is the 0.25-weighted mix of the channels whose smoothed frequency is positive, only those channels store their end phase, samples bounded by 1 |
| `ToneGenerator.Start` | src/piano/tone_generator.py:46-51 | a no-op when running; otherwise only the running flag is raised |
| `ToneGenerator.Stop` | src/piano/tone_generator.py:62-64 | the running flag is cleared and nothing else changes |
| `Grid.StepKeepsLeast` | src/detectors/angular_detector.py:73-78 | visiting one more pixel keeps the least masked depth so far |
| `Grid.Scan` | src/detectors/angular_detector.py:67-94 | the count of masked pixels, and the least masked depth, which is none exactly when the count is 0 |
| `AngularDetector.GetAngularDetection` | src/detectors/angular_detector.py:41-97 | none when no pixel is in the sector; otherwise the least in-sector depth (strictly inside the range), the in-sector count (at least 1) and the sector's azimuth centre |
| `AngularDetector.Detect` | src/detectors/angular_detector.py:37-38 | `Sector.detect` is the angular detection with the sector's bounds |
| `AngularDetector.DetectionUnique` | src/detectors/angular_detector.py:41-97 | the detection is determined by the frame, bounds and angle function |
| `AngularDetector.ZeroDepthNeverInSector` | src/detectors/angular_detector.py:67 | a zero (missing) depth is never in a sector with a non-negative minimum range |
| `AngularDetector.DefaultSectorWindow` | src/detectors/angular_detector.py:10-20 | with the dataclass defaults a sector keeps only depths strictly between 0.5 m and 3.5 m and elevations from -15 to -5 degrees |
| `BoundingBoxDetector.GetBoundingBoxDetections` | src/detectors/bounding_box_detector.py:18-66 | the box name, the in-box count, and the least in-box depth within [z_min, z_max]; 4.0 m when the count is 0 |
| `BoundingBoxDetector.ZeroDepthNeverInBox` | src/detectors/bounding_box_detector.py:51 | a zero (missing) depth is never inside a box |
| `Tuner.NearestAmong` | src/tuner/main.py:20 | Python `min` with a key: an entry at least as near as every other, with every earlier entry strictly farther |
| `Tuner.FreqToNote` | src/tuner/main.py:15-21 | "" for non-positive frequencies; otherwise the earliest nearest C-major note |
| `Tuner.FreqToNoteExact` | src/tuner/main.py:15-21 | every table frequency maps back to its own note |
| `Tuner.NearestOwn` | src/tuner/main.py:20 | in a strictly increasing table, an entry's own frequency is nearest to that entry alone |
| `Orchestrate.FirstCarrying` | scripts/orchestrate_song_and_play.py:23-26 | the first bin carrying the note, with no earlier bin carrying it; none when no bin does |
| `Orchestrate.DistanceForNote` | scripts/orchestrate_song_and_play.py:18-26 | none exactly when no bin carries the note; otherwise the midpoint of the first carrying bin, which lies inside it |
| `Orchestrate.FirstSector` | scripts/orchestrate_song_and_play.py:38-48 | the first sector, in insertion order, whose mapper has a bin for the note |
| `Orchestrate.ConvertNote` | scripts/orchestrate_song_and_play.py:36-55 | unmapped exactly when no sector carries the note; otherwise the first such sector, its midpoint distance and the frequency its mapper resolves that distance to |
| `Orchestrate.ConvertMelody` | scripts/orchestrate_song_and_play.py:28-56 | one entry per melody note, in order, carrying that note |
| `Orchestrate.PlayedIsRequested` | scripts/orchestrate_song_and_play.py:36-46 | for constructed mappers with a non-empty range, a mapped note is played at its own C3..C4 frequency, which reads back as the requested note |
| `Orchestrate.MidpointPlaysBin` | scripts/orchestrate_song_and_play.py:25 | a bin midpoint is in range, resolves to that bin, and sounds and names the bin's note |
| `Orchestrate.UnknownNoteUnmapped` | scripts/orchestrate_song_and_play.py:49-55 | a rest or any name outside C3..C4 is carried by no constructed mapper, so its entry is unmapped |

## Left out

- Device and operating-system I/O is left out because it lies outside the logic: the camera
  pipeline, drawing overlays and colours, the audio stream, YAML/JSON configuration files
  (`load_config`, `save_config`), timing and printing.
- Floating point is left out because every value is an exact real. The bin edges of
  src/piano/key.py:103-104 differ: `max_range - 3*section_size` is exactly 1.7 here, but
  1.7000000000000002 in Python, so a 1.7 m reading sounds E3 in the model and G3 in the source.
- `np.arctan2` in degrees is left out because the trigonometry is not modelled. It is a
  parameter `angle` of the angular detector.
- `2 ** x` is left out for the same reason. It is a parameter `pow2` of `Notes.Frequency`.
- The sine values and the phase wrap `phase[-1] % 2π` of the tone generator are left out for the
  same reason. They are inputs of `ToneGenerator.Callback`.
- `ToneGenerator.Callback` excludes a running call with an empty buffer in which some smoothed
  frequency is positive, because the source then reads `phase[-1]` of an empty array and raises.
  An empty buffer with every channel silent is modelled: it returns no samples and the continue flag.
- `ToneGenerator.Stop` is modelled as the flag change only. The source also terminates the audio
  library, so a later `start` would fail; that failure is not modelled.
- The detectors require `fx` and `fy` to be non-zero, because the source divides by them.
- Thread safety and concurrency between `set_frequencies` and the callback are left out.
- Pixel-to-point projection (`rs2_project_point_to_pixel`) and the box outline drawing are left
  out, because they affect only the overlay.
- The numpy mask array in `SectorDetection` is left out. The detection keeps the count, the least
  depth and the azimuth.
- `SectorDistanceToNoteMapper` and `NoteMapperConfig` are not part of this model.
- The song definitions, the playback loop of the orchestration script and `main` are left out,
  because they sequence the modelled operations with sleeps.
