# bms-generator in Dafny

This project models the core of bms-generator, a generator of BMS rhythm-game
charts with their keysounds. The pipeline it covers runs as follows:

- A seeded xoroshiro128+ generator drives everything random.
- A density table built from a coarse-to-fine list decides how many notes each
  of the sixteen steps of a bar gets.
- An anti-jack note randomizer chooses which of the seven lanes sound. Lanes
  struck too often in a row get a lower priority. A lane can also reroll into
  the next priority tier.
- A keysound table gives every distinct note of a note sequence one keysound.
  Index 0 is silence. Each step hands out the tones of one chord. The tones that
  no lane plays become background channels.
- `chart_to_bms` lays the chart out as lane, scratch and background rows.
- The BMS writer prints the header, the `#WAV` table and the channel lines. A
  channel line is `#BBBCC:` followed by two base-36 characters per step.
- Two smaller pieces come from elsewhere. The keysound generator supplies the
  RIFF/WAVE PCM writer and the note-name lists. The command line supplies the
  comma-separated density parser.

Each source file is one Dafny module:

| module | source file |
|---|---|
| `Rng` | generator/src/rng.rs |
| `Chord` | generator/src/chord.rs |
| `Rule` | generator/src/rule.rs |
| `Generate` | generator/src/generate.rs |
| `KeySound` | generator/src/keysound.rs |
| `Sequence` | generator/src/keysound/sequence.rs |
| `BmsWriter` | bms-writer/src/lib.rs |
| `Bms` | generator/src/bms.rs |
| `Riff` | keysound-gen/src/riff.rs |
| `KeysoundGen` | keysound-gen/src/lib.rs |
| `Cli` | cli/src/main.rs |

Two modules are shared helpers. `Seqs` holds `Option`, reversal, sorted keys and
cardinality facts. `Decimal` holds the decimal text of naturals.

The modelling follows the shape of each source file:

- **Objects become classes.** Where the source mutates an object in place, the
  model is a class with the same fields. These are the generator state, the
  note randomizer, the generation context, the keysound table and the BMS
  writer.
- **Loops become methods.** Where the source loops, the model is a method with
  a loop. This covers `generate`, the sample loops of `write_riff`, the grid
  and bar loops of `chart_to_bms`, the writer's output loops and the index
  assignment of `SequenceKeySound::new`.
- **Specification functions.** Each such method is proved against a
  specification function. The properties the source promises are then proved
  about that function.
- **Pure code stays pure.** Pure pipelines are functions with lemmas. These are
  the table expansion, `to_indices`, the note-name lists and `parse_density`.

Integer widths are written out in these places:

- the generator words are `bv64`;
- `samples_bytes` is cut to 32 bits;
- `to_bms_index` is defined only below 36·36;
- `u64` parsing stops at 2^64;
- the `i32` bound `1 << (n - 1)` of `from_power_of_two` has its sign bit set
  at 32 values, which gives an empty table (`Chord.StepCount`).

The places where a width is assumed instead are listed under "Left out".

Floating-point jack tolerances become two integers. `maxJacks` is the ceiling.
`rerollThreshold` is the reroll chance times 2^24. `next_f32` always returns
an exact multiple of 2^-24, so the comparison `chance > next_f32()` holds
exactly when the `next_f32` numerator is below the threshold
(`Generate.RerollThresholdExact`).

## Model

| member | source | states |
|---|---|---|
| Rng.Rng.New | generator/src/rng.rs:6-8 | `new` stores the seed pair unchanged |
| Rng.Rng.NewU64 | generator/src/rng.rs:10-12 | `new_u64(seed)` yields the state (seed, 0) |
| Rng.Rng.Next | generator/src/rng.rs:14-23 | returns the wrapping sum of the old words; the new state is (rotl(s0,55) ^ t ^ (t<<14), rotl(t,36)) with t = s0 ^ s1 |
| Rng.Rng.NextF32 | generator/src/rng.rs:25-33 | consumes exactly one `next`; the numerator (draw >> 40) + 1 lies in [1, 2^24], so the value lies in (0, 1] |
| Rng.F32Numerator | generator/src/rng.rs:30-32 | the numerator of a draw is between 1 and 2^24 |
| Rng.Output | generator/src/rng.rs:15-16 | the draw is the wrapping sum of the two words |
| Rng.Advance | generator/src/rng.rs:18-20 | the next state: (rotl(s0,55) ^ t ^ (t<<14), rotl(t,36)) with t = s0 ^ s1 |
| Rng.Stream | generator/src/rng.rs:14-23 | the first k draws from a state form a sequence of length k |
| Rng.ZeroSeedIsStuck | generator/src/rng.rs:10-20 | the all-zero state (that is, `new_u64(0)`) is a fixed point that emits 0 forever |
| Rng.AdvanceZeroIff | generator/src/rng.rs:15-20 | a state advances to all-zero exactly when it is all-zero |
| Rng.NonZeroStaysNonZero | generator/src/rng.rs:15-20 | a non-zero state never reaches the all-zero state |
| Rng.AdvanceNSucc | generator/src/rng.rs:14-23 | k+1 draws advance the state once more after k draws |
| Chord.ShlI32 | generator/src/chord.rs:15 | `1 << k` on an i32: 2^k below 31, and i32::MIN at 31 |
| Chord.StepCount | generator/src/chord.rs:15 | the range `0..1 << (n - 1)` has 2^(n-1) steps for up to 31 values and none for 32 |
| Chord.Pow2Below | generator/src/chord.rs:15 | 2^k fits an i32 below 31, and 2^31 is the first power that does not |
| Chord.FromPowerOfTwo | generator/src/chord.rs:13-28 | requires 1 to 32 values; the table has 2^(n-1) steps up to 31 values and is empty at 32 |
| Chord.LowBitsZero | generator/src/chord.rs:21 | the filter `(1 << k) - 1 & i == 0`: the low k bits of i are zero |
| Chord.Aligned | generator/src/chord.rs:16-23 | the values of the reversed list, in order, whose position passes the filter for step i |
| Chord.LowBitsZeroIff | generator/src/chord.rs:21 | the filter `(1 << k) - 1 & i == 0` keeps position k exactly when k is at most the number of trailing zero bits of i |
| Chord.AlignedIsSlice | generator/src/chord.rs:16-23 | the filtered positions of the reversed list are a contiguous slice |
| Chord.EntryIsPrefix | generator/src/chord.rs:13-28 | step i is the first Depth(i) values of the reversed list: a value applies exactly when its low bits of i are zero, finest first |
| Chord.DepthFilter | generator/src/chord.rs:19-23 | the mask filter keeps exactly the first Depth(i) positions |
| Chord.Depth | generator/src/chord.rs:21 | at most n values apply at a step |
| Chord.FirstEntryIsReversed | generator/src/chord.rs:52-57 | step 0 is the whole list reversed |
| Chord.OddEntryIsFinest | generator/src/chord.rs:52-74 | every odd step holds only the last input value |
| Chord.PowerOfTwoExample | generator/src/chord.rs:51-75 | [1,2,4,8,16] expands to the 16-step table of the unit test |
| Chord.ExampleDepth | generator/src/chord.rs:51-75 | the number of values at each of the 16 steps of the unit-test table |
| Chord.ExampleSlice | generator/src/chord.rs:51-75 | each unit-test step is that prefix of [16,8,4,2,1] |
| Chord.Contribution | generator/src/chord.rs:35-39 | one value's notes: d/100 rounded down or up by one, and exactly d/100 when d is a multiple of 100 |
| Chord.CountFrom | generator/src/chord.rs:31-41 | the sum of the values' contributions, one `next()` per value in order, with the state after those draws |
| Chord.GenerateChordDensity | generator/src/chord.rs:30-42 | reads step `index mod length` and returns its count; the generator ends in the state that count's draws leave |
| Chord.CountDrawsInOrder | generator/src/chord.rs:31-41 | one `next()` per value, values and draws paired in order; the generator advances by exactly that many draws |
| Chord.CountBounds | generator/src/chord.rs:33-41 | the count lies between Σ d/100 and Σ d/100 + #{d : d mod 100 ≠ 0} |
| Chord.WholeValuesIgnoreRng | generator/src/chord.rs:35 | when every value is a multiple of 100 the count does not depend on the generator |
| Chord.HundredsExample | generator/src/chord.rs:78-87 | [100,100,100,100] gives counts 4,1,2,1,3,1,2,1 for steps 0..7, whatever the seed |
| Chord.HundredsDepth | generator/src/chord.rs:78-87 | the depths of the 8-step table of [100,100,100,100] |
| Chord.AllHundreds | generator/src/chord.rs:35-39 | a step of k values of 100 gives k notes |
| Chord.TwoHundredFiftyExample | generator/src/chord.rs:89-93 | the table [[200,150]] always gives 3 or 4 |
| Rule.Kept | generator/src/rule.rs:16-22 | the values of the reversed list, in order, whose position passes the filter for step i |
| Rule.FromPowerOfTwo | generator/src/rule.rs:12-27 | requires 1 to 32 values; the table has 2^(n-1) steps up to 31 values and is empty at 32 |
| Rule.NextCount | generator/src/rule.rs:29-41 | the sum of the rounded values, one `next()` per value in order, with the state after those draws |
| Rule.NextChordCount | generator/src/rule.rs:29-41 | reads step `index mod length`, one draw per value, and advances the generator by those draws |
| Rule.KeptAgrees | generator/src/rule.rs:16-22 | the filter of rule.rs keeps the same values as that of chord.rs |
| Rule.TablesAgree | generator/src/rule.rs:12-27 | `Rule::from_power_of_two` builds the same table as `ChordDensity::from_power_of_two` |
| Rule.CountsAgree | generator/src/rule.rs:29-41 | `next_chord_count` and `generate_chord_density` give the same count and the same generator state |
| Rule.PowerOfTwoExample | generator/src/rule.rs:50-74 | [1,2,4,8,16] expands to the same 16-step table as in chord.rs |
| Rule.TwoHundredFiftyExample | generator/src/rule.rs:88-92 | the table [[200,150]] always gives 3 or 4 |
| Generate.Ceil | generator/src/generate.rs:67 | the least integer not below x |
| Generate.Trunc | generator/src/generate.rs:68 | the integral part, rounded toward zero |
| Generate.RerollChance | generator/src/generate.rs:68 | (1 - fract(t)) % 1 lies in [0, 1); it is 0 for an integral t and ceil(t) - t for a positive non-integral t |
| Generate.ToleranceOf | generator/src/generate.rs:67-68 | maxJacks is ceil(t), saturated at 0; the reroll threshold is at most 2^24 and 0 for an integral t |
| Generate.RerollThresholdExact | generator/src/generate.rs:115-121 | `chance > n / 2^24` holds exactly when n is below the threshold |
| Generate.ToleranceExamples | generator/src/generate.rs:66-68 | tolerances 0 and 1 never reroll; one half rerolls with threshold 2^23 |
| Generate.Priorities | generator/src/generate.rs:71-75 | priority is `jacks ∸ maxJacks`: 0 exactly when jacks ≤ maxJacks, otherwise the excess |
| Generate.RerollChances | generator/src/generate.rs:76-86 | a lane gets a non-zero reroll chance only when its jacks equal maxJacks |
| Generate.NoteRandomizer.constructor | generator/src/generate.rs:57-64 | requires both vectors to have LANES entries, and stores them |
| Generate.NoteRandomizer.FromContext | generator/src/generate.rs:66-88 | priorities and reroll chances are those functions of the context's ongoing jacks |
| Generate.LanesAt | generator/src/generate.rs:94-100 | tier k holds exactly the lanes of priority k, ascending and without repeats |
| Generate.LanesAtEmpty | generator/src/generate.rs:94-100 | a priority no lane has gives an empty tier |
| Generate.SwapRemove | generator/src/generate.rs:113 | `swap_remove` drops exactly the chosen lane and keeps the others distinct |
| Generate.NoteRandomizer.LanesByPriority | generator/src/generate.rs:91-100 | tier k lists exactly the lanes of priority k in ascending order; there are 1 + max(priority) tiers: every lane's priority is below the count and some lane has the top one |
| Generate.NoteRandomizer.AddLane | generator/src/generate.rs:95-99 | `resize` adds empty tiers through lane i's priority, and the push puts lane i at the end of its tier |
| Generate.NoteRandomizer.Pick | generator/src/generate.rs:112-121 | the lane is the candidate at the first draw modulo the candidate count, and the rest is the candidates with it swap-removed; that lane's reroll chance is cleared and no other changes; it rerolls exactly when the `next_f32` numerator of the second draw is below the chance the lane had; the generator has advanced by two draws |
| Generate.NoteRandomizer.DrawTier | generator/src/generate.rs:105-125 | the inner loop keeps the selection distinct and reroll-free. The picks are exactly the new selections and the deferrals. Every pick loses its reroll chance and every other lane keeps its own. The count left falls by one per selection. Unless the count runs out, every candidate is picked. With no reroll chances, every lower tier is taken, and the whole tier is taken unless the count runs out |
| Generate.NoteRandomizer.DrawTiers | generator/src/generate.rs:102-126 | the tier loop: a distinct selection of lanes that were all picked, `count` less the count left. Every picked lane, including the deferred and the dropped, loses its reroll chance, and no other lane's changes. With no reroll chances the selection is closed under lower priority, and it holds every lane unless the count runs out |
| Generate.NoteRandomizer.Generate | generator/src/generate.rs:90-131 | the result is strictly increasing, its lanes are below 7 and it has at most `count` of them. Priority is unchanged. The reroll chance is 0 exactly for the picked lanes, which include every note, and unchanged for the rest. With no reroll chances, exactly min(count, 7) lanes are selected, closed under lower priority |
| Generate.Ascending | generator/src/generate.rs:128 | `sort_unstable` of distinct lanes gives them strictly increasing |
| Generate.AscendingSelection | generator/src/generate.rs:128 | sorting a distinct selection keeps its lanes and its length |
| Generate.CompleteSelection | generator/src/generate.rs:104-126 | a distinct selection holding every lane has 7 entries |
| Generate.SameElementsSameLength | generator/src/generate.rs:128 | two duplicate-free lists with the same elements have the same length |
| Generate.NoteRandomizerExample | generator/src/generate.rs:192-197 | after [0,2,4,6] with tolerance 0 the priorities are [1,0,1,0,1,0,1] with no reroll chances |
| Generate.ThreeNotesExample | generator/src/generate.rs:199-201 | with those priorities every three-note choice `generate` can make is [1,3,5] |
| Generate.SevenNotesExample | generator/src/generate.rs:203-208 | every seven-note choice is all lanes in order |
| Generate.Streak | generator/src/generate.rs:149-158 | the number of most recent consecutive chords that hold the lane: the counter `push_chord` keeps |
| Generate.GenerateContext.constructor | generator/src/generate.rs:141-147 | empty history, zero counters, generator seeded with (seed, 0) |
| Generate.GenerateContext.PushChord | generator/src/generate.rs:149-158 | a lane in the chord extends its counter and any other resets to 0; the chord is appended to the history; counters stay the streaks of the history |
| Generate.Flatten | generator/src/generate.rs:229 | the flattened chart has as many chords as all its bars |
| Generate.StreakOfRun | generator/src/generate.rs:149-158 | a lane struck in the last n chords has a streak of at least n |
| Generate.BoundedStreaksNoRun | generator/src/generate.rs:247-251 | bounded streaks rule out a lane in k+1 consecutive chords |
| Generate.NoRunOfTwo | generator/src/generate.rs:231-233 | with bound 1, consecutive chords share no lane |
| Generate.TopTierSelection | generator/src/generate.rs:104-126 | a tier-closed selection no larger than the top tier only picks priority-0 lanes |
| Generate.TopTierLarge | generator/src/generate.rs:71-75 | after a chord of at most three notes, at least four lanes have priority 0 |
| Generate.AntiJackStep | generator/src/generate.rs:161-171 | one chord with no rerolls and at most three notes keeps every streak within maxJacks + 1 |
| Generate.GenerateStep | generator/src/generate.rs:163-169 | one step of the bar: the chord is well formed, no larger than the maximum count for its position, appended to the history with the context still consistent; the streak bound is preserved under an integral tolerance with at most three notes per step |
| Generate.GenerateBar | generator/src/generate.rs:161-171 | sixteen well-formed chords, each no larger than the step's maximum count, appended to the history; the streak bound is preserved under an integral tolerance with at most three notes per step |
| Generate.GenerateChart | generator/src/generate.rs:173-183 | keeps the tempo, gives `bars` bars of 16 well-formed chords, and under an integral tolerance with at most three notes per step no lane is struck in more than maxJacks + 1 consecutive chords |
| Generate.ChartExampleApplies | generator/src/generate.rs:212-251 | the density [[300]] of the chart test satisfies the bound's hypothesis at tolerances 0 and 1 |
| KeySound.ToIndex | generator/src/keysound.rs:18-33 | every root maps below 12 |
| KeySound.ToIndexBijective | generator/src/keysound.rs:18-33 | C..B map onto 0..11 in declaration order, a bijection |
| KeySound.ToIndices | generator/src/keysound.rs:47-59 | each offset of the chord type shifted up by the root index |
| KeySound.OffsetsShape | generator/src/keysound.rs:49-56 | the offset tables rise strictly from 0 to 24 and stay in the chord's pitch classes |
| KeySound.ToIndicesShape | generator/src/keysound.rs:47-59 | 7 tones for triads and 9 for sevenths, from the root index to root + 24, strictly increasing |
| KeySound.ToIndicesInChord | generator/src/keysound.rs:47-59 | every tone mod 12 is a pitch class of the chord type shifted by the root |
| KeySound.TonesWithin | generator/src/keysound.rs:67-91 | the tones lie in any set holding the shifted pitch classes |
| KeySound.MajorExample | generator/src/keysound.rs:68-70 | C major lies in {0,4,7} |
| KeySound.MinorExample | generator/src/keysound.rs:72-74 | D minor lies in {2,5,9} |
| KeySound.Major7Example | generator/src/keysound.rs:76-78 | E Major7 lies in {4,8,11,2} |
| KeySound.Minor7Example | generator/src/keysound.rs:80-82 | F Minor7 lies in {5,8,0,3} |
| KeySound.MajorMajor7Example | generator/src/keysound.rs:84-86 | G MajorMajor7 lies in {7,11,2,6} |
| KeySound.MinorMajor7Example | generator/src/keysound.rs:88-90 | A MinorMajor7 lies in {9,0,4,8} |
| Sequence.IndexOf | generator/src/keysound/sequence.rs:120-128 | the first position of a note among the distinct notes |
| Sequence.Sources | generator/src/keysound/sequence.rs:112-126 | silence followed by one keysound per distinct note |
| Sequence.IndexTable | generator/src/keysound/sequence.rs:113-132 | the index table has the shape of the notes |
| Sequence.AddAllContents | generator/src/keysound/sequence.rs:119-129 | registering a chord keeps earlier entries, adds its notes and keeps them distinct |
| Sequence.DistinctContents | generator/src/keysound/sequence.rs:113-132 | the distinct notes hold every note of the sequence once and nothing else |
| Sequence.DistinctPrefix | generator/src/keysound/sequence.rs:113-132 | indices handed out earlier are never changed later |
| Sequence.IndexTableFaithful | generator/src/keysound/sequence.rs:110-132 | every index is at least 1 and names the keysound of its note; equal notes share an index and different notes get different ones |
| Sequence.IndexesGrow | generator/src/keysound/sequence.rs:120-128 | indices stay valid as the table grows |
| Sequence.IndexesAppend | generator/src/keysound/sequence.rs:119-130 | one more note's index extends a row |
| Sequence.PositionIsIndexOf | generator/src/keysound/sequence.rs:120-128 | in a list without duplicates the position of an element is unique |
| Sequence.SourcesAppend | generator/src/keysound/sequence.rs:121-126 | a new note adds the keysound `key_{idx:03}` at the end |
| Sequence.AssignNote | generator/src/keysound/sequence.rs:120-128 | `entry().or_insert_with`: a seen note keeps its index; an unseen note gets the next index and a new keysound |
| Sequence.IndexMapSnoc | generator/src/keysound/sequence.rs:120-128 | registering an unseen note at the end of the distinct notes gives it the next index and keeps the map exactly the notes' positions plus one |
| Sequence.AssignChord | generator/src/keysound/sequence.rs:115-131 | one chord's row of indices, registering its unseen notes |
| Sequence.AssignIndices | generator/src/keysound/sequence.rs:110-132 | the loops of `new` compute the index table and the keysound table |
| Sequence.AllIndexesGrow | generator/src/keysound/sequence.rs:113-132 | earlier rows stay valid when a row is added |
| Sequence.TableFromIndexes | generator/src/keysound/sequence.rs:113-132 | rows that index the distinct notes are the index table |
| Sequence.SequenceKeySound.constructor | generator/src/keysound/sequence.rs:110-139 | indices and keysounds of the notes, nothing used yet |
| Sequence.Use | generator/src/keysound/sequence.rs:152-156 | grows the usage table with zero rows through the bar and increments only that (bar, step) |
| Sequence.KeyName | generator/src/keysound/sequence.rs:123 | `key_` followed by the index in at least three digits |
| Sequence.IndexAt | generator/src/keysound/sequence.rs:157-160 | tone t of the chord at step 16b + p, read cyclically, or the table length when the chord has no tone t |
| Sequence.SequenceKeySound.KeySoundIdx | generator/src/keysound/sequence.rs:151-161 | counts one use of the step and returns that step's tone, or the table length |
| Sequence.IndexAtPlays | generator/src/keysound/sequence.rs:157-160 | returns the tone's keysound, or the table length exactly when the chord has no such tone |
| Sequence.SequenceKeySound.ScratchSoundIdx | generator/src/keysound/sequence.rs:163-165 | exactly the table length, one past the last keysound, read without a state change |
| Sequence.MaxLen | generator/src/keysound/sequence.rs:180 | no row is longer than the maximum |
| Sequence.MaxLenAttained | generator/src/keysound/sequence.rs:180 | some row attains the maximum |
| Sequence.BarChords | generator/src/keysound/sequence.rs:170-174 | between 1 and 16 chords from step 16b mod length, without wrapping |
| Sequence.BarChordsAt | generator/src/keysound/sequence.rs:157-173 | those chords are the ones `key_sound_idx` read at the same steps |
| Sequence.Unused | generator/src/keysound/sequence.rs:170-179 | per step, the tones of its chord after the first `used` |
| Sequence.BgmDefined | generator/src/keysound/sequence.rs:170-186 | the conditions under which `bgm_sound_indices` does not panic: the bar's usage row exists and the sixteen steps it reads exist unless no tone is left over |
| Sequence.Bgm | generator/src/keysound/sequence.rs:167-194 | the background channels of the tones left over, plus the silence channel in bar 0 |
| Sequence.SequenceKeySound.BgmSoundIndices | generator/src/keysound/sequence.rs:167-194 | `bgm_sound_indices` on the current usage counts, read without a state change |
| Sequence.BgmChannels | generator/src/keysound/sequence.rs:180-187 | as many rows of 16 steps as the most tones left over at a step |
| Sequence.SomesOfPadded | generator/src/keysound/sequence.rs:184 | a column padded with None reads back as its values |
| Sequence.Column | generator/src/keysound/sequence.rs:184 | step j of each row |
| Sequence.BgmChannelsCover | generator/src/keysound/sequence.rs:180-187 | reading the channels top to bottom at a step gives exactly the tones left over there |
| Sequence.BgmCoversUnused | generator/src/keysound/sequence.rs:167-194 | channel count is the maximum left over, plus the silence channel `[Some(0)]` in bar 0; every tone left over appears once, in chord order |
| Sequence.BgmCell | generator/src/keysound/sequence.rs:181-186 | channel i at step j is tone used + i of that step's chord, or None past its end |
| BmsWriter.FromBmsIndex | bms-writer/src/lib.rs:11-18 | the decoding of two base-36 digits, value less one: the inverse `ToBmsIndex` is proved against |
| BmsWriter.Base36Table | bms-writer/src/lib.rs:12 | the table holds the base-36 digits in order |
| BmsWriter.ToBmsIndex | bms-writer/src/lib.rs:11-18 | defined below idx + 1 < 1296; two base-36 digits that decode to idx, so injective, and never "00" |
| BmsWriter.ToBmsIndexExamples | bms-writer/src/lib.rs:11-18 | 0 → "01", 34 → "0Z", 35 → "10", 1294 → "ZZ" |
| BmsWriter.Padded | bms-writer/src/lib.rs:45 | `{:0w}` is the decimal text (`Decimal.Text`) left-padded with zeros: all digits, length max(w, digits) |
| BmsWriter.LeadingZerosValue | bms-writer/src/lib.rs:45 | leading zeros do not change the value |
| BmsWriter.ZeroPadValue | bms-writer/src/lib.rs:45 | left-padding digits with zeros keeps them digits and keeps their value |
| BmsWriter.PaddedRoundTrip | bms-writer/src/lib.rs:45 | zero padding reads back as the number (`Decimal.Value`) |
| BmsWriter.PaddedWidth | bms-writer/src/lib.rs:45 | a number below 10^w fills exactly w padded characters |
| BmsWriter.TextLength | bms-writer/src/lib.rs:45 | a number below 10^w has at most w decimal digits |
| BmsWriter.Code | bms-writer/src/lib.rs:46-51 | a step is two characters: "00" exactly for an empty step, otherwise the index's code |
| BmsWriter.RowCodes | bms-writer/src/lib.rs:46-52 | two characters per step |
| BmsWriter.RowCodesSnoc | bms-writer/src/lib.rs:46-52 | the codes of a row are those of all steps but the last, followed by the last step's two characters |
| BmsWriter.RowCodesAt | bms-writer/src/lib.rs:46-52 | step k sits at characters 2k and 2k + 1 |
| BmsWriter.RowLine | bms-writer/src/lib.rs:45-53 | `#`, the bar number from 1 in at least three digits, the channel in at least two, `:`, then two characters per step |
| BmsWriter.RowLineLayout | bms-writer/src/lib.rs:45-53 | with a bar at most 999 and a channel at most 99, the line has 7 + 2·len characters: `#`, the bar number from 1 in three digits, the channel in two, `:`, then the steps |
| BmsWriter.RowLineSuffix | bms-writer/src/lib.rs:45-53 | the steps follow the 7-character prefix |
| BmsWriter.RowLineStep | bms-writer/src/lib.rs:45-53 | step k of a line sits at characters 7 + 2k and 8 + 2k |
| BmsWriter.PushToBar | bms-writer/src/lib.rs:34-40 | pads with empty bars through the bar index, appends the row to that bar only, and leaves every other bar unchanged |
| BmsWriter.ChannelLines | bms-writer/src/lib.rs:42-58 | one line per pushed row |
| BmsWriter.ChannelLineAt | bms-writer/src/lib.rs:42-58 | row k of bar b is line RowsBefore(b) + k: bar order, then push order |
| BmsWriter.WriteChannel | bms-writer/src/lib.rs:42-58 | `Channel::write` produces exactly those lines |
| BmsWriter.WavText | bms-writer/src/lib.rs:121 | `#WAV`, the two-digit index, a space, the name and `.wav` |
| BmsWriter.LineText | bms-writer/src/lib.rs:45-53 | the characters of a line: a `#WAV` line starts with `#WAV` and the index's two digits, and a channel line with `#` |
| BmsWriter.WavLines | bms-writer/src/lib.rs:120-122 | one `#WAV` line per listed index |
| BmsWriter.WavLineAt | bms-writer/src/lib.rs:120-122 | line a names the a-th index and its name |
| BmsWriter.BmsWriter.constructor | bms-writer/src/lib.rs:73-79 | empty tables and texts, tempo 120, total 300 |
| BmsWriter.BmsWriter.SetArtist | bms-writer/src/lib.rs:81-83 | sets the artist, nothing else changes |
| BmsWriter.BmsWriter.SetTitle | bms-writer/src/lib.rs:85-87 | sets the title, nothing else changes |
| BmsWriter.BmsWriter.SetGenre | bms-writer/src/lib.rs:89-91 | sets the genre, nothing else changes |
| BmsWriter.BmsWriter.SetBpm | bms-writer/src/lib.rs:93-95 | sets the tempo, nothing else changes |
| BmsWriter.BmsWriter.SetTotal | bms-writer/src/lib.rs:97-99 | sets the total, nothing else changes |
| BmsWriter.BmsWriter.PushChannel | bms-writer/src/lib.rs:101-104 | creates the channel empty on first use, then pushes the row to the bar; only that channel changes |
| BmsWriter.BmsWriter.SetKeysound | bms-writer/src/lib.rs:106-108 | inserts or replaces the name of one index; nothing else changes |
| BmsWriter.BmsWriter.Header | bms-writer/src/lib.rs:111-118 | eight header lines: `#PLAYER 1`, `#TITLE`, `#GENRE`, `#ARTIST`, `#TOTAL`, `#BPM`, `#PLAYLEVEL 1`, `#RANK 3` |
| BmsWriter.BmsWriter.Write | bms-writer/src/lib.rs:110-129 | the header, then `#WAV` lines by ascending index, then channels by ascending channel number |
| BmsWriter.SortedKeysIn | bms-writer/src/lib.rs:120-126 | the ascending keys are all keys of the map |
| BmsWriter.KeysListed | bms-writer/src/lib.rs:120-122 | every key of the keysound map is listed and encodable |
| BmsWriter.WriteWavs | bms-writer/src/lib.rs:120-122 | the `#WAV` loop in ascending index order |
| BmsWriter.WriteChannels | bms-writer/src/lib.rs:124-126 | the channel loop emits the lines of each listed channel in the order given; `write` passes the channel numbers in ascending order |
| BmsWriter.ChannelsLines | bms-writer/src/lib.rs:124-126 | the lines of the listed channels, one channel after the other in the order given |
| BmsWriter.WavLinesAscending | bms-writer/src/lib.rs:120-122 | the `#WAV` table lists the indices strictly ascending |
| Bms.Emitted | generator/src/bms.rs:30 | `take(999)`: min(999, bars) bars are written |
| Bms.ChannelMappingInjective | generator/src/bms.rs:7-56 | lane channels 11,12,13,14,15,18,19 and scratch 16 are pairwise distinct and differ from the background channel 1 |
| Bms.LaneCell | generator/src/bms.rs:32-35 | lane l at step i has a keysound exactly when the chord holds l: the one of the last position holding it |
| Bms.LaneCellMeaning | generator/src/bms.rs:31-36 | lane l at step i has a keysound exactly when the chord holds l; for a chord without repeats it is that position's keysound |
| Bms.Grid | generator/src/bms.rs:31-36 | seven lane rows, each as long as the bar |
| Bms.ScratchRow | generator/src/bms.rs:42-50 | scratch step i is Some exactly when the chord plays the scratch |
| Bms.UseTimes | generator/src/keysound/sequence.rs:152-156 | repeated uses keep the usage table well formed |
| Bms.UseBar | generator/src/bms.rs:32-35 | the usage table after a bar's lane calls stays well formed |
| Bms.UseTimesCount | generator/src/keysound/sequence.rs:156 | k uses of a step add k to its counter only |
| Bms.UseBarCount | generator/src/bms.rs:32-35 | filling a bar counts one use per lane of each chord and changes no other counter |
| Bms.BackgroundAfterLanes | generator/src/bms.rs:32-56 | in a fresh bar the lanes take the first tones of each chord and background channel i plays tone k + i, so each tone sounds once |
| Bms.UseBars | generator/src/bms.rs:30-36 | the usage table after several bars stays well formed |
| Bms.BarPlayable | generator/src/bms.rs:31-34 | every chord of the bar within the sixteen steps and its lanes below 7, so that `lanes[lane][i]` and the usage counter exist |
| Bms.Playable | generator/src/bms.rs:30-36 | every emitted bar playable, and a non-empty index table when any bar is emitted |
| Bms.PushToBarEnd | bms-writer/src/lib.rs:34-40 | pushing to the bar just past the end adds that bar |
| Bms.PushLanes | generator/src/bms.rs:38-40 | the first n lane rows pushed in lane order, lane l to channel `LANE_MAPPING[l]` |
| Bms.PushRows | generator/src/bms.rs:54-56 | the first n rows pushed to one channel in order |
| Bms.BarPush | generator/src/bms.rs:38-56 | one bar's pushes: the lane rows, then the scratch row to 16, then the background rows to 1 |
| Bms.ChannelsAfter | generator/src/bms.rs:30-57 | the channel table after bars 0..n-1, each bar's pushes in bar order |
| Bms.PushLanesOther | generator/src/bms.rs:38-40 | lane pushes leave other channels alone |
| Bms.PushLanesAt | generator/src/bms.rs:38-40 | lane row l goes to channel `LANE_MAPPING[l]` |
| Bms.PushRowsOther | generator/src/bms.rs:54-56 | background pushes leave other channels alone |
| Bms.PushRowsAt | generator/src/bms.rs:54-56 | rows pushed past the end of a channel become that bar's rows, in order |
| Bms.ChannelsAfterKeys | generator/src/bms.rs:30-57 | the channel table holds only lane, scratch and background channels |
| Bms.BarPushKeys | generator/src/bms.rs:38-56 | one bar only adds lane, scratch and background channels |
| Bms.PushLanesKeys | generator/src/bms.rs:38-40 | lane pushes only add lane channels |
| Bms.PushRowsKeys | generator/src/bms.rs:54-56 | background pushes only add that channel |
| Bms.BarPushLane | generator/src/bms.rs:38-40 | one bar pushes lane row l to channel `LANE_MAPPING[l]` |
| Bms.BarPushScratch | generator/src/bms.rs:52 | one bar pushes its scratch row to channel 16 |
| Bms.BarPushBgm | generator/src/bms.rs:54-56 | one bar's background rows become that bar's rows of channel 1 |
| Bms.LaneStep | generator/src/bms.rs:30-40 | one more bar adds one more lane row to each lane channel |
| Bms.ScratchStep | generator/src/bms.rs:42-52 | one more bar adds one more scratch row |
| Bms.LaneChannelsAfter | generator/src/bms.rs:30-40 | after n bars, lane l's channel has exactly one row per bar, that bar's lane row |
| Bms.ScratchChannelAfter | generator/src/bms.rs:42-52 | after n bars, the scratch channel has one row per bar, that bar's scratch row |
| Bms.BgmStep | generator/src/bms.rs:54-56 | one more bar adds its background rows |
| Bms.BgmChannelAfter | generator/src/bms.rs:54-56 | after n bars, channel 1 holds each bar's background rows in order |
| Bms.EmptyGrid | generator/src/bms.rs:31 | `vec![vec![None; len]; LANES]` |
| Bms.SameGrid | generator/src/bms.rs:31-36 | grids equal cell by cell are equal |
| Bms.FillStart | generator/src/bms.rs:31 | the fill starts from the empty grid |
| Bms.FillStep | generator/src/bms.rs:34 | one store advances the partial grid by one position |
| Bms.FillNext | generator/src/bms.rs:32-33 | finishing a chord moves to the next step |
| Bms.FillDone | generator/src/bms.rs:32-36 | the finished fill is the lane grid |
| Bms.FillLanes | generator/src/bms.rs:31-36 | the grid loop stores `key_sound_idx(bar, i, j)` at lane row `lane`, step i; usage grows by the bar's lanes |
| Bms.PushLaneRows | generator/src/bms.rs:38-40 | the seven lane rows, lane l to channel `LANE_MAPPING[l]` |
| Bms.PushBgmRows | generator/src/bms.rs:54-56 | one channel-1 row per background row, in order |
| Bms.EmitBar | generator/src/bms.rs:31-56 | one bar pushes lane rows, then the scratch row, then the background rows; `ok` is false exactly when `bgm_sound_indices` panics |
| Bms.Bgms | generator/src/bms.rs:54 | one background list per bar |
| Bms.BgmsNext | generator/src/bms.rs:54 | one more bar appends its background rows |
| Bms.ChannelsAfterPrefix | generator/src/bms.rs:30-57 | the table after n bars reads only the first n background lists |
| Bms.EmitStep | generator/src/bms.rs:30-57 | emitting bar b after bars 0..b-1 gives the state after bars 0..b |
| Bms.EmitNext | generator/src/bms.rs:31-56 | one pass of the bar loop on top of bars 0..b-1: it goes through exactly when `bgm_sound_indices` is defined in bar b, so the panic search either stops at b or goes on from b + 1, and then the usage and channel table are those after bars 0..b |
| Bms.EmitBars | generator/src/bms.rs:30-57 | the first 999 bars are emitted in order; it stops at the bar `FirstPanicFrom` finds, and when none panics the usage and channel table are those after all emitted bars |
| Bms.FirstPanicFrom | generator/src/bms.rs:30-57 | the first bar from b on whose `bgm_sound_indices` panics, if any; it lies among the emitted bars |
| Bms.FirstPanicSpec | generator/src/bms.rs:30-57 | the search finds no bar exactly when no emitted bar panics, and a bar it finds is the first one whose `bgm_sound_indices` panics |
| Bms.FirstPanicStep | generator/src/bms.rs:30-57 | the search for the first panic stops at bar b exactly when bar b panics, and otherwise continues from b + 1 |
| Bms.PushRowWithin | generator/src/bms.rs:38-56 | pushing rows within a bound keeps the table within it |
| Bms.PushLanesWithin | generator/src/bms.rs:38-40 | the same for lane rows |
| Bms.PushRowsWithin | generator/src/bms.rs:54-56 | the same for background rows |
| Bms.LaneCellWithin | generator/src/bms.rs:34 | lane cells are at most the table length |
| Bms.GridWithin | generator/src/bms.rs:31-36 | every lane row is within the table length |
| Bms.BgmWithin | generator/src/bms.rs:54-56 | background rows hold only table indices and silence |
| Bms.ChannelsWithin | generator/src/bms.rs:30-57 | every index in the channel table is at most the table length |
| Bms.BarPushWithin | generator/src/bms.rs:38-56 | one bar keeps the table within the bound |
| Bms.SmallTableEncodable | generator/src/bms.rs:26-59 | with at most 1294 keysounds every index `write` formats fits in two base-36 digits |
| Bms.Names | generator/src/bms.rs:26-28 | the names `set_keysound` registers: index i holds source i's name, for exactly the indices of the sources |
| Bms.NamesNext | generator/src/bms.rs:26-28 | one more `set_keysound` adds source i under index i |
| Bms.NewWriter | generator/src/bms.rs:18-28 | the header fields as given, and source i registered as `#WAV` index i |
| Bms.ChartToBms | generator/src/bms.rs:9-60 | sets the header fields and the names, then emits the first 999 bars. It fails exactly when `bgm_sound_indices` panics, or when `to_bms_index` would index out of range, which cannot happen below 1295 keysounds. Otherwise the output is `write` of the emitted channels |
| Riff.Pow256 | keysound-gen/src/riff.rs:17-32 | 256^n is positive |
| Riff.LE | keysound-gen/src/riff.rs:17-32 | `to_le_bytes` gives n bytes |
| Riff.LERoundTrip | keysound-gen/src/riff.rs:17-32 | little-endian bytes read back as the value |
| Riff.I16Bytes | keysound-gen/src/riff.rs:36 | `i16::to_le_bytes` gives two bytes |
| Riff.I16RoundTrip | keysound-gen/src/riff.rs:36 | two's complement bytes read back as the sample |
| Riff.Tag | keysound-gen/src/riff.rs:16-31 | the ASCII bytes of a tag |
| Riff.BlockAlign | keysound-gen/src/riff.rs:11-12 | `block_align` fits 16 bits and is 2·channels |
| Riff.SamplesBytes | keysound-gen/src/riff.rs:14 | `samples_bytes` is cut to 32 bits |
| Riff.Written | keysound-gen/src/riff.rs:11-17 | every computed field fits its width |
| Riff.RiffPart | keysound-gen/src/riff.rs:16-18 | the RIFF chunk head has 12 bytes |
| Riff.FmtFront | keysound-gen/src/riff.rs:21-24 | the `fmt ` head has 12 bytes |
| Riff.FmtBack | keysound-gen/src/riff.rs:25-28 | the rest of `fmt ` has 12 bytes |
| Riff.DataPart | keysound-gen/src/riff.rs:31-32 | the `data` head has 8 bytes |
| Riff.HeaderOf | keysound-gen/src/riff.rs:16-32 | the header has 44 bytes |
| Riff.Header | keysound-gen/src/riff.rs:3-32 | the header `write_riff` writes has 44 bytes |
| Riff.FrameBytes | keysound-gen/src/riff.rs:35-37 | two bytes per channel |
| Riff.SampleBytes | keysound-gen/src/riff.rs:34-38 | every sample of every frame as two little-endian bytes, frame by frame |
| Riff.RiffBytes | keysound-gen/src/riff.rs:6-41 | the header followed by the sample bytes: the bytes `write_riff` writes |
| Riff.WriteRiff | keysound-gen/src/riff.rs:6-41 | the header followed by the samples |
| Riff.WriteHeader | keysound-gen/src/riff.rs:16-32 | the thirteen header writes produce the header |
| Riff.WriteSamples | keysound-gen/src/riff.rs:34-38 | the nested loop writes the samples frame by frame, channel by channel |
| Riff.SampleBytesLength | keysound-gen/src/riff.rs:34-38 | two bytes per channel per frame |
| Riff.HeaderLayout | keysound-gen/src/riff.rs:16-32 | tags at 0, 8, 12 and 36; every field reads back from its offset |
| Riff.HeaderRiff | keysound-gen/src/riff.rs:16-18 | "RIFF", the size field and "WAVE" at bytes 0-12 |
| Riff.HeaderFront | keysound-gen/src/riff.rs:21-24 | "fmt ", 16, PCM 1 and the channel count at bytes 12-24 |
| Riff.HeaderBack | keysound-gen/src/riff.rs:25-28 | sample rate, byte rate, block alignment and 16 bits at bytes 24-36 |
| Riff.HeaderData | keysound-gen/src/riff.rs:31-32 | "data" and the data size at bytes 36-44 |
| Riff.RiffFields | keysound-gen/src/riff.rs:16-18 | the fields of the RIFF head read back |
| Riff.FrontFields | keysound-gen/src/riff.rs:21-24 | the fields of the `fmt ` head read back |
| Riff.BackFields | keysound-gen/src/riff.rs:25-28 | the rest of `fmt ` reads back |
| Riff.DataFields | keysound-gen/src/riff.rs:31-32 | the `data` head reads back |
| Riff.FrameBytesAt | keysound-gen/src/riff.rs:35-37 | channel c sits at bytes 2c and 2c + 1 of its frame |
| Riff.SampleBytesAt | keysound-gen/src/riff.rs:34-38 | channel c of frame k sits at byte 2(k·channels + c) |
| Riff.DataSize | keysound-gen/src/riff.rs:14-32 | `samples_bytes` is the sample byte count mod 2^32, and equals it when it fits |
| Riff.FileFields | keysound-gen/src/riff.rs:16-32 | the header fields read back from the whole file |
| Riff.RiffLayout | keysound-gen/src/riff.rs:6-41 | the file is 44 + 2·frames·channels bytes long. The tags sit at 0, 8, 12 and 36. The fmt fields are 16, 1, channels, the rate, rate·2·channels, 2·channels and 16. The data size equals the sample bytes when the file fits 32 bits |
| Riff.SampleAt | keysound-gen/src/riff.rs:34-38 | channel c of frame k reads back from bytes 44 + 2(k·channels + c) |
| Riff.RiffSizeAsWritten | keysound-gen/src/riff.rs:17 | as written, the RIFF size field holds the whole file length |
| Riff.RiffSizeCounterexample | keysound-gen/src/riff.rs:17 | a mono file without samples is 44 bytes and its size field reads 44, not 36 |
| Riff.CorrectedFields | keysound-gen/src/riff.rs:17 | the corrected fields fit their widths |
| Riff.CorrectedRiffSize | keysound-gen/src/riff.rs:17 | with the corrected field the size is the file length less 8, and every other byte is as written |
| Riff.SameOutsideSize | keysound-gen/src/riff.rs:16-32 | headers differing only in the size field agree elsewhere |
| KeysoundGen.NoteName | keysound-gen/src/lib.rs:16 | `format!("{name}{octave}")` |
| KeysoundGen.OctaveNames | keysound-gen/src/lib.rs:11-16 | twelve names, pitch n followed by the octave |
| KeysoundGen.OctavesFrom | keysound-gen/src/lib.rs:9-18 | the names of octaves lo through hi in order |
| KeysoundGen.NoteNames | keysound-gen/src/lib.rs:8-19 | the names of octaves 3 to 6 |
| KeysoundGen.OctavesFromLength | keysound-gen/src/lib.rs:9-18 | 12 names per octave |
| KeysoundGen.OctavesFromAt | keysound-gen/src/lib.rs:9-18 | entry i is pitch i mod 12 of octave lo + i / 12 |
| KeysoundGen.NoteNamesLayout | keysound-gen/src/lib.rs:8-19 | 48 names; entry 12k + n is NAMES[n] followed by the decimal 3 + k |
| KeysoundGen.NoteNamesEnds | keysound-gen/src/lib.rs:8-19 | the first name is "C3" and the last "B6" |
| KeysoundGen.NameWithDigit | keysound-gen/src/lib.rs:16 | a pitch name followed by one digit determines both parts |
| KeysoundGen.NoteNameAt | keysound-gen/src/lib.rs:16 | every note name ends in one octave digit |
| KeysoundGen.NoteNamesDistinct | keysound-gen/src/lib.rs:8-19 | the 48 names are pairwise distinct |
| KeysoundGen.DrumNames | keysound-gen/src/lib.rs:21-26 | three drum names |
| KeysoundGen.DrumNamesApart | keysound-gen/src/lib.rs:21-26 | the drum names are distinct and none is a note name |
| KeysoundGen.Keysounds | keysound-gen/src/lib.rs:28-34 | one pair per note name, with the note number i + 3 - 24 in place of its frequency |
| KeysoundGen.KeysoundsColumns | keysound-gen/src/lib.rs:28-34 | the name column is `note_names` in order; the notes run from -21 (C3) to 26 (B6) |
| Decimal.DigitChar | cli/src/main.rs:57 | a digit character |
| Decimal.DigitValue | cli/src/main.rs:57 | a digit's value is below 10 |
| Decimal.Text | keysound-gen/src/lib.rs:16 | `{}` of a natural: at least one digit, one digit exactly below 10 |
| Decimal.ValueOfText | cli/src/main.rs:57 | the text of n reads back as n |
| Decimal.TextInjective | keysound-gen/src/lib.rs:16 | different numbers have different texts |
| Cli.Split | cli/src/main.rs:56 | `split(',')` gives at least one piece |
| Cli.SplitPiecesFree | cli/src/main.rs:56 | no piece holds the separator |
| Cli.JoinSplit | cli/src/main.rs:56 | joining the pieces with the separator gives back the text |
| Cli.SplitAfterPiece | cli/src/main.rs:56 | a separator-free piece and a separator split off as one piece |
| Cli.SplitPiece | cli/src/main.rs:56 | a separator-free text is one piece |
| Cli.SplitJoin | cli/src/main.rs:56 | splitting a join of separator-free pieces gives back the pieces |
| Cli.ParseU64 | cli/src/main.rs:57 | a parsed value is below 2^64 |
| Cli.ParseText | cli/src/main.rs:57 | the decimal text of every u64, with or without '+', parses back to it |
| Cli.ParseRefuses | cli/src/main.rs:57 | the empty text, a lone '+' and a leading '-' are refused |
| Cli.ParseAll | cli/src/main.rs:57-58 | `collect::<Option<_>>` succeeds exactly when every piece parses, with their values in order |
| Cli.ParseDensity | cli/src/main.rs:54-63 | `parse_density`: the split fields parsed, then `from_power_of_two` when there are exactly five, otherwise None |
| Cli.ParseDensitySpec | cli/src/main.rs:54-63 | succeeds exactly when there are five fields that all parse; then the table has 16 steps and is `from_power_of_two` of those values |
| Cli.EmptyDensity | cli/src/main.rs:55-58 | the empty text gives None |
| Cli.WrongFieldCount | cli/src/main.rs:59-61 | any field count other than five gives None |
| Cli.DensityRoundTrip | cli/src/main.rs:54-63 | five u64 values written in decimal and joined by commas parse back to their table |
| Seqs.Reverse | generator/src/chord.rs:18 | `.rev()`: entry i is entry len - 1 - i |
| Seqs.SortedKeys | bms-writer/src/lib.rs:120-126 | `BTreeMap` iteration: the keys strictly ascending, each once |

## Left out

- Floating-point arithmetic is not modelled:
  - `next_f32` is its integer numerator over 2^24.
  - The jack tolerance is read through `Ceil`, `Trunc` and `RerollChance` on reals. The f32 rounding of those operations is not modelled.
  - `#TOTAL {:.0}` and `#BPM {:.2}` are kept as symbolic `Total(x)` and `Bpm(x)` lines.
  - `note_to_freq` (keysound-gen/src/lib.rs:4-6): `KeysoundGen.Keysounds` keeps the note number in place of the frequency.
  - `Note::freq`, `to_source`, the oscillators and the envelopes of sequence.rs: `Note` is a value compared by equality, and a keysound source keeps its note.
  - keysound-gen/src/synth.rs is not part of this model.
- Shift-JIS encoding through an external library is kept as a symbolic `ShiftJis(s)` line.
- All I/O is left out. This covers the sinks, their errors, partial `write` returns, files and printing. Each writer returns the sequence of lines or bytes it would write.
- Seeding from the system clock, argument handling and `main` are left out.
- The RNG's million-draw uniqueness test is statistical and is not modelled. The determinism of the stream follows from `Output` and `Advance` being functions.
- The `KeySound` trait is not modelled. `chart_to_bms` is modelled against `SequenceKeySound` (generator/src/keysound/sequence.rs). The trait declaration and `ChordKeySound` are not part of this model.
- The chord type `chart_to_bms` reads (lanes and a scratch flag) differs from the `Vec<u8>` chord of generate.rs. `Bms.BmsChord` models the former and `Generate.Chord` the latter; no conversion between them is modelled.
- `Bms.ChartToBms` returns the writer as an out-parameter so that its contract can name the final state.
- In `write_riff`, arithmetic overflow is treated the way a debug build treats it, as a panic. Sizes that would overflow `u16`/`u32` there are therefore preconditions (`Riff.HeaderFits`). Elsewhere `usize` and `u64` counters are unbounded naturals; the lines below name the places where the source's widths could matter.
- Chord.FromPowerOfTwo: lists of more than 32 values are excluded by its precondition. For them `1 << (n - 1)` shifts an i32 by 32 or more, which panics in a debug build and masks the shift amount in a release build. Thirty-two values are modelled and give the empty table, as in the source.
- Rule.FromPowerOfTwo: the same exclusion as `Chord.FromPowerOfTwo`, for the same reason.
- Generate.NoteRandomizer.Pick: the index is the whole 64-bit draw modulo the candidate count, which assumes a 64-bit `usize`. On a 32-bit target such as the WebAssembly build, `as usize` keeps only the low 32 bits of the draw; that is not modelled.
- Chord.GenerateChordDensity: requires a non-empty table. The source takes `index % len` (generator/src/chord.rs:31), which panics on an empty table, for example `ChordDensity::new(vec![])` or 32 values in `from_power_of_two`. That panic is not modelled.
- Rule.NextChordCount: requires a non-empty table, because `index % len` (generator/src/rule.rs:30) panics on an empty one. That panic is not modelled.
- Generate.GenerateStep: requires a non-empty density table, because it calls `generate_chord_density`, which panics on an empty one.
- Generate.GenerateBar: requires a non-empty density table, for the same reason.
- Generate.GenerateChart: requires a non-empty density table whenever a bar is generated, for the same reason.
- Sequence.SequenceKeySound.KeySoundIdx: requires a non-empty index table and a step below 16. The source panics otherwise, on `% len` (generator/src/keysound/sequence.rs:157) and on the usage row index (generator/src/keysound/sequence.rs:156). Those panics are not modelled.
- Bms.Playable: requires a non-empty index table when any bar is emitted, because `key_sound_idx` and `bgm_sound_indices` take a remainder by its length (generator/src/keysound/sequence.rs:157 and 173). This holds for `Bms.EmitBars` and `Bms.ChartToBms`, which require it. The panic on an empty table is not modelled.
- The CLI's other options, the Scatter/bias weighting, the other `ChartParams::new` signature it calls, and the total formula come from a different revision of the generator. They are not part of this model; only `parse_density` is.
- The CLI error message says "up to 5" integers (cli/src/main.rs:72), but `parse_density` demands exactly five. The model follows the code (`Cli.WrongFieldCount`).
- Generate.NoteRandomizer.Generate:
  - Leaving the tier loop once no note is left to place stands for `break 'outer`. The remaining tiers would draw nothing, so the generator state is the same.
  - The chosen lanes are stated by properties (sorted, distinct, bounded, tier-closed when nothing rerolls), not as a function of the generator state.
- Generate.GenerateChart: the anti-jack bound is proved under the hypotheses the chart test uses, an integral tolerance and at most three notes per step. Rerolls, which make the bound probabilistic, are outside it.
- Cli.ParseDensity: the function itself carries no postcondition; its contract is the lemma `Cli.ParseDensitySpec`.
- Bms.EmitBars and Bms.ChartToBms: `key_sound_idx` is only modelled for steps below 16 and lanes below 7 (`Bms.BarPlayable`). Beyond that the source panics on an index out of bounds, and that panic is not modelled.

## Findings

| source | as written | input that shows it | evidently intended | confidence | as-written member | corrected member |
|---|---|---|---|---|---|---|
| keysound-gen/src/riff.rs:17 | the RIFF size field is `samples_bytes + 44`, the whole file length | one channel, no samples: a 44-byte file whose size field reads 44 | the RIFF format's chunk size, the file length less the 8 bytes of tag and size: `samples_bytes + 36` | high; not executed | Riff.RiffSizeAsWritten, Riff.RiffSizeCounterexample | Riff.CorrectedRiffSize |
