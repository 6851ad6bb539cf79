# DrumCraft tuning session, modelled in Dafny

DrumCraft is a drum-tuning aid. A microphone loop estimates the pitch of a
struck drum head. The user records that pitch lug by lug (a lug is one
tensioning point on the rim) and sees how even the head is. This project
models the session logic of the `DrumCraft` component in
`src/drumcraft-tuner.jsx`, without the presentation:

- the drum catalogue `DRUMS`: id, name, lug count, and one frequency range per head;
- one reading set per (drum, head) key, created lazily with one null slot per
  lug and kept when the user switches keys;
- the target frequency: by default the midpoint of the active head's range,
  reset when that midpoint changes, and set with a slider spanning that range;
- `recordLug`: writes the live frequency into the active lug's slot, puts a
  history entry first in a log capped at 20, and moves to the next lug;
- `clearReadings`;
- the derived statistics (count, average, spread, evenness);
- the 3 Hz / 8 Hz deviation classification and its label.

Files, one module each:

- `hertz.dfy` (`Hertz`): optional frequencies, JavaScript truthiness, the 30–1000 Hz filter, rounding to 0.1 Hz.
- `drums.dfy` (`Drums`): the catalogue, head ranges, the midpoint.
- `stats.dfy` (`Stats`): recorded values, sum, max, min, average, spread, evenness, and the statistics block.
- `deviation.dfy` (`Deviation`): colour band and label.
- `history.dfy` (`History`): the capped, newest-first log.
- `session.dfy` (`Session`): the key, blank sets, lazy initialisation, lug advance, and the class `Tuner`. `Tuner` holds the component's state fields; its methods perform the handlers and effects.

Frequencies are exact `real`s, so the floating-point error of sums and
averages is not modelled. A key is the pair (drum id, head), not the
concatenated string. The drum ids in the table are distinct, so the pair
identifies the same set as the string does. `activeLug`, `currentFreq` and
`targetFreq` are `Option`s, because the code tests them against `null` and
for truthiness.

The React effects (lazy set creation at lines 347-356 and target reset at
362-367) run after the render that changed the drum or head. The model
performs them at the end of `SelectDrum` and `SelectHead`. Between that
render and its effects, `activeLug` is already `null`, so `recordLug` would
do nothing anyway.

Points where the component's behaviour may be unexpected:

- The target is reset when the midpoint value changes. No two heads in the table share a midpoint, so that is every change of drum or head. Clicking the drum or head that is already selected keeps a slider override.
- `record` has no out-of-range error. `activeLug` is always a valid lug or `null`, and `null` makes the record a no-op.
- `clearReadings` does not touch the history.
- The spread of fewer than two readings is 0.

## Model

| member | source | states |
|---|---|---|
| `Hertz.RoundTenth` | src/drumcraft-tuner.jsx:392-393 | rounding gives a whole number of tenths of a hertz, moves a frequency by at most 0.05 Hz, and an estimate strictly between 30 and 1000 Hz stays within [30, 1000] after rounding |
| `Drums.RangeOf` | src/drumcraft-tuner.jsx:362 | the range of either head of a catalogued drum is a proper range lying strictly inside the 30–1000 Hz window of the pitch filter |
| `Drums.MidFreq` | src/drumcraft-tuner.jsx:363 | the default target is equidistant from both ends of the active range and lies inside it |
| `Drums.CatalogueWellFormed` | src/drumcraft-tuner.jsx:4-70 | the table is non-empty, every drum has lugs, every midpoint is strictly inside its range, and ids are unique |
| `Drums.MidpointsDistinct` | src/drumcraft-tuner.jsx:362-367 | no two (drum, head) pairs of the table share a midpoint, so the target reset fires on every change of drum or head |
| `Stats.Defined` | src/drumcraft-tuner.jsx:449 | the recorded values are exactly the non-null slot values, each as often as it occurs in the slots, and there are no more of them than slots |
| `Stats.DefinedCount` | src/drumcraft-tuner.jsx:449 | the count of readings equals the number of slots minus the number of null slots |
| `Stats.DefinedUpdate` | src/drumcraft-tuner.jsx:417-423 | writing into one slot adds one reading exactly when that slot was null, and changes the sum by the new value minus the old one |
| `Stats.NoneDefined` | src/drumcraft-tuner.jsx:449 | a set of null slots has no readings |
| `Stats.AllDefined` | src/drumcraft-tuner.jsx:449 | a set whose every slot holds a value yields exactly those values, in lug order |
| `Stats.StatisticsOfValues` | src/drumcraft-tuner.jsx:449-452 | the statistics block depends only on the recorded values |
| `Stats.NoNullIffFull` | src/drumcraft-tuner.jsx:449 | no slot is null exactly when every slot holds a reading |
| `Stats.MaxIsGreatest` | src/drumcraft-tuner.jsx:451 | `Math.max` returns one of the readings, and no reading exceeds it |
| `Stats.MinIsLeast` | src/drumcraft-tuner.jsx:451 | `Math.min` returns one of the readings, and no reading is below it |
| `Stats.SumIsLeftFold` | src/drumcraft-tuner.jsx:450 | the sum equals the left fold `reduce((a, b) => a + b, 0)`: the sum of all but the last reading plus the last |
| `Stats.SumBounds` | src/drumcraft-tuner.jsx:450 | n readings between lo and hi sum to between n·lo and n·hi |
| `Stats.SumWithinExtremes` | src/drumcraft-tuner.jsx:450 | n readings sum to between n times the smallest and n times the largest |
| `Stats.MeanBounds` | src/drumcraft-tuner.jsx:450 | the sum over the count lies between the smallest and the largest reading, and times the count gives back the sum |
| `Stats.Average` | src/drumcraft-tuner.jsx:450 | the average is 0 with no readings; otherwise it times the count is the sum, and it lies between the smallest and the largest reading |
| `Stats.Spread` | src/drumcraft-tuner.jsx:451 | the spread is 0 for fewer than two readings; it is never negative, no two readings differ by more than it, and for two or more readings some pair differs by exactly it |
| `Stats.SpreadAttained` | src/drumcraft-tuner.jsx:451 | with two or more readings, the spread is the difference of two non-null slot values |
| `Stats.IsEven` | src/drumcraft-tuner.jsx:452 | the head is even if and only if every two readings are less than 5 Hz apart |
| `Stats.EvenEdges` | src/drumcraft-tuner.jsx:452 | readings 4.99 Hz apart are even, 5 Hz apart are not, and a single reading is even |
| `Stats.SnareReadings` | src/drumcraft-tuner.jsx:449-452 | the readings 276, 274, 280, 270, 277, 273, 278, 272 average 275 Hz, spread 10 Hz, and are not even |
| `Stats.Statistics` | src/drumcraft-tuner.jsx:449-452 | the statistics block, computed from the slots alone: count = non-null slots; average 0 when empty, else the sum over the count and within the readings' range; spread 0 for at most one reading, non-negative, bounding every pairwise difference of slot values, and attained by one pair when there are two or more; even if and only if all readings are within 5 Hz of each other |
| `Deviation.Color` | src/drumcraft-tuner.jsx:454-460 | neutral exactly when the frequency or the target is null or zero; otherwise success below 3 Hz from the target, warning from 3 Hz to below 8 Hz, danger from 8 Hz |
| `Deviation.LabelOf` | src/drumcraft-tuner.jsx:462-467 | empty exactly when the frequency or the target is null or zero; otherwise "ON TARGET" below 3 Hz, HIGH at 3 Hz or more above and LOW at 3 Hz or more below, carrying freq − target |
| `Deviation.ColorMatchesLabel` | src/drumcraft-tuner.jsx:454-467 | colour and label agree: neutral when frequency or target is null or zero; success exactly when "ON TARGET"; otherwise the label carries freq − target, and its sign picks HIGH or LOW |
| `Deviation.ColorMonotone` | src/drumcraft-tuner.jsx:454-460 | the colour depends only on the distance to the target, and a greater distance never gives a milder band |
| `Deviation.BandEdges` | src/drumcraft-tuner.jsx:454-467 | the bands are half-open: 2.99 Hz off is success, 3 Hz and 7.99 Hz are warning, 8 Hz is danger; 3 Hz low is labelled LOW with −3 |
| `History.Take` | src/drumcraft-tuner.jsx:426 | `slice(0, n)` keeps the first n entries, or all of them when there are fewer |
| `History.Push` | src/drumcraft-tuner.jsx:424-427 | a record puts the new entry first, keeps the previous entries in order after it, and caps the log at 20 |
| `History.PushIsTake` | src/drumcraft-tuner.jsx:424-427 | a record keeps the first 20 of the new entry followed by the old log |
| `History.NewestFirstAt` | src/drumcraft-tuner.jsx:424-427 | position i of the newest-first listing is the i-th entry counted back from the last one committed |
| `History.PushAllNewestFirst` | src/drumcraft-tuner.jsx:424-427 | after any sequence of records, the log is the first 20 of the new entries reversed, followed by the old log |
| `History.PushAllKeepsLatest` | src/drumcraft-tuner.jsx:424-427 | the log length is min(old + new, 20); after 25 records it holds exactly the 20 latest, latest first |
| `Session.EmptySlots` | src/drumcraft-tuner.jsx:350-353 | the slot-by-slot loop builds exactly `lugs` slots, all null |
| `Session.BlankIsEmpty` | src/drumcraft-tuner.jsx:441-446 | a fresh or cleared set has count 0 |
| `Session.Activated` | src/drumcraft-tuner.jsx:347-356 | lazy initialisation adds only the active key, with a blank set when it was missing, and leaves every existing set unchanged |
| `Session.SwitchBackRestores` | src/drumcraft-tuner.jsx:347-356 | switching to another key and back restores the first key's readings verbatim |
| `Session.Next` | src/drumcraft-tuner.jsx:436 | the lug after an active lug is again one of the drum's lugs |
| `Session.NextIsModulo` | src/drumcraft-tuner.jsx:436 | for an active lug, the advance is exactly `(prev + 1) % lugs` |
| `Session.RecordRun` | src/drumcraft-tuner.jsx:415-436 | repeated records of truthy live frequencies keep the slot count; it does not model the guard, so a value of 0 is written where the component would do nothing |
| `Session.RecordRunKeepsFiltered` | src/drumcraft-tuner.jsx:392-393 | recording only values that passed the 30–1000 Hz filter keeps every reading of the set within [30, 1000] Hz |
| `Session.RecordRunFills` | src/drumcraft-tuner.jsx:415-436 | records from lug k that do not wrap fill lugs k, k+1, … with the recorded values in order, and leave every other slot unchanged |
| `Session.ActivatedFits` | src/drumcraft-tuner.jsx:347-356 | lazily creating a catalogued drum's set keeps every set sized to its drum and every reading filtered |
| `Session.LugAfterAdvances` | src/drumcraft-tuner.jsx:436 | each record advances the active lug by one and wraps to 0 after the last |
| `Session.SweepFillsAllLugs` | src/drumcraft-tuner.jsx:415-436 | starting at lug 0, `lugs` records visit every slot once: the readings are the recorded values in order, count = lugs, and the active lug is back at 0 |
| `Session.SweepStatistics` | src/drumcraft-tuner.jsx:449-452 | after one record per lug from the first, the statistics are those of the recorded values |
| `Session.SnareTarget` | src/drumcraft-tuner.jsx:362-366 | the first drum is the eight-lug snare, and its batter head's default target is 275 Hz |
| `Session.SnareSweep` | src/drumcraft-tuner.jsx:449-452 | on that snare, recording 276, 274, 280, 270, 277, 273, 278, 272 gives count 8, average 275, spread 10, not even |
| `Session.Tuner.ActiveSlots` | src/drumcraft-tuner.jsx:358-359 | the active set has exactly one slot per lug of the selected drum, and every reading in it is within [30, 1000] Hz |
| `Session.Tuner.LiveTone` | src/drumcraft-tuner.jsx:454-460 | the target is always set, so the live reading's colour is neutral exactly when nothing is heard, and success exactly when it is within 3 Hz of the target |
| `Session.Tuner.ActiveStatistics` | src/drumcraft-tuner.jsx:449-452 | the statistics are the pure function of the active set; count ≤ lugs, and count = lugs exactly when every lug has a reading |
| `Session.Tuner.constructor` | src/drumcraft-tuner.jsx:321-367 | after mounting: the first drum, batter head, a blank set for that key only, no active lug, no live frequency, empty history, target at the midpoint |
| `Session.Tuner.LazyInit` | src/drumcraft-tuner.jsx:347-356 | the init effect creates the active key's set when it is missing and changes nothing else |
| `Session.Tuner.SelectDrum` | src/drumcraft-tuner.jsx:637 | picking a drum clears the active lug, lazily creates the new key's set, leaves all other sets as they were, and resets the target only when the midpoint changes, which it does whenever the drum changes; all invariants, including a target inside the active range, are kept |
| `Session.Tuner.SelectHead` | src/drumcraft-tuner.jsx:719 | the same as picking a drum, for the other head: a different head always resets the target |
| `Session.Tuner.SelectLug` | src/drumcraft-tuner.jsx:807 | clicking lug i (one of the drawn lugs) makes it active |
| `Session.Tuner.SetTarget` | src/drumcraft-tuner.jsx:741-745 | the slider, whose ends are the active head's range, sets the target to the chosen value; the target stays inside the range |
| `Session.Tuner.Detect` | src/drumcraft-tuner.jsx:392-393 | an estimate strictly between 30 and 1000 Hz becomes the live frequency, rounded to 0.1 Hz; any other estimate leaves the live frequency as it was |
| `Session.Tuner.StopListening` | src/drumcraft-tuner.jsx:408 | stopping forgets the live frequency |
| `Session.Tuner.RecordLug` | src/drumcraft-tuner.jsx:415-438 | a complete no-op unless a lug is active and the live frequency is truthy; otherwise exactly that slot of the active set gets the frequency, other slots and keys are unchanged, the entry {lug+1, freq, drum name, head} goes first in the capped history, and the active lug advances modulo the lug count; slot counts, a history of at most 20, and an active lug in [0, lugs) are kept |
| `Session.Tuner.ClearReadings` | src/drumcraft-tuner.jsx:441-446 | the active set becomes all null, no lug is active, history and other keys are untouched, and the count is 0 |

## Left out

- `autoCorrelate` (src/drumcraft-tuner.jsx:254-289): a floating-point autocorrelation pitch estimator whose correctness is a matter of accuracy. `Tuner.Detect` takes its result as a parameter.
- Audio capture in `startListening`/`stopListening` (src/drumcraft-tuner.jsx:370-412): microphone, Web Audio analyser, animation-frame polling and the volume meter. Only the state each one writes to `currentFreq` is modelled: the 30–1000 Hz filter and rounding (392-393) and the reset at 408.
- Haptic feedback (src/drumcraft-tuner.jsx:429-434): a device side effect, with its own 3/10 Hz bands.
- Drum size selection (src/drumcraft-tuner.jsx:322, 695): it is not part of the reading key and affects no session state.
- Presentation: drum artwork, themes, accessibility toggles, deviation-bar geometry, the render tree, and the `toFixed(1)` text of the label. `Deviation.Label` carries the unformatted difference.
- The history timestamp (`time: new Date()`): a clock reading.
- The first render before the mount effects, when `currentLugReadings` falls back to `{}` and `targetFreq` is `null`. `Tuner.constructor` is the state after those effects.
- Floating-point rounding of sums, averages and differences: frequencies are exact reals.
- `Tuner.SetTarget`: the slider's default step of 1 Hz is not modelled; any value between the range's ends is accepted.
- `Tuner.SelectDrum`: it requires a drum from `DRUMS`, because the component only passes table entries; selecting a drum from outside the table is not modelled.
