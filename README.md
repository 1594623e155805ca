# Fret memorization exercise: note classifier and game logic in Dafny

This project models the core of a browser ear-training exercise for guitar.
The page asks for a note, listens to the microphone, and checks whether the
note played matches the target.

Two parts are modelled:

- `PitchUtils` (`pitch_utils.dfy`) models `src/lib/pitchUtils.ts`. It holds the
  constant table of 17 rows, each a note name with its reference frequencies,
  one per octave. It also holds the classifier `GetNoteFromFrequency`. For each
  row, `MinDiff` gives the distance from the input to the row's nearest
  reference frequency. A left reduce (`Closest`) keeps the earlier row unless
  the next row is strictly nearer. Frequencies are exact `real`s. Every table
  constant is a two-decimal literal, and the code only subtracts, takes
  absolute values and compares.
- `FretExercise` (`fret_exercise.dfy`) models the game logic of
  `src/app/fret-memorization-exercise/page.tsx`:
  - the note pools `NOTES`, `SHARPS` and `FLATS`, and the pool chosen from
    the preferences;
  - the `do…while` retry pick that never repeats the previous target;
  - the class `NoteTrainer`, whose fields are the page's state (round,
    finished, playing, target, detected note, history). Its methods are
    `StartGame`, `PickNewNote` and `OnDetected`. `OnDetected` runs the match,
    advance and finish branch of `detectNote`.

What is proved:

- The classifier returns the label of the earliest row whose nearest
  reference frequency is closest to the input (argmin, and ties go to the
  earlier row).
- It never returns a flat spelling. Each flat row repeats the list of the
  sharp row just above it, and the earlier row wins the tie.
- Any input less than 2.45 Hz from a reference frequency resolves to that
  frequency's class, in its natural or sharp spelling. This covers exact
  hits, 110.0, 82.41, 440.0, 92.5 (giving "F#") and 441.0.
- The proof of this rests on the table's structure. Rows ascend by at least
  4.9 Hz within each octave. The octaves lie in separated bands. So two
  reference frequencies closer than 4.9 Hz always belong to the same class.
- Inputs at or below 82.41 Hz, or at or above 659.25 Hz, give "E".
- Put together with the game, a pool entry can be matched by some frequency
  exactly when it is not a flat. With in-betweens on and sharps off, the pool
  has five flats. A round whose target is one of them can never be completed:
  `OnDetected` leaves the round and the history unchanged.

Two facts about the code shape these results:

- The classifier takes no spelling preference. `getNoteFromFrequency` takes
  only the frequency (src/lib/pitchUtils.ts:21), and the page passes only the
  frequency (page.tsx:102). So the classifier always answers with naturals or
  sharps. For 92.5 Hz it answers "F#", never "Gb".
- Ties go to the earliest row. The reduce compares with a strict `<`
  (src/lib/pitchUtils.ts:26), so a later row wins only when it is strictly
  nearer.

## Model

| member | source | states |
|---|---|---|
| `PitchUtils.Abs` | src/lib/pitchUtils.ts:23 | `Math.abs`: the result is non-negative and equals the argument or its negation |
| `PitchUtils.MinDiff` | src/lib/pitchUtils.ts:22-24 | `minDiff` of a row is a non-negative distance; its partner `MinDiffIsNearest` shows it is the nearest entry's distance |
| `PitchUtils.MinDiffIsNearest` | src/lib/pitchUtils.ts:22-24 | `minDiff` is the distance to some entry of the row's list, and no entry is nearer |
| `PitchUtils.Closest` | src/lib/pitchUtils.ts:26 | the reduce keeps a row whose distance is no greater than any row's, and every earlier row is strictly farther (earliest argmin) |
| `PitchUtils.ClosestSkipsRepeats` | src/lib/pitchUtils.ts:26 | the kept row never repeats the list of the row just above it, because a tie keeps the earlier row |
| `PitchUtils.GetNoteFromFrequency` | src/lib/pitchUtils.ts:21-28 | the result is the label of a table row whose nearest reference frequency is no farther from the input than any other row's, and is never a flat spelling |
| `PitchUtils.Canonical` | src/lib/pitchUtils.ts:1-19 | the row itself, or the row just above it when it repeats that row's list: at or above it and carrying the same list |
| `PitchUtils.TableShape` | src/lib/pitchUtils.ts:1-19 | the constant table `NoteFreqs` has 17 rows, none empty; E has four octaves and every other row three |
| `PitchUtils.TableSpellings` | src/lib/pitchUtils.ts:1-19 | in `NoteFreqs`, a row repeats the list of the row above exactly when it is spelled with a flat; the row above a flat is a sharp; the first row is not a flat |
| `PitchUtils.TableAscends` | src/lib/pitchUtils.ts:1-19 | each row repeats the row above, or lies at least 4.9 Hz above it in every octave |
| `PitchUtils.TableBands` | src/lib/pitchUtils.ts:1-19 | entry p of every row lies in octave band p (E2..D#3, E3..D#4, E4..D#5, E5) |
| `PitchUtils.BandsSeparated` | src/lib/pitchUtils.ts:1-19 | octave bands are ordered and at least 4.9 Hz apart |
| `PitchUtils.TableSeparable` | src/lib/pitchUtils.ts:1-19 | the constant table meets every hypothesis of the separation argument |
| `PitchUtils.OctaveAscends` | src/lib/pitchUtils.ts:1-19 | within one octave, entries never decrease down a separable table, and rows of different classes are at least 4.9 Hz apart |
| `PitchUtils.FrequenciesSeparated` | src/lib/pitchUtils.ts:1-19 | two reference frequencies closer than 4.9 Hz belong to rows of the same class |
| `PitchUtils.ClosestNearReference` | src/lib/pitchUtils.ts:26 | in a separable table, an input less than 2.45 Hz from a reference frequency keeps the earliest row of that frequency's class |
| `PitchUtils.ClosestBelowRange` | src/lib/pitchUtils.ts:26 | in a separable table, an input at or below the first row's first entry keeps the first row |
| `PitchUtils.ClosestAboveRange` | src/lib/pitchUtils.ts:26 | in a separable table whose first row alone has a fourth octave, an input at or above that entry keeps the first row |
| `PitchUtils.NearReference` | src/lib/pitchUtils.ts:21-28 | an input less than 2.45 Hz from a reference frequency returns the natural or sharp name of that frequency's class |
| `PitchUtils.ExactHit` | src/lib/pitchUtils.ts:21-28 | every reference frequency returns the natural or sharp name of its own row's class |
| `PitchUtils.RowReached` | src/lib/pitchUtils.ts:21-28 | every row not spelled with a flat is returned for its lowest reference frequency |
| `PitchUtils.ScenarioA2` | src/lib/pitchUtils.ts:9 | 110.0 Hz returns "A" |
| `PitchUtils.ScenarioE2` | src/lib/pitchUtils.ts:2 | 82.41 Hz returns "E" |
| `PitchUtils.ScenarioA4` | src/lib/pitchUtils.ts:9 | 440.0 Hz returns "A" |
| `PitchUtils.ScenarioFSharp2` | src/lib/pitchUtils.ts:4-5 | 92.5 Hz returns "F#", not "Gb" |
| `PitchUtils.DetunedScenario` | src/lib/pitchUtils.ts:9 | 441.0 Hz, slightly detuned, returns "A" |
| `PitchUtils.BelowRangeIsE` | src/lib/pitchUtils.ts:2 | every input at or below 82.41 Hz returns "E" |
| `PitchUtils.AboveRangeIsE` | src/lib/pitchUtils.ts:2 | every input at or above 659.25 Hz returns "E" |
| `FretExercise.NotePool` | src/app/fret-memorization-exercise/page.tsx:74-78 | every pool starts with the seven naturals; its partner `PoolContents` states its size, distinctness and spellings |
| `FretExercise.PoolContents` | src/app/fret-memorization-exercise/page.tsx:74-78 | the pool is distinct and starts with the seven naturals; it has 7 names without in-betweens, or 12 with them, whose last five are all sharps or all flats as chosen |
| `FretExercise.NaturalsAlwaysInPool` | src/app/fret-memorization-exercise/page.tsx:74-78 | every natural A..G is in every pool |
| `FretExercise.DrawIndex` | src/app/fret-memorization-exercise/page.tsx:80 | `Math.floor(r * n)` for r in [0, 1) is a valid index below n, and it is the floor of r·n |
| `FretExercise.PickAt` | src/app/fret-memorization-exercise/page.tsx:80 | the note picked by a draw is in the pool; the index is `DrawIndex` of the draw |
| `FretExercise.ChooseNote` | src/app/fret-memorization-exercise/page.tsx:73-81 | the retry loop returns the pool note of the first draw whose note differs from the previous target; the result is in the pool and differs from it |
| `FretExercise.PickAlwaysPossible` | src/app/fret-memorization-exercise/page.tsx:73-81 | every pool holds a note different from any previous target |
| `FretExercise.DrawsExist` | src/app/fret-memorization-exercise/page.tsx:73-81 | for every pool and previous target, a sequence of draws exists that the retry loop accepts: one draw selecting a different note |
| `FretExercise.FlatTargetNeverMatches` | src/app/fret-memorization-exercise/page.tsx:105 | no detected frequency ever equals a flat target |
| `FretExercise.TargetMatchable` | src/app/fret-memorization-exercise/page.tsx:102-105 | a pool entry is returned by the classifier for some frequency exactly when it is not a flat |
| `FretExercise.FlatPoolHasUnmatchableTargets` | src/app/fret-memorization-exercise/page.tsx:78 | with in-betweens on and sharps off, no frequency matches any of the pool's five accidentals |
| `FretExercise.NoteTrainer.constructor` | src/app/fret-memorization-exercise/page.tsx:13-22 | the initial state: not playing, round 0, not finished, no target, no detected note, empty history |
| `FretExercise.NoteTrainer.PickNewNote` | src/app/fret-memorization-exercise/page.tsx:70-85 | sets the target to the first drawn pool note different from the previous one |
| `FretExercise.NoteTrainer.StartGame` | src/app/fret-memorization-exercise/page.tsx:62-68 | empties the history, sets round 1, clears finished, sets the target from the first draw, sets playing, and keeps the state invariant |
| `FretExercise.NoteTrainer.Matches` | src/app/fret-memorization-exercise/page.tsx:91-105 | a reading matches only when a target is set, and a matched target is never a flat; in `OnDetected` the round, history and target change only on a match |
| `FretExercise.NoteTrainer.OnDetected` | src/app/fret-memorization-exercise/page.tsx:87-121 | no change without a target, after the finish, or on a zero reading; otherwise records the detected note; on a match appends exactly the target to the history, then either advances the round with a new, different target or, after round 20, finishes with no target; a flat target never advances; the round stays in 1..20 while playing |

## Left out

- Audio capture and pitch analysis (`getUserMedia`, `AudioContext`, `AnalyserNode`, the `pitchy` detector, page.tsx:40-60, 88-96) are browser and library calls. The detected frequency is an input to `OnDetected`, and the null checks on the audio objects are not modelled.
- The clarity threshold (`clarity > 0.9`, page.tsx:101) is a score from the external detector. A reading passed to `OnDetected` is taken as already accepted. The model keeps only the `freq` truthiness test, as `x != 0`.
- `Math.random` (page.tsx:80) becomes a caller-supplied sequence of draws in [0, 1). The retry loop terminates only with probability one in the source. The model requires a draw that selects a different note. `PickAlwaysPossible` shows that a different note exists, and `DrawsExist` shows that draws selecting it exist.
- The 3-second countdown and the 100 ms polling interval (page.tsx:127-148) are timers. The countdown's callback runs at once inside `OnDetected`, and the polling is one `OnDetected` call per reading.
- Elapsed times, `performance.now`, `toFixed`/`parseFloat` rounding and `averageTime` (page.tsx:84, 106-108, 150-153) are timing and float formatting. The history records only the target note of each completed round.
- React rendering, batched state updates and stale closures (page.tsx:155-281) are not modelled. Each method applies its updates in order to the object's fields.
- `setUserPreferences` (page.tsx:24) is declared but never called on this page, so the preferences stay at their defaults (naturals only). The model takes the preferences as a constructor argument so that the in-between pools can be studied.
- `PitchUtils.MinDiff`: in JavaScript, `Math.min` of an empty list is `Infinity`. The model requires a non-empty list. Every row of the table is non-empty (`TableShape`).
- `PitchUtils.GetNoteFromFrequency`: frequencies are exact reals, not IEEE doubles. The double nearest to a two-decimal constant is not that exact value, so inputs within rounding error of a tie between rows may differ from the browser's result.
- Determinism and freedom from side effects of the classifier hold by construction: it is a Dafny function over a constant table.
