# Japam tally, modelled in Dafny

Japam is a single-page counter for mantra repetitions ("jap"). Each tap on
the button raises a session count, a count for today, one for this week and
a lifetime total. Every time the session count reaches a multiple of 108 a
mala (a round of 108 beads) is complete: the lifetime, today's and this
week's mala counts rise together and a completion message appears. A reset
button clears the session count. A sound button switches the bell on and
off. On a new day the day counts restart; in a new week the week counts
restart. Everything is written through to the browser's `localStorage` and
read back when the page loads.

The model:

- `decimal.dfy`, module `Decimal`: the decimal text a counter is stored as
  (JavaScript's `String(n)` for a non-negative integer) and the value a digit
  string is read back as, with the round trip between them.
- `storage.dfy`, module `Storage`: `localStorage` as a class holding a
  `map<string, string>`, with `setItem` as a method and `getItem` as the
  function `Get` (None where JavaScript answers null).
- `tally.dfy`, module `Tally`: the state as a value (`TallyState`), each
  rule as a function of the state before (`Rolled`, `Counted`,
  `Incremented`, `Reset`, `Toggled`, `Saved`, `SoundSaved`, `Loaded`), and
  the page itself as the class `TallyApp`, whose fields are the script's ten
  state variables and whose methods update them in place and write the
  store one key at a time. Each method's postcondition ties its new state and
  its new store to those functions.
- `tally_props.dfy`, module `TallyProperties`: lemmas about several steps:
  idempotence of the rollover check, two sound presses cancelling, the save
  and reload round trip, runs of taps, and an invariant kept by every
  sequence of taps, resets, sound presses and reloads.

The wall clock enters as two parameters of the operations that read it:
`today`, the day's identifier text, and `week`, the week number. The
store is the `LocalStorage` object the page is constructed with.

The model follows the code on these points:

- The mala test is `count % 108 === 0` on the session count
  (script.js:144), not on the lifetime total. After a reset the next mala
  needs 108 more taps whatever the total is (`MalaFollowsSessionCount`).
- `lastResetWeek` is read back with `getItem`, so after a reload it is a
  string (script.js:25). The check compares it with the week number using
  `!==` (script.js:215), and a string never equals a number. So every
  reload zeroes the week counts, even within the same week (`ReloadZeroesWeek`).
  The model keeps the marker's two forms apart with the datatype `WeekMarker`.
- The session count is stored under `"japCount"`, the other counts under
  their own variable names. A save does not write `"soundEnabled"`; only the
  sound button does (script.js:174, 190-200).
- A tap saves twice: once at the end of the rollover check and once at
  its own end (script.js:129, 153). The model states both saves.

## Model

| member | source | states |
|---|---|---|
| Decimal.NatToString | script.js:191-197 | a stored counter's text is a non-empty digit string with no leading zero except for 0 itself, one character long exactly for values below 10 |
| Decimal.DecimalOfNatToString | script.js:16-22 | reading a stored counter's text as a decimal number gives back the counter |
| Decimal.NatToStringInjective | script.js:191-197 | distinct counter values are stored as distinct texts |
| Storage.GetAfterSet | script.js:16-25 | `getItem` (the function `Get`) answers null on an empty store, and after `setItem(k, v)` answers v for k and its earlier answer for every other key |
| Decimal.DecimalValue | script.js:16-22 | the value `parseInt` reads from a digit string; k digits denote less than 10^k |
| Storage.LocalStorage.SetItem | script.js:191-199 | `setItem` overwrites one key and leaves every other key as it was |
| Tally.MarkerText | script.js:199 | the week marker is stored as the decimal text of a week number, which reads back as that number, or as the text it already is |
| Tally.BoolText | script.js:174 | the sound switch is stored as "true" or "false", and reads back as on exactly when it was on |
| Tally.LoadCounter | script.js:16-22 | a missing or non-numeric stored count loads as 0, and a digit string loads as its decimal value |
| Tally.LoadCounterOfText | script.js:16-22 | the text a save stores for a count loads back as that count |
| Tally.TextOr | script.js:24 | a missing or empty day marker falls back to today, any other text is kept |
| Tally.Rolled | script.js:202-220 | a new day zeroes today's two counts, a new week (any marker other than the current week number) zeroes the week's two counts, independently; both markers end up current; session, total and lifetime mala counts and the sound switch are untouched |
| Tally.Counted | script.js:131-149 | the four counts rise by exactly one; the three mala counts rise by one together exactly when the new session count is a multiple of 108, and none of them moves otherwise |
| Tally.Incremented | script.js:127-149 | a tap raises session and total by one and leaves both markers current; on the same day and week it raises today's and the week's counts by one, and each mala count rises by one exactly when the tap completes a mala |
| Tally.Reset | script.js:165-166 | the session count becomes 0 and no other count, switch or marker changes |
| Tally.Toggled | script.js:171-172 | the sound switch flips and nothing else changes |
| Tally.Saved | script.js:190-200 | a save writes exactly the nine keys of the counts and markers and leaves every other key, the sound switch's included, as it was |
| Tally.SoundSaved | script.js:174 | the sound button writes its switch's text under "soundEnabled" and no other key |
| Tally.Loaded | script.js:16-25 | loading turns sound on unless "false" is stored, reads each of the seven missing counts as 0, falls back to the current day and week for missing markers and keeps a stored non-empty marker as text, so it never produces a week number other than the current one |
| Tally.TallyApp.constructor | script.js:16-33 | page load: the state is the rollover check applied to what the store held, and the store afterwards holds that state |
| Tally.TallyApp.SaveToStorage | script.js:190-200 | after the nine `setItem` calls the store is `Saved` of the previous store and the current state |
| Tally.TallyApp.CheckAndResetCounters | script.js:202-224 | the new state is `Rolled` of the old one, and the store holds it |
| Tally.TallyApp.RollPeriods | script.js:206-220 | the two period resets of the check leave `Rolled` of the old state, before anything is saved |
| Tally.TallyApp.CountTap | script.js:131-149 | the counting part of a tap leaves `Counted` of the old state and reports whether the new session count is a multiple of 108 |
| Tally.TallyApp.IncrementCount | script.js:127-163 | the new state is `Incremented` of the old one; the message is shown exactly when the lifetime mala count rises; the bell is asked for exactly when the sound is on |
| Tally.TallyApp.ResetCount | script.js:165-169 | the new state is `Reset` of the old one, and the store holds it |
| Tally.TallyApp.ToggleSound | script.js:171-175 | the new state is `Toggled` of the old one, and only the "soundEnabled" key is rewritten |
| TallyProperties.RolloverIdempotent | script.js:202-220 | a second rollover check with the same day and week changes nothing |
| TallyProperties.SavedIdempotent | script.js:190-200 | saving the state the store already holds leaves the store unchanged |
| TallyProperties.CheckTwiceIsCheckOnce | script.js:202-224 | the rollover check run twice with the same clock leaves the same state and the same store as one run |
| TallyProperties.ToggleTwice | script.js:171-175 | two presses of the sound button restore the switch, and the store then holds its original value's text |
| TallyProperties.SavedEntries | script.js:190-200 | after a save, each of the nine keys holds the text of its count or marker |
| TallyProperties.NineWrites | script.js:191-199 | after the nine `setItem` calls of a save, whatever the texts, each key holds the text written to it last |
| TallyProperties.NineWritesTwice | script.js:191-199 | the nine `setItem` calls of a save repeated with the same texts leave the store as one round does |
| TallyProperties.ReloadAfterSave | script.js:16-25 | reloading a saved state gives back all seven counts, a non-empty day marker and the stored sound switch; a numeric week marker comes back as its text instead |
| TallyProperties.ReloadAfterToggle | script.js:23 | once the sound button has written the switch, a reload gives it back |
| TallyProperties.FirstLaunch | script.js:16-25 | with nothing stored, the page starts from all counts 0, sound on, today's day and this week's number |
| TallyProperties.ReloadZeroesWeek | script.js:25-33 | a reload on the same day and in the same week keeps the day counts but zeroes both week counts, because the reloaded marker is text |
| TallyProperties.MalaStep | script.js:144 | one more tap moves the number of completed multiples of 108 on by one exactly when the new session count is a multiple of 108 |
| TallyProperties.RepeatedTaps | script.js:127-149 | n taps in one day and week raise the four counts by n, and the three mala counts by the number of multiples of 108 the session count passes |
| TallyProperties.OneMalaIn108Taps | script.js:144-149 | from a fresh session, 108 taps give session and lifetime counts of 108 and exactly one mala in each of the three mala counts |
| TallyProperties.CompletionOnlyOn108thTap | script.js:144-148 | of the first 108 taps of a fresh session, the 108th shows the completion message and no earlier one does |
| TallyProperties.MalaFollowsSessionCount | script.js:144-166 | after 50 taps and a reset, the next mala comes 108 taps later, at a lifetime total of 158 |
| TallyProperties.Launch | script.js:16-33 | a page load leaves both markers current, the session, total and lifetime mala counts as the store held them, the sound switch as stored, and the store holding the nine saved keys besides its old ones with the sound key untouched |
| TallyProperties.Step | script.js:127-175 | a tap raises the total by one and the lifetime mala count by one exactly when it completes a mala; a reset zeroes the session count and keeps the total; the sound button flips the switch and stores its text; every other action leaves the sound key alone, and only a reload can lower the lifetime mala count |
| TallyProperties.Run | script.js:33-41 | over any sequence of actions without a sound press the stored sound key is unchanged, and without a reload the total and lifetime mala count never fall |
| TallyProperties.SavedSynced | script.js:190-200 | after a save, reading the store back gives every count of the state, and the sound switch still agrees |
| TallyProperties.LaunchSynced | script.js:16-33 | after any page load, reading the store back gives the page's counts and sound switch |
| TallyProperties.FirstLaunchConsistent | script.js:16-33 | the first launch starts from a state that satisfies the tally invariant and agrees with the store |
| TallyProperties.TapConsistent | script.js:131-147 | a tap keeps the invariant: period mala counts at most the lifetime one, no count above the total, and 108 lifetime taps behind each lifetime mala together with the session's partial round |
| TallyProperties.TapKeepsInvariant | script.js:127-153 | a tap keeps the invariant and the store in step, through both of its saves |
| TallyProperties.ReloadKeepsInvariant | script.js:16-33 | a reload from a store in step reads back exactly the page's counts, and the reloaded page keeps the invariant and the store in step |
| TallyProperties.StepKeepsInvariant | script.js:127-175 | a tap, reset, sound press or reload keeps the invariant and the store in step, and never lowers the total or the lifetime mala count |
| TallyProperties.RunKeepsInvariant | script.js:127-175 | any sequence of taps, resets, sound presses and reloads keeps the invariant and the store in step, and the total and lifetime mala count only grow |

## Left out

- Rendering (`updateDisplay`, `updateStats`, `updateSoundButton`), the DOM lookups and the `setTimeout` animations and message removal: screen effects with no state. The completion message is modelled only as the flag `IncrementCount` returns.
- Audio (`initializeAudio`, `playBellSound`): floating-point sample generation and Web Audio calls.
- Tally.TallyApp.IncrementCount: `chime` models only the sound-switch guard of `playBellSound`; whether an audio context and buffer exist is not modelled, because they come from the browser.
- The install prompt (script.js:43-61): asynchronous browser events, independent of the counts.
- `getTodayDateString` and `getCurrentWeek`: they read the ambient `Date`, and the week formula divides millisecond differences, so it depends on floating point and daylight saving. The day text and the week number are parameters instead. The script reads the clock separately at load (lines 24-25) and in the check (lines 203-204); the constructor uses one reading for both.
- Tally.LoadCounter: models `parseInt` only on digit strings. JavaScript would also read leading whitespace, a sign and a numeric prefix such as "12abc"; such texts load as 0 here. The page itself only ever stores digit strings.
- JavaScript numbers are doubles: counts above 2^53 lose precision and `String(n)` switches to exponent notation from 10^21. The model's counts are unbounded naturals.
- A `localStorage` that throws (unavailable or over quota): the script has no handler for it, and the model's store never fails.
