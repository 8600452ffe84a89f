# Time tracker: timer engine and session store

A Dafny model of the two pieces of logic in the Chrome time-tracker extension.

- **The background timer** (`background.js`). It is a singleton with two states, stopped and running. Its fields are `isRunning`, `startTime` and `elapsedSeconds`. `start`, `stop` and `reset` change those fields. `getCurrentTime` reads them. While running, `updateBadge` shows a one-unit label such as "5m". A message listener maps the popup's commands `start`, `stop`, `reset` and `getTime` onto these operations.
- **The popup** (`popup.js`). It keeps the running total `totalTime` and the list of the five most recent sessions, newest first, in extension storage. It formats durations as compact text such as "1h 2m 5s". Its start, stop, reset and delete flows talk to the background timer and to storage.

Modules:

- `Wrappers` holds `Option`. It stands for `null`, for a storage key that is missing and for a message that gets no reply.
- `TimeText` holds what both files share. That is the hour, minute and second fields under JavaScript's `Math.floor` and `%`, decimal digits, and one-unit parts such as "12m". It also holds a reader for such text. The writers are proved against that reader.
- `Background` holds the `Timer` class, the badge label and `HandleMessage`, the command switch.
- `Popup` holds `FormatCompactTime`, the `SessionStore` class and the popup's flows. It also has two whole-session runs proved end to end.

The wall clock (`Date.now()`, `new Date()`) is a parameter `now` in milliseconds. `chrome.storage.local` is an in-memory `SessionStore` object.

### Behaviour worth knowing

- `stop` answers the *accumulated* `elapsedSeconds`, the seconds of every run since the last reset (background.js:20). The popup adds that answer to the total and also records it as the new session's duration (popup.js:65,74). So a second run without a reset counts the first run again. `Popup.TwoSessions` proves the outcome for runs of 60 s and 40 s: the stops answer 60 and 100, the total is 160 and the durations are [100, 60].
- `stop` leaves `startTime` set (background.js:15-23); only `reset` clears it. The timer invariant is therefore one-way: a running timer has a start time.
- The popup's reset clears the stored total and records as well as resetting the timer (popup.js:80-84). `Popup.ResetTimer` does both.
- A negative total, which `deleteRecord` can leave behind (popup.js:214), shows as "0s": under JavaScript's `Math.floor` and `%` no part is pushed, so the `|| '0s'` fallback applies (popup.js:125).

## Model

| member | source | states |
|---|---|---|
| `TimeText.JsRem` | popup.js:117-118 | JavaScript's `%` with a positive divisor: a = q·b + r for some whole q, with r of the dividend's sign and smaller than b in size, which fixes r (so −7 % 3 is −1) |
| `TimeText.Hours` | popup.js:116 | the hour field is non-negative exactly for a non-negative count, and positive exactly from 3600 seconds up |
| `TimeText.Minutes` | popup.js:117 | for a non-negative count the minute field lies in 0..59, and under an hour it is the whole minutes; for a negative count it is never positive |
| `TimeText.Secs` | popup.js:118 | for a non-negative count the second field lies in 0..59; for a negative count it is never positive |
| `TimeText.Decompose` | popup.js:116-118 | hours·3600 + minutes·60 + seconds equals the non-negative count it was taken from |
| `TimeText.Digits` | popup.js:121-123 | a whole number becomes a non-empty run of decimal digits with no leading zero |
| `TimeText.DigitsRoundTrip` | popup.js:121-123 | the digits denote the number they were made from |
| `TimeText.Render` | background.js:46-48 | a part is a run of digits followed by its unit letter, with no space |
| `TimeText.PartRoundTrip` | background.js:46-48 | a rendered part reads back as the same amount and unit |
| `TimeText.UnitLetterInRender` | popup.js:121-123 | a rendered part contains a unit letter exactly when that letter is its own unit's |
| `TimeText.RenderAll` | popup.js:120-123 | rendering a list of parts keeps its length and renders each part in place |
| `TimeText.ParseRenderAll` | popup.js:120-123 | a list of rendered parts reads back as the same parts |
| `TimeText.SplitJoin` | popup.js:125 | splitting the space-joined parts at spaces gives back the parts |
| `TimeText.InJoin` | popup.js:125 | a character other than the separator occurs in the joined text exactly when it occurs in one of the pieces |
| `TimeText.UnitLetterInJoin` | popup.js:125 | a unit letter shows in the joined text exactly when a part of that unit was pushed |
| `Background.RunSeconds` | background.js:17 | the number of whole seconds in the run: r·1000 ≤ now − start < (r+1)·1000 |
| `Background.RunSecondsMonotone` | background.js:34 | a later clock reading never gives fewer whole seconds |
| `Background.BadgePart` | background.js:40-48 | the badge shows one unit: hours from 3600 s up, else minutes from 60 s up, else seconds; the amount is the count divided by that unit, rounded down |
| `Background.BadgeText` | background.js:45-48 | the badge text reads back as exactly one part, the one `BadgePart` picks, so 0 shows as "0s" |
| `Background.Timer.constructor` | background.js:1-5 | the timer starts stopped, with no start time and zero seconds, and its invariant holds |
| `Background.Timer.CurrentTime` | background.js:32-35 | stopped: the accumulated seconds; running: the accumulated seconds plus the whole seconds since the start; with a clock no earlier than the start it is at least the accumulated seconds, which are non-negative |
| `Background.Timer.CurrentTimeMonotone` | background.js:32-35 | while running, the reading never goes down as the clock advances |
| `Background.Timer.BadgeLabel` | background.js:37-50 | `updateBadge` produces a label exactly when running, and the label reads back as the one unit `BadgePart` picks for the current reading |
| `Background.Timer.Start` | background.js:7-13 | from stopped: running with start time `now` and the seconds unchanged; from running: no field changes; the invariant is kept |
| `Background.Timer.Stop` | background.js:15-23 | from running: adds the whole seconds of the run, stops, keeps `startTime` and answers the new accumulated total; from stopped: answers 0 and changes nothing; either way `getCurrentTime` at the same instant is unchanged and the invariant is kept |
| `Background.Timer.Reset` | background.js:25-30 | from any state: stopped, no start time, zero seconds |
| `Background.HandleMessage` | background.js:59-78 | `start` and `reset` act and answer nothing; `stop` answers `{elapsed}` with what `stop` returned; `getTime` answers the current reading and the running flag and changes nothing; any other action changes nothing and answers nothing |
| `Popup.FormatCompactTime` | popup.js:115-126 | the text is never empty, and every count of zero or less shows as "0s" |
| `Popup.CompactPartsShape` | popup.js:115-125 | a negative count pushes no part; any other count pushes one to three parts whose values add up to it; 0 pushes just "0s" |
| `Popup.FormatIsJoin` | popup.js:125 | for a non-negative count the `|| '0s'` fallback is never taken |
| `Popup.FormatRoundTrip` | popup.js:115-126 | the compact text reads back as the count it was made from, and a negative count reads back as 0 |
| `Popup.CompactUnits` | popup.js:120-123 | for a non-negative count: an hour part iff ≥ 3600 s, a minute part iff ≥ 60 s, a second part iff under a minute or not a whole number of minutes |
| `Popup.FormatShowsUnits` | popup.js:121-125 | the text contains "h" iff the count is ≥ 3600, "m" iff ≥ 60 (so 3600 shows as "1h 0m"), and "s" iff it is under 60 or not a whole number of minutes |
| `Popup.ClockHour` | popup.js:136-139 | the 12-hour clock gives 1..12 and PM exactly from hour 12 up, and the 24-hour value can be recovered from them |
| `Popup.PadMinutes` | popup.js:140 | the padded minutes are two digits that denote the minute |
| `Popup.FindIndex` | popup.js:211 | −1 exactly when no record has the timestamp; otherwise the position of the first record that has it |
| `Popup.SumWithout` | popup.js:213-216 | removing one record removes exactly its duration from the summed durations |
| `Popup.SessionStore.Load` | popup.js:207-209 | a missing `records` key means no records, and a missing `totalTime` key means a total of 0 |
| `Popup.SessionStore.AddRecord` | popup.js:149-169 | the new record `{date: now, duration, timestamp: now}` comes first, then the earlier records in order; only when five or more were stored is the last (oldest) one dropped, so at most five stay at most five; the total is untouched; newest-first order is kept when `now` is the latest time |
| `Popup.SessionStore.DeleteRecord` | popup.js:206-227 | an unknown timestamp changes nothing; otherwise only the first matching record is removed, the others keep their order, and the total drops by exactly its duration; consistency of total and records is kept |
| `Popup.SessionStore.SaveTime` | popup.js:145-147 | writes the total and nothing else |
| `Popup.SessionStore.Clear` | popup.js:84 | total 0, no records, and total and records consistent again |
| `Popup.StartTimer` | popup.js:55-61 | the timer is running afterwards; if it was stopped it starts at `now` with its seconds unchanged |
| `Popup.StopTimer` | popup.js:63-77 | returns the value the background answers (its whole reading at the stop, or 0 if it was stopped); the total grows by that value, and a record of that same value stamped `now` is put first |
| `Popup.ResetTimer` | popup.js:79-93 | the timer is back to stopped with zero seconds and no start time, and the store holds total 0 and no records |
| `Popup.OneSession` | popup.js:63-76 | start at 0 ms and stop at 125 000 ms: the stop answers 125, the total is 125 and the record list is exactly [125] |
| `Popup.TwoSessions` | background.js:15-21 | runs of 60 s and 40 s without a reset: the stops answer 60 and 100, the total is 160 and the record list is exactly [100, 60] |

`SessionStore.Consistent()` says the total equals the summed durations of the listed records plus those pushed out by the cap since the last reset. `Clear` establishes it. `AddRecord` together with the total update in `StopTimer` keeps it, and so does `DeleteRecord`. `Timer.Valid()` says a running timer has a start time and the accumulated seconds are non-negative. Every timer operation keeps it.

## Left out

- DOM and presentation are not modelled. That covers `renderRecords`, the button text, icon and class, `innerHTML`, and the click listeners (popup.js:7-14, 42-53, 171-204). The popup chooses stop or start by the button's `is-running` class; the model calls the flows directly.
- The Chrome APIs are not modelled: `setBadgeText`, `setBadgeBackgroundColor`, the asynchronous `sendMessage` and `storage` callbacks, and the `alarms` keep-alive (background.js:80-82). They are foreign calls with no logic of their own.
- Periodic scheduling is not modelled. That covers the popup's 200 ms `getTime` polling (popup.js:95-109) and the one-second `setTimeout` self-rescheduling of `updateBadge` (background.js:54). The label computation and the `isRunning` guard are kept.
- `formatDate` needs the JavaScript `Date` object and the local time zone. Only its 12-hour conversion and minute padding are modelled.
- The unused `lastUpdateTime` field (background.js:5) is not modelled.
- Two open popups racing on storage are not modelled; each operation is one atomic step.
- The popup's closure variable `elapsedTime` is taken to be equal to the stored `totalTime`. Storage defaults are applied once, when `SessionStore.Load` runs. The source applies them on every read, which gives the same values because keys are never removed.
- JavaScript numbers are doubles. The model uses unbounded integers, which agree with doubles for every duration and timestamp below 2^53.
- Background.Timer.Stop: requires a clock reading no earlier than the recorded start time. A clock that runs backwards, which would make `elapsedSeconds` negative, is not modelled.
- Background.HandleMessage: requires the same clock condition for the `stop` command.
- Popup.StopTimer: requires the same clock condition, because it sends `stop`.
