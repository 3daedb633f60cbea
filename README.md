# Pet feeder dashboard — a Dafny model of its state logic

The pet feeder dashboard is a React front end for an IoT pet feeder. This
project models the state that its four central screens keep and the
handlers that change that state:

- **Control** (`src/pages/Control.tsx`). The feeding schedules, with add,
  delete, enable/disable and weekday toggles. The portion catalog. The
  flags of the manual feed and the emergency stop.
- **Settings** (`src/pages/Settings.tsx`). The pet list, with add, delete
  and field-by-field update. The pet editor toggle. The notification,
  network and system switches. The import and export of a settings
  document. The reset button.
- **CameraView** (`src/components/CameraView.tsx`). The stream, recorder,
  fullscreen, mute and error flags. The recording timer and its `MM:SS`
  clock.
- **Monitor** (`src/pages/Monitor.tsx`). The 24-reading telemetry window:
  how it is generated, how it rolls every 30 seconds, and the current
  readings. The "today" summary, the unread badge, the trend arrows and
  the level bars.

Files:

| file | module | content |
|---|---|---|
| `wrappers.dfy` | `Wrappers` | `Option`: a key that may be absent or a value that may not be shown |
| `decimal.dfy` | `Decimal` | JavaScript's integer `toString` and `padStart(2, "0")`, read back by `ParseNat` |
| `keyed.dfy` | `Keyed` | the keyed `filter` and `map` that both the schedule list and the pet list use |
| `days.dfy` | `Days` | a schedule's weekday list: the default `sort()` (text order) and the toggle rule |
| `control.dfy` | `Control` | schedules, the portion catalog, and class `ControlPanel` |
| `settings.dfy` | `Settings` | pets, switches, import/export, all as functions on a `SettingsPage` value |
| `camera.dfy` | `Camera` | `FormatTime`, and class `CameraView` with the viewer's flags |
| `monitor.dfy` | `Monitor` | readings, `GenerateData`, `RollWindow`, class `MonitorPanel`, and the summaries |

## How the source is represented

- **React state.** A page whose handlers update several pieces of state
  is a class: `ControlPanel`, `CameraView` and `MonitorPanel`. Each
  handler is a method that replaces the fields the source's setters
  replace. The settings page is a value (`SettingsPage`), and each handler
  is a function from the old page to the new one. The list operations
  (`ScheduleAdded`, `Keyed.Without`, …) are functions. Deleting and
  rewriting records by id is one generic filter and one generic map over
  any record type, keyed by the record's id. The methods that
  change the lists are stated in terms of them.
- **Outside inputs become parameters.**
  - Each `Math.random()` is a parameter. A `Draw` holds the four draws
    one reading uses.
  - Each time label (`toLocaleTimeString`) is a parameter: `hoursAgo`,
    `stamp`.
  - Each outcome of a browser call is a parameter: `StartOutcome` for
    `getUserMedia`/`play()`, `created`/`started` for `MediaRecorder`,
    `size` for a recorded chunk, `confirmed` for `window.confirm`.
  - The file reader's result is an `ImportInput`.
- **JavaScript numbers.** Integers are unbounded. Readings and the
  feeding progress are exact `real`s.
- **Default sort.** `days.sort()` without a comparator compares the
  decimal texts of the numbers by character code. `TextLe`/`DayLe` model
  that order; the insertion sort `SortBy` and its lemmas hold for any
  total order and are applied to `DayLe`. For single digits it agrees with numeric order
  (`DigitDayOrder`). Between `10` and `9`, or `-1` and `-2`, which `toggleDay`
  accepts because nothing checks the range, it does not: `"10"` sorts
  before `"9"` and `"-1"` before `"-2"`.
- **Object spread.** `{ ...p, ...updates }` with a `Partial<Pet>` is
  `Merged` over a `PetUpdate` whose fields are `Option`s. `None` is a key
  that is absent.

### Where the code and its description disagree (the model follows the code)

- **Ids are not unique.** New schedules and new pets get
  `(length + 1).toString()`. After a deletion, the next addition can reuse
  an id that is still in the list. `DeleteThenAddDuplicatesId` proves this
  in general. `InitialIdsCollide` shows it on the page's own schedules:
  delete "2", then add, and the list holds two records with id "4". A
  later delete of "4" removes both.
- **No input validation.** No code checks a schedule time's `HH:MM`
  shape or a day's range. `toggleDay` adds whatever integer it is given.
  No scheduler runs the schedules.
- **Every pet edit closes the editor.** Each edit field calls
  `updatePet`, which also closes the editor, so each keystroke closes it.
- **Reset changes nothing.** The reset button only asks for confirmation
  and logs.
- **A falsy section is skipped.** An imported section that is falsy is
  skipped exactly like a missing one.

## Model

| member | source | states |
|---|---|---|
| Decimal.DigitChar | src/pages/Control.tsx:114 | the character of a digit is a digit character whose code, less that of '0', is the digit |
| Decimal.NatToString | src/pages/Control.tsx:114 | the decimal text of a non-negative number is all digits and non-empty; it has one character iff the number is below 10 and at most two below 100; it has no leading zero |
| Decimal.IntToString | src/pages/Control.tsx:151 | an integer's text is its decimal numeral: a non-negative integer gives digits that read back as it with no leading zero; a negative one gives '-' followed by such digits for its magnitude |
| Decimal.ParseNatToString | src/pages/Control.tsx:114 | reading a number's decimal text back gives the number |
| Decimal.NatToStringInjective | src/pages/Control.tsx:114 | distinct numbers get distinct ids |
| Decimal.IntToStringInjective | src/pages/Control.tsx:151 | distinct integers have distinct texts, so the text order decides between any two distinct days |
| Decimal.PadStart2 | src/components/CameraView.tsx:209-210 | padding gives at least two characters, keeps the text as a suffix and puts only zeros in front |
| Decimal.ParseNatLeadingZero | src/components/CameraView.tsx:209-210 | a leading zero does not change the value read back |
| Decimal.ParseNatPadStart2 | src/components/CameraView.tsx:209-210 | padding keeps the text all digits and keeps its value |
| Decimal.PaddedNat | src/components/CameraView.tsx:209-210 | a padded number has at least two digits, exactly two below 100, and reads back as the number |
| Days.TextLe | src/pages/Control.tsx:151 | a text sorts before any longer text it is a prefix of, and never after its own prefix |
| Days.TextLeIsLexicographic | src/pages/Control.tsx:151 | the character-by-character comparison is exactly the lexicographic order: a prefix, or the smaller character at the first difference |
| Days.TextLeTotal | src/pages/Control.tsx:151 | any two strings are comparable in the default sort's order |
| Days.TextLeTransitive | src/pages/Control.tsx:151 | the default sort's string order is transitive |
| Days.TextLeAntisymmetric | src/pages/Control.tsx:151 | two strings each before the other are equal |
| Days.DayLe | src/pages/Control.tsx:151 | a negative day always sorts before a non-negative one, since '-' comes before every digit |
| Days.DayLeTotal | src/pages/Control.tsx:151 | any two days are comparable in the sort's order |
| Days.DayLeTransitive | src/pages/Control.tsx:151 | the sort's order on days is transitive |
| Days.DayLeAntisymmetric | src/pages/Control.tsx:151 | two days each before the other are the same number: the order is total on integers |
| Days.DigitDayOrder | src/pages/Control.tsx:151 | on 0..9 the text order is exactly numeric order |
| Days.DayLeTotalOrder | src/pages/Control.tsx:151 | the default sort's order on days is total, transitive and antisymmetric |
| Days.InsertBy | src/pages/Control.tsx:151 | inserting into a list sorted by a total order keeps it sorted and adds exactly that element to its multiset |
| Days.SortBy | src/pages/Control.tsx:151 | sorting by a total order yields a sorted permutation of the input |
| Days.SortDays | src/pages/Control.tsx:151 | the default sort yields a permutation of the days in text order |
| Days.SortedHeadIsLeast | src/pages/Control.tsx:151 | the first element of a sorted list comes before every element in it |
| Days.SortedUnique | src/pages/Control.tsx:151 | two lists sorted by a total order with the same multiset are equal, so the sort's result does not depend on the algorithm |
| Days.RemoveDay | src/pages/Control.tsx:149-150 | the filter removes every occurrence of the day and nothing else (same multiset with that day's count at zero), and is a no-op when the day is absent |
| Days.RemoveDayConcat | src/pages/Control.tsx:149-150 | the remaining days keep their relative order: the filter of a joined list is the join of the filters |
| Days.RemoveDaySorted | src/pages/Control.tsx:149-150 | filtering a list sorted by any order leaves it sorted |
| Days.ToggleDays | src/pages/Control.tsx:149-151 | the clicked day is present afterwards iff it was absent; every other day keeps its membership; a removal drops all its copies; an addition sorts the list and adds one copy |
| Days.ToggleDaysTwiceSameSet | src/pages/Control.tsx:149-151 | two clicks on a day leave the same set of days |
| Days.ToggleDaysInWeek | src/pages/Control.tsx:544-547 | weekday lists stay within 0..6 when a day button is clicked |
| Days.ToggleDaysAddsInNumericOrder | src/pages/Control.tsx:151 | for weekdays, adding a day leaves the list in numeric order |
| Days.AscendingWeekIsSorted | src/pages/Control.tsx:151 | a list of weekdays in strictly ascending order is already in the sort's order |
| Days.AscendingOccursOnce | src/pages/Control.tsx:151 | a strictly ascending list holds each of its days once |
| Days.ToggleDaysInvolution | src/pages/Control.tsx:149-151 | on weekdays without repeats in ascending order, two clicks on a day restore the exact list |
| Control.PortionSizes | src/pages/Control.tsx:75-79 | every catalog portion dispenses a positive amount and runs between 1 and 10 seconds |
| Control.PortionsGrow | src/pages/Control.tsx:75-79 | a larger portion has a strictly larger amount and duration |
| Control.ScheduleAdded | src/pages/Control.tsx:113-131 | the list gains one record at the end; the old records are untouched; the new one is enabled, carries the draft's time, portion and days, and its id is the decimal text of the new length, which reads back as that length |
| Keyed.Without | src/pages/Control.tsx:133-135 | no remaining record has the id; nothing changes if none had it; the list never grows |
| Keyed.WithoutKeepsOthers | src/pages/Settings.tsx:194-196 | exactly the records with another id remain |
| Keyed.WithoutConcat | src/pages/Settings.tsx:194-196 | the remaining records keep their relative order: the filter of a joined list is the join of the filters |
| Keyed.WithoutIdempotent | src/pages/Control.tsx:133-135 | deleting the same id again changes nothing |
| Keyed.WithoutAround | src/pages/Control.tsx:133-135 | deleting a record's id is deleting it from the records before it and from those after it |
| Keyed.WithoutSplit | src/pages/Control.tsx:133-135 | the same split, at the record's index in the list |
| Keyed.WithoutOne | src/pages/Control.tsx:133-135 | when only one record has the id, exactly that record is removed |
| Keyed.MapWhere | src/pages/Control.tsx:137-141 | records with the id are rewritten, all others stay as they were, and the length is kept |
| Keyed.MapWhereKeepsKeys | src/pages/Settings.tsx:198-201 | a rewrite that keeps a record's id keeps every id in the list |
| Keyed.MapWhereTwice | src/pages/Control.tsx:137-141 | two rewrites of the same id, the first keeping ids, are one rewrite by their composition |
| Control.DeleteThenAddDuplicatesId | src/pages/Control.tsx:113-135 | when the last id equals the length, deleting another record and adding one creates a second record with the last id |
| Control.InitialIdsCollide | src/pages/Control.tsx:31-135 | on the initial schedules, delete "2" then add gives ids 1, 3, 4, 4, and a delete of "4" then removes both records with that id |
| Control.FlipEnabled | src/pages/Control.tsx:137-141 | the rewrite flips `enabled` and changes no other field |
| Control.ScheduleToggled | src/pages/Control.tsx:137-141 | records with the id flip `enabled`, all others stay as they were, and the length is kept |
| Control.ScheduleToggledTwice | src/pages/Control.tsx:137-141 | toggling the same schedule twice restores the list |
| Control.DayToggled | src/pages/Control.tsx:143-156 | records with the id get the day toggled, all others stay as they were, and the length is kept |
| Control.DayToggledTwice | src/pages/Control.tsx:143-156 | two clicks on the same day keep every record's other fields and its set of days |
| Control.DayToggledInWeek | src/pages/Control.tsx:544-547 | the day buttons, which pass 0..6, keep every schedule's days within the week |
| Control.ControlPanel.constructor | src/pages/Control.tsx:31-73 | the initial schedules, the default draft, a closed form, no feeding, progress 0, and Medium with its catalog duration |
| Control.ControlPanel.ToggleAddForm | src/pages/Control.tsx:434 | the add button flips whether the form shows |
| Control.ControlPanel.CancelAddForm | src/pages/Control.tsx:489-491 | the cancel button closes the form and keeps the draft |
| Control.ControlPanel.SetDraftTime | src/pages/Control.tsx:457-462 | the time input replaces only the draft's time |
| Control.ControlPanel.SetDraftPortion | src/pages/Control.tsx:472-477 | the portion select replaces only the draft's portion |
| Control.ControlPanel.AddSchedule | src/pages/Control.tsx:113-131 | the list becomes `ScheduleAdded` of the old list and draft; the form closes and the draft resets |
| Control.ControlPanel.DeleteSchedule | src/pages/Control.tsx:133-135 | the list becomes the keyed filter `Without` of the old one by schedule id |
| Control.ControlPanel.ToggleSchedule | src/pages/Control.tsx:137-141 | the list becomes `ScheduleToggled` of the old one |
| Control.ControlPanel.ToggleDay | src/pages/Control.tsx:143-156 | the list becomes `DayToggled` of the old one |
| Control.ControlPanel.SelectPortion | src/pages/Control.tsx:276-279 | choosing a portion selects it and sets the duration to its catalog value, which lies in 1..10 |
| Control.ControlPanel.StartFeeding | src/pages/Control.tsx:84-88 | a feed already running makes it return unchanged; otherwise feeding starts from progress 0 |
| Control.ControlPanel.EmergencyStop | src/pages/Control.tsx:103-106 | feeding stops and the progress is cleared |
| Settings.AddPet | src/pages/Settings.tsx:178-192 | the draft becomes a new last pet with every draft field, and its id is the decimal text of the new length, which reads back as that length; the form closes and the draft resets; nothing else changes |
| Settings.DeletePet | src/pages/Settings.tsx:194-196 | only the pet list changes, to the keyed filter `Without` of the old list by pet id |
| Settings.Merged | src/pages/Settings.tsx:199 | each field present in the update replaces the pet's; each absent field keeps it |
| Settings.MergedLaws | src/pages/Settings.tsx:199 | an empty update is a no-op, an update applied twice acts once, and two updates in a row are one combined update |
| Settings.PetsUpdated | src/pages/Settings.tsx:198-201 | pets with the id are merged with the update, the others are unchanged, and the length is kept |
| Settings.UpdatePet | src/pages/Settings.tsx:198-201 | the pet list is updated, the editor closes, and nothing else changes |
| Settings.UpdateKeepsIds | src/pages/Settings.tsx:377-401 | the edit fields send updates without an id, so every pet keeps its id |
| Settings.EditClicked | src/pages/Settings.tsx:358-360 | the edit button closes the editor iff it was open on that pet, and otherwise opens it on that pet |
| Settings.EditClickedTwice | src/pages/Settings.tsx:358-360 | two clicks restore the editor state iff no other pet's editor was open; from another pet's editor they close it |
| Settings.ToggleEditing | src/pages/Settings.tsx:358-360 | only the editor state changes, as `EditClicked` says |
| Settings.ToggleAddPetForm | src/pages/Settings.tsx:228 | only the add form's visibility flips |
| Settings.CancelAddPet | src/pages/Settings.tsx:328 | the cancel button closes the add form and changes nothing else |
| Settings.CancelKeepsDraft | src/pages/Settings.tsx:328 | cancelling and reopening the form shows the values typed before, and the pets are untouched |
| Settings.DraftEdited | src/pages/Settings.tsx:250-313 | each add-form input changes its own draft field and nothing else on the page |
| Settings.TypedNameIsAdded | src/pages/Settings.tsx:250-297 | the name and weight typed into the form are those of the added pet, and the form then resets |
| Settings.SwitchClick | src/pages/Settings.tsx:158-176 | a disabled switch reports nothing; an enabled one reports the negated value |
| Settings.NotificationSet | src/pages/Settings.tsx:455-460 | the key takes the new value and every other key keeps its value |
| Settings.NotificationsByKey | src/pages/Settings.tsx:455-460 | notification settings that agree on every key are equal |
| Settings.NotificationSwitched | src/pages/Settings.tsx:495-500 | a click negates that key only and changes nothing else on the page |
| Settings.NotificationSwitchedTwice | src/pages/Settings.tsx:455-460 | two clicks on the same switch restore the page |
| Settings.SystemFlagSet | src/pages/Settings.tsx:737-742 | the flag takes the new value; the other flags, the time zone, the language, the units and the retention are kept |
| Settings.SystemSwitched | src/pages/Settings.tsx:737-742 | a click negates that flag only and changes nothing else on the page |
| Settings.AutoReconnectSwitched | src/pages/Settings.tsx:567-572 | a click negates auto-reconnect only |
| Settings.ImportSettings | src/pages/Settings.tsx:799-822 | no file does nothing; an unparsable file changes nothing and raises the error alert; a parsed one replaces each present section, keeps the others, and raises the success alert; the pet form state is never touched |
| Settings.ExportSettings | src/pages/Settings.tsx:203-212 | the exported document holds all four sections |
| Settings.ExportImportRoundTrip | src/pages/Settings.tsx:203-212 | importing an exported document restores its pets, notifications, network and system on any page |
| Settings.ImportIdempotent | src/pages/Settings.tsx:799-822 | importing the same document twice equals importing it once |
| Settings.ResetSettings | src/pages/Settings.tsx:214-219 | reset leaves the page as it was, whatever the confirmation answer |
| Camera.FormatTime | src/components/CameraView.tsx:208-211 | the text before the colon is the padded whole minutes, the two digits after it the padded remaining seconds; below 100 minutes it is exactly `MM:SS` |
| Camera.Field | src/components/CameraView.tsx:209-210 | a padded field has at least two digits, exactly two below 100, reads back as its number, and starts with '0' only below 10, so a number of two or more digits is left unpadded |
| Camera.ClockReadsBack | src/components/CameraView.tsx:208-211 | a clock whose fields are two padded numbers reads back as the first times 60 plus the second |
| Camera.FormatTimeRoundTrip | src/components/CameraView.tsx:208-211 | minutes × 60 + seconds read from the clock is the elapsed time, and the seconds part is below 60 |
| Camera.CameraView.constructor | src/components/CameraView.tsx:27-33 | no stream, no recording, muted, time 0, no chunks, no error |
| Camera.CameraView.StartCamera | src/components/CameraView.tsx:51-94 | the error is cleared; a refusal records it and marks the view inactive; a grant holds a live stream, active once it plays |
| Camera.CameraView.StartRecording | src/components/CameraView.tsx:133-165 | without a stream nothing changes; a recorder that cannot be created or started records the error; otherwise the chunks are cleared and recording starts from 0 |
| Camera.CameraView.DataAvailable | src/components/CameraView.tsx:142-144 | a non-empty chunk is appended; an empty one is dropped |
| Camera.CameraView.StopRecording | src/components/CameraView.tsx:168-174 | with a recorder that is recording, recording stops and the time resets; otherwise nothing changes |
| Camera.CameraView.StopCamera | src/components/CameraView.tsx:97-105 | the tracks are stopped, the stream is dropped, the view is inactive and any recording ends |
| Camera.CameraView.ToggleFullscreen | src/components/CameraView.tsx:177-181 | fullscreen flips |
| Camera.CameraView.ToggleMute | src/components/CameraView.tsx:336 | mute flips |
| Camera.CameraView.TimerTick | src/components/CameraView.tsx:184-192 | while recording each second adds one; otherwise the time is unchanged |
| Monitor.InitialReading | src/pages/Monitor.tsx:127-136 | the reading carries its time label; with draws in [0, 1) its food, water, temperature and humidity lie in 80–90, 89–95, 23.5–25.5 and 60–70 |
| Monitor.GenerateData | src/pages/Monitor.tsx:121-139 | 24 readings, oldest first; the k-th is labelled with the time 23−k hours ago and uses the k-th draws |
| Monitor.Floor0 | src/pages/Monitor.tsx:153-162 | the floored value is non-negative and at least the input: the input itself when that is non-negative, 0 otherwise |
| Monitor.Floor0Least | src/pages/Monitor.tsx:153-162 | no smaller value is both non-negative and at least the input |
| Monitor.Floor0Monotone | src/pages/Monitor.tsx:153-162 | a larger input never gives a smaller floored value |
| Monitor.NextReading | src/pages/Monitor.tsx:147-163 | the appended reading carries the new label, and its food and water are non-negative |
| Monitor.NextLevels | src/pages/Monitor.tsx:168-173 | the updated food and water levels are non-negative |
| Monitor.SameRuleForWindowAndCurrent | src/pages/Monitor.tsx:144-173 | the window's new reading and the current readings follow the same update rule |
| Monitor.DriftBounded | src/pages/Monitor.tsx:153-162 | with a draw in [0, 1), food moves by less than 1 and water by less than 0.5 per update |
| Monitor.NoCeilingNoTemperatureFloor | src/pages/Monitor.tsx:153-162 | levels may exceed 100, and temperature and humidity may fall below 0 |
| Monitor.RollWindow | src/pages/Monitor.tsx:145-165 | the window keeps its length, drops the oldest reading, appends one derived from the newest, and keeps food and water non-negative |
| Monitor.MonitorPanel.constructor | src/pages/Monitor.tsx:120-141 | the window is the generated data, valid, and the current readings are the initial ones |
| Monitor.MonitorPanel.Tick | src/pages/Monitor.tsx:144-173 | one interval run rolls the window and updates the current readings, keeping 24 readings with non-negative levels |
| Monitor.TotalGrams | src/pages/Monitor.tsx:451 | an empty history totals 0, a single meal totals its amount, and non-negative amounts give a non-negative total |
| Monitor.TotalGramsAppend | src/pages/Monitor.tsx:447-451 | the total of two stretches of history is the sum of their totals |
| Monitor.TotalGramsBounds | src/pages/Monitor.tsx:447-451 | with each meal between lo and hi grams, the total is between lo and hi times the number of meals |
| Monitor.DailySummary | src/pages/Monitor.tsx:447-451 | the summary counts every meal and totals their grams |
| Monitor.InitialSummary | src/pages/Monitor.tsx:447-451 | the page's own history gives 4 meals and 18 grams |
| Monitor.UnreadCount | src/pages/Monitor.tsx:462-466 | the count is at most the list's length, 0 iff all are read, and the length iff none is |
| Monitor.UnreadCountAppend | src/pages/Monitor.tsx:462-466 | the count of a joined list is the sum of the counts of its parts |
| Monitor.UnreadBadge | src/pages/Monitor.tsx:462-466 | the badge shows iff some notification is unread, and then shows exactly the unread count, between 1 and the list's length |
| Monitor.InitialBadge | src/pages/Monitor.tsx:462-466 | the page's own notifications show a badge of 2 |
| Monitor.FoodTrend | src/pages/Monitor.tsx:310 | the food arrow never points up and points down iff the level is at most 20 |
| Monitor.WaterTrend | src/pages/Monitor.tsx:319 | the water arrow never points up and points down iff the level is at most 30 |
| Monitor.BarWidth | src/pages/Monitor.tsx:221 | the bar width lies in 0..100 and equals the value inside that range; below it is 0, above it 100 |
| Monitor.BarWidthMonotone | src/pages/Monitor.tsx:221 | a higher value never gives a narrower bar |

## Left out

- Control: the asynchronous feed loop that raises `feedingProgress` in
  steps and then lowers `isFeeding` (src/pages/Control.tsx:90-100). It
  waits on timers and is not modelled. The model also does not capture
  that `emergencyStop` leaves that loop running, so it can raise the
  progress again.
- Control: the servo and motor controls, `testServo`, the system-enabled
  switch, the duration slider (src/pages/Control.tsx:300-308), the start
  button's disabled condition and the camera toggle. They are
  presentation or set a single field.
- Control.ControlPanel.StartFeeding: covers only the synchronous prefix
  of `startFeeding`, for the reason above.
- Settings: the text-field setters of the network and system forms, the
  password visibility toggle and the tab selection. Each sets one field.
- Settings.DraftEdited: the weight input's `Number(...)` conversion of
  the typed text is not modelled; the input carries the number.
- Settings: `JSON.stringify`/`JSON.parse`, `Blob`, the download link and
  `FileReader`. These are represented by `SettingsDocument` and
  `ImportInput`.
- Settings.Merged: an explicit `undefined` key in an update is not
  represented; `None` stands only for an absent key.
- Settings.ImportSettings: an imported section that is truthy but of the
  wrong type is not represented. Imported data is taken as well formed, as the source does
  not check its shape.
- Camera: `enumerateDevices` and camera selection, screenshots, the
  reload button, the `onloadedmetadata` retry of `play()`, syncing the
  video element's `muted`, and the download in `onstop`. These are
  browser calls; their effect on the flags is a parameter.
- Camera.CameraView.StartCamera: a second start replaces the stream
  without stopping the old tracks. The model keeps only whether a stream
  exists, so it cannot tell the old tracks from the new ones.
- Camera.FormatTime: defined on non-negative whole seconds, the only
  values the timer produces.
- Monitor: the clock-derived labels and `Math.random()` are parameters.
  The charts and the layout are not modelled.
- JavaScript numbers are modelled as exact reals and unbounded integers.
  Floating-point rounding is not captured.
- Days.DayLe: integers that JavaScript prints in exponent form (magnitude
  1e21 and above) are compared by their plain decimal text.
