# Verification of R-BMS

A Dafny model of the parts of R-BMS where the code, rather than a service or a screen, decides what happens, with proofs of
what those parts promise. Each module follows one source file or one part of it. Where the program updates an object in
place, the model has a class whose methods are held to functions on values; what the program promises is then proved of
those functions, over whole runs.

| module | what it models |
|---|---|
| `InputDebounce`, `Gamepad`, `Mapper` | the debounce of a key, and the controller layer that resolves raw changes through it |
| `FrameIndependence`, `PadRuns`, `PadAlways` | that polling by frames does not change what is played, and what every run keeps, whatever its stamps |
| `PadMeaning`, `PadPlan` | what is played told from the raw changes alone, and in the units and the order of the config |
| `PadInvariant`, `PadOrder`, `PadSpacing` | exactly when instants stay in order and presses stay apart from one poll to the next |
| `Bytes`, `ClassFile`, `PoolText`, `Disassembler` | the class-file reader, its constant pool as text and the instruction decoder, against an encoder written from sections 4.1, 4.4 to 4.7 and 6.5 of the Java Virtual Machine Specification |
| `PracticeSlice`, `PracticeShape`, `PracticeLane`, `PracticePlay`, `PracticePicture`, `PracticeTempo`, `PracticeLines` | cutting a range out of a chart for practice |
| `UploadGate`, `UploadRun`, `UploadBound`, `UploadFiles`, `UploadRate`, `UploadStreak`, `UploadMeaning` | the rate-limited upload of chart patterns by several workers, as steps between awaits |
| `CivilDate` | the civil date of a time stamp, against the Gregorian calendar walked day by day |
| `Downloads`, `DownloadRuns`, `DownloadMeaning` | downloading a chart and scanning its folder into the library |
| `PlaySettings`, `SettingsRuns`, `SettingsMeaning` | the play settings under replays, borrowed layouts and courses |
| `SourceScanner`, `SourceNoise`, `EnumReader`, `EnumRoundTrip`, `EnumFaults` | blanking comments and literals, reading the constants of an enum out of Java source text |
| `ChartReading`, `ChartExport`, `ExportReport` | the pattern export: the reader pool, the crash-safe store, a second run, the report |
| `AuthHandover` | who ends up with the token of a login |
| `PaintBudget`, `PaintRuns`, `PaintMeaning` | decoding background pictures that are painted from one allowance |
| `Common`, `Multisets`, `Counting`, `StableSort` | options and results, sums of multisets, counting apart and repeated values, the stable sort the program calls |

A run is a sequence of steps in any order with any answers from outside: what the network, the file system, the clock or a
worker thread comes back with is a parameter of a step. Times are integers, on a clock that does not go back.

What the code does where its own documentation says otherwise, or says more:

- One poll's events are handed over earliest first, as documented, in every run (`PadAlways.EachPollIsEarliestFirst`). Across
  polls instants may go back, since a change may be stamped before a release that an earlier poll has already taken at the
  end of its window: `PadOrder.InstantsGoBackExactly` says exactly in which runs, from stamps and the debounce's guards, and
  `PadOrder.LateStampGoesBack` is one. In the same way a press may follow such a release within the bounce gap
  (`PadSpacing.SpacedExactly`, `PadSpacing.PressWithinTheGap`). Where each poll's changes are no earlier than the poll before,
  neither happens (`PadInvariant.RunIsKept`).
- The disassembler's loop ends exactly when the cursor never comes back to where it has been (`Disassembler.EndsExactly`).
  Only a switch whose count is negative sends it back (`Disassembler.OnlySwitchesGoBack`), so with none it ends
  (`Disassembler.EndsWithNoNegativeCount`); on one code with one the loop never
  ends (`Disassembler.ASwitchOnAnEmptyRangeNeverEnds`), on another it does (`Disassembler.ASwitchSentBackMayEnd`).
- `res` ends exactly when the links it follows never come round (`PoolText.ResEndsExactly`); on the class file whose one
  entry is a class that names itself it never does (`PoolText.SelfNamedClassNeverEnds`). Well-linked pools never come round.
- A practice slice with nothing to carry in at its start gets no line there, so tempo and scroll are the chart's initial ones
  until its first line. `PracticeTempo.SliceKeepsTheTempo` says from the chart exactly when they are kept.
- A 429 also joins a pause that began between the gate and the sending of its request, if that pause was still in force when
  the request was sent. `UploadRate.JoinsExactly` says exactly when a 429 joins.
- A course that begins or ends while options are kept for a replay may have the settings file saved with the arrangement the
  course clamped to: in every run the file holds what the player set exactly when each course begins and ends with a guard
  told from the settings then (`SettingsRuns.TheFileHoldsThePlayers`), which always holds with no options kept for a replay
  (`SettingsRuns.GuardedWithoutAReplay`).
  `SettingsRuns.EndedOverAReplay` is a run in which it does not.

## Model

| member | source | states |
|---|---|---|
| InputDebounce.Lr2Debounce.Offer | apps/rbms-player/src/input_debounce.rs:75-102 | the gate after a report and whether the report is handed over now, for every state and report |
| InputDebounce.Lr2Debounce.ReleaseOpenedBy | apps/rbms-player/src/input_debounce.rs:107-112 | the instant the window ended for a release kept out, if by then; nothing changes |
| InputDebounce.Lr2Debounce.HandOver | apps/rbms-player/src/input_debounce.rs:118-130 | the gate after a change handed over as it is, and whether it was a change |
| InputDebounce.HandOverHolds | apps/rbms-player/src/input_debounce.rs:118-136 | a change handed over as it is keeps the handed changes alternating from a press, the last of them being the state and the instant the gate has |
| InputDebounce.OfferKeeps | apps/rbms-player/src/input_debounce.rs:75-102 | a report offered keeps the handed changes alternating from a press, releases at least the window after their press, presses outside the bounce gap |
| InputDebounce.OpenedReleaseKeeps | apps/rbms-player/src/input_debounce.rs:107-130 | a release taken when its window ends keeps the same |
| Mapper.PadSnapshot.Apply | apps/rbms-player/src/gamepad.rs:435-491 | a raw change brings exactly the values it names up to date, a disconnection clears all |
| Mapper.PadMapper.Retune | apps/rbms-player/src/gamepad.rs:672-690 | the axes read as turntables follow the config |
| Mapper.PadMapper.ElementsOf | apps/rbms-player/src/gamepad.rs:582-590 | the distinct elements of the plan that are, or are not, turntable directions, in plan order |
| Mapper.PadMapper.ReadKeys | apps/rbms-player/src/gamepad.rs:594-605 | every key offered once as it reads, gates and events as the value model has them |
| Mapper.PadMapper.ReadTurntables | apps/rbms-player/src/gamepad.rs:612-626 | every turntable direction outside its window read once, gates and events as the value model has them |
| Mapper.PadMapper.TakeOpened | apps/rbms-player/src/gamepad.rs:630-644 | the opened releases taken earliest first, each at the end of its window |
| Mapper.PadMapper.TakeChange | apps/rbms-player/src/gamepad.rs:563-568 | one change: opened releases first, then the keys as they read after it |
| Mapper.PadMapper.ResolveChanges | apps/rbms-player/src/gamepad.rs:548-574 | one poll: its timed events, gates and snapshot are those of its parts in order; a disabled controller only updates the snapshot |
| Mapper.PadMapper.HeldNow | apps/rbms-player/src/gamepad.rs:649-668 | what is held down, each once, in plan order |
| FrameIndependence.FrameRateIndependent | apps/rbms-player/src/gamepad.rs:548-574 | with no turntable bound, changes cut into any polls in step give the same timed events and the same gates as one poll |
| FrameIndependence.TakeOpenedTwice | apps/rbms-player/src/gamepad.rs:630-644 | taking what has opened at one instant and again later is taking it once, later |
| PadMeaning.KeysAreJudged | apps/rbms-player/src/input_debounce.rs:75-130 | in every run what is handed over of a key is what judging its reports one by one comes to, from the raw changes alone: a press counts unless the key counts as down or was up less than 2 ms or the window before, a release counts once the window since its press is over |
| PadMeaning.TurntablesAreRead | apps/rbms-player/src/gamepad.rs:607-626 | in every run a turntable direction changes as it reads, unless it changed less than the window before |
| PadMeaning.EventsAreTheChanges | apps/rbms-player/src/gamepad.rs:401-409 | in every run the events are those of the changes handed over, one for each plan entry of what changed, a control and a shortcut on the way down only |
| PadMeaning.ReadsAreTheReports | apps/rbms-player/src/gamepad.rs:715-729 | in every run a button is down as last reported, an axis direction while the axis was last reported beyond the deadzone on its side, and nothing is after a disconnection |
| PadMeaning.LostMeansUp | apps/rbms-player/src/gamepad.rs:494-498 | once the controller is lost no key is down until it reports again |
| PadMeaning.EveryPressIsAReport | apps/rbms-player/src/gamepad.rs:715-729 | in every run each press of a key is at the instant of a report of that button pressed or of that axis beyond the deadzone on that side |
| PadPlan.EventsInPlanOrder | apps/rbms-player/src/gamepad.rs:602-604 | the events of one instant follow the plan |
| PadPlan.ElementsInPlanOrder | apps/rbms-player/src/gamepad.rs:582-590 | the elements are asked in the order the plan first has them |
| PadPlan.HeldIsWhatIsBound | apps/rbms-player/src/gamepad.rs:646-668 | an event is held exactly when the element of some entry that makes it is down |
| PadPlan.HeldInPlanOrder | apps/rbms-player/src/gamepad.rs:649-668 | what is held is listed in plan order |
| PadPlan.DisabledFollows | apps/rbms-player/src/gamepad.rs:548-558 | a disabled controller ends a poll standing as an enabled one would |
| PadPlan.DebounceIsInMilliseconds | apps/rbms-player/src/gamepad.rs:594-605 | in every run a release comes at least the debounce set, in milliseconds and at most 100, after its press |
| PadPlan.ReleaseAfterTheWindowCounts | apps/rbms-player/src/gamepad.rs:594-605 | and a release reported once that time is over counts at once |
| PadPlan.DownBeyondTheDeadzone | apps/rbms-player/src/gamepad.rs:715-729 | an axis direction is down exactly beyond the deadzone set, taken between 0.05 and 0.95 |
| PadPlan.PressesAreBeyondTheDeadzone | apps/rbms-player/src/gamepad.rs:715-729 | in every run the press of an axis direction is at a report of the axis beyond that deadzone on that side |
| PadAlways.EveryRunHolds | apps/rbms-player/src/gamepad.rs:538-644 | in every run, whatever its instants, every key alternates from a press with each release at least the window after its press, turntables alternate the window apart, and presses less releases of a lane are the plan entries whose gate is down |
| PadAlways.EachPollIsEarliestFirst | apps/rbms-player/src/gamepad.rs:538-574 | after any polls, a poll whose own changes are in order hands its events over earliest first |
| PadAlways.HeldIsWhatIsDown | apps/rbms-player/src/gamepad.rs:646-668 | the held list holds exactly what some element of the plan holds down, without repeats |
| PadAlways.HeldIsWhatWasPressed | apps/rbms-player/src/gamepad.rs:646-668 | in every run a lane is held exactly when it was pressed more often than let go of |
| PadOrder.PollGoesBackExactly | apps/rbms-player/src/gamepad.rs:538-574 | a poll's first change is before the last one handed over exactly when a stamp or an opened release of its own is, and passes the debounce's guards |
| PadOrder.InstantsGoBackExactly | apps/rbms-player/src/gamepad.rs:538-574 | over a run instants never go back exactly when no poll of it goes back in that way |
| PadOrder.LateStampGoesBack | apps/rbms-player/src/gamepad.rs:734-737 | a run of two polls in which they do |
| PadOrder.PressesAreAsReported | apps/rbms-player/src/gamepad.rs:538-568 | every press of a key is at the instant of the very change before which the key did not read down and after which it does |
| PadOrder.NoPressIsLate | apps/rbms-player/src/gamepad.rs:538-568 | and so are the presses of every run from a controller just opened |
| PadSpacing.SpacedExactly | apps/rbms-player/src/input_debounce.rs:75-102 | in every run a key keeps the debounce's distances exactly when no press passes the guards within the bounce gap of the last release handed over |
| PadSpacing.PressWithinTheGap | apps/rbms-player/src/gamepad.rs:734-737 | a run in which one does |
| PadInvariant.RunIsKept | apps/rbms-player/src/gamepad.rs:538-644 | over polls none of whose changes is stamped before the poll before, instants never go back and every key keeps both of the debounce's distances |
| Disassembler.Dis | docs/utils/class-disassembler.py:45-72 | the loop, for as many turns as allowed, lists what the recursive reading of the code lists, negative cursors read as Python reads them, and raises where a read or an unguarded `res` raises |
| Disassembler.SkipOperands | docs/utils/class-disassembler.py:48-70 | where the cursor goes past the operands of any instruction, the target of a 16-bit branch, and the raising of an operand that does not resolve |
| Disassembler.DisassemblyInvertsAssembly | docs/utils/class-disassembler.py:45-72 | instructions laid out as section 6.5 has them, switch padding and `wide` included, their operands indices of a well-linked pool, are listed one by one at their true offsets, with their opcodes and 16-bit branch targets, up to the end of the code |
| Disassembler.OneInstruction | docs/utils/class-disassembler.py:48-70 | the cursor lands exactly after an encoded instruction |
| Disassembler.ReadsAsPython | docs/utils/class-disassembler.py:46-69 | a cursor below zero reads from the end, and numbers are unpacked from slices as Python cuts them, which have to be long enough |
| Disassembler.RaisesExactly | docs/utils/class-disassembler.py:46-69 | on any code a turn raises exactly on an opcode past the table, on operands cut off, and on an operand that does not resolve |
| Disassembler.EveryOpcodeIsWritten | docs/utils/class-disassembler.py:2-4 | each of the 202 opcodes is one some instruction of section 6.5 is laid out under |
| Disassembler.EndsExactly | docs/utils/class-disassembler.py:46-72 | on any code the loop ends exactly when the cursor never comes back to where it was, and then within twice as many turns as there are bytes |
| Disassembler.OnlySwitchesGoBack | docs/utils/class-disassembler.py:67-70 | the cursor goes back exactly on a switch that counts a negative length large enough |
| Disassembler.EndsWithNoNegativeCount | docs/utils/class-disassembler.py:46-72 | where no place from the cursor on reads as a switch with a negative count, the loop ends within a turn for each byte left |
| Disassembler.ASwitchOnAnEmptyRangeNeverEnds | docs/utils/class-disassembler.py:67-68 | a concrete code on which the loop has not ended after any number of turns |
| Disassembler.ASwitchSentBackMayEnd | docs/utils/class-disassembler.py:60-68 | a concrete code on which the cursor is sent back and the loop ends all the same |
| ClassFile.ParseFile | docs/utils/class-disassembler.py:5-44 | the loops read what the recursive reading of the file reads, or raise where it raises |
| ClassFile.TagsTake | docs/utils/class-disassembler.py:11-18 | how many bytes and slots each tag of section 4.4 takes, what a tag of no entry does, and which entries raise |
| ClassFile.MembersRaiseExactly | docs/utils/class-disassembler.py:31-43 | an attribute raises exactly on six bytes cut off or a name that is no entry, a method likewise or for its attributes; an attribute's own bytes may be cut off |
| ClassFile.FillPool | docs/utils/class-disassembler.py:8-18 | the pool filled by index, a long or double taking two slots |
| ClassFile.FillAttributes | docs/utils/class-disassembler.py:31-35 | the attributes of one table with their names, bytes and order, and the cursor after them |
| ClassFile.FillMethods | docs/utils/class-disassembler.py:39-43 | the methods in order with names, descriptors and attributes |
| ClassFile.ParseInvertsSerialise | docs/utils/class-disassembler.py:5-44 | for every class file that fits the format, its numbers written as integers, floats, longs or doubles, parsing its bytes gives back the pool and every method in order |
| ClassFile.PoolReadsBack | docs/utils/class-disassembler.py:8-18 | a serialised pool read from where it stands gives its slots and ends where it ends |
| PoolText.ReferencesAreNamed | docs/utils/class-disassembler.py:20-29 | in a well-linked pool a field or method prints as its class, its name and its descriptor, a class or string as its text |
| PoolText.ResEnds | docs/utils/class-disassembler.py:20-29 | in a well-linked pool `res` resolves every index within three calls |
| PoolText.ResEndsExactly | docs/utils/class-disassembler.py:20-29 | in any pool `res` ends exactly when the links it follows never come round, and then within one call more than the pool has entries |
| PoolText.SelfNamedClassNeverEnds | docs/utils/class-disassembler.py:5-25 | the bytes of a class file are read as a pool in which `res` never ends, however deep the calls may go |
| PracticeSlice.ScanNotes | apps/rbms-player/src/app_play.rs:317-344 | the loop over rows and lanes finds the heads cut at the start and the ends cut at the end |
| PracticeSlice.SliceModel | apps/rbms-player/src/app_play.rs:317-373 | the timelines of the slice, put together and sorted by time, priority and order |
| PracticeShape.SliceInOrder | apps/rbms-player/src/app_play.rs:346-372 | in a chart in order the slice is what is put in at the start, the timelines of the range, what is put in at the end |
| PracticeShape.SliceStaysInRange | apps/rbms-player/src/app_play.rs:346-372 | every timeline of the slice is in time order and inside the range |
| PracticeLane.SlicedLane | apps/rbms-player/src/app_play.rs:322-367 | the long notes left are exactly those that meet the range, clamped to it, still alternating; an unfinished head is kept exactly when it is inside |
| PracticeLane.SlicedPlain | apps/rbms-player/src/app_play.rs:322-367 | normal notes and mines left are exactly those inside |
| PracticePlay.ViewOfScan | apps/rbms-player/src/app_play.rs:322-343 | the scan over all lanes finds in each lane what pairing that lane alone finds |
| PracticePlay.SliceKeepsThePlay | apps/rbms-player/src/app_play.rs:317-373 | what is played of every lane in a slice: long notes clamped, normal notes and mines kept, heads and ends alternating |
| PracticePlay.SliceIsWellFormed | apps/rbms-player/src/app_play.rs:317-373 | a slice of a well-formed chart is well formed |
| PracticePlay.SlicingAgain | apps/rbms-player/src/app_play.rs:317-373 | slicing again by the same range changes nothing |
| PracticePicture.SliceKeepsThePicture | apps/rbms-player/src/app_play.rs:298-309 | at every moment of the range the background and the layer in force are those of the chart |
| PracticeLines.SliceInParts | apps/rbms-player/src/app_play.rs:346-372 | a slice is at most one line with the picture carried in, a line for each head cut, the timelines of the range as they were, and a line for each end cut; a line put in holds that note alone, moved in time and section and otherwise as it was, under the tempo, scroll and section in force |
| PracticeLines.PictureCarriedIn | apps/rbms-player/src/app_play.rs:298-309 | the line with the picture is there exactly when a background or a layer is the last shown before the range with none shown at its start, and holds those and no other |
| PracticeLines.LinesAreKept | apps/rbms-player/src/app_play.rs:346-351 | the timelines of the range are kept whole and in order |
| PracticeTempo.TempoAtIsInForce | apps/rbms-player/src/app_play.rs:287-296 | the tempo looked up is the one no line at or before then comes after, or the initial one with no line by then |
| PracticeTempo.BoundariesAreInForce | apps/rbms-player/src/app_play.rs:287-309 | every line put in carries the tempo and scroll in force at its boundary |
| PracticeTempo.SliceKeepsTheTempo | apps/rbms-player/src/app_play.rs:287-373 | tempo and scroll at a moment of the slice are the chart's exactly when the chart has a line from the start of the range to then, a picture lasting into it, a long note held over its start, or one over its end by then, or is at its initial tempo then |
| PracticeTempo.TempoIsNotAlwaysKept | apps/rbms-player/src/app_play.rs:287-309 | a chart whose tempo change is not carried into a slice |
| UploadGate.PauseFor | web/scripts/upload-chart-patterns.ts:19-24 | a pause lasts between the shortest and the longest wait, whatever is asked |
| UploadMeaning.IntervalIsTheLeast | web/scripts/upload-chart-patterns.ts:15-18 | the interval is the least at which a minute holds nine tenths of the limit |
| UploadMeaning.EveryPauseIsAsAsked | web/scripts/upload-chart-patterns.ts:204-212 | in every run each pause is begun by a 429 and lasts the seconds that asks, a minute if none, a second at least and five minutes at most |
| UploadMeaning.SlotsComeAfterPauses | web/scripts/upload-chart-patterns.ts:192-197 | in every run a slot is reserved only when every pause is over that had begun as the worker came to the gate |
| UploadGate.RequestGate.Reserve | web/scripts/upload-chart-patterns.ts:195-196 | a slot not before now nor before the next free one, and the next an interval on |
| UploadGate.RequestGate.RateLimited | web/scripts/upload-chart-patterns.ts:204-212 | a 429 joins, starts a pause or gives up, and the pause never ends earlier |
| UploadBound.RunKeeps | web/scripts/upload-chart-patterns.ts:180-251 | in every run pauses do not overlap, are paid for by requests that got through, and every retry had a pause of its own |
| UploadFiles.OneResultEach | web/scripts/upload-chart-patterns.ts:276-284 | in every run each file is queued, in hand or has one result; all have theirs when the workers are done and nothing stopped the run |
| UploadMeaning.EveryResultIsItsAnswer | web/scripts/upload-chart-patterns.ts:260-274 | in every run each result is of the file its worker had in hand, as the local check or the last answer to its request has it: uploaded on a readable 200 or 201, stopping on 401, 403 and a 429 given up, failed otherwise |
| UploadMeaning.FilesAreKept | web/scripts/upload-chart-patterns.ts:276-282 | a worker keeps its file until it reports it and takes the next queued one unless a result has stopped the run |
| UploadMeaning.NothingIsTakenAfterAStop | web/scripts/upload-chart-patterns.ts:276-282 | once a result stops the run no file is taken any more |
| UploadFiles.RequestsBounded | web/scripts/upload-chart-patterns.ts:233-251 | N files and C workers make at most N + C * MAX * (N + 1) requests |
| UploadRate.RateIsKept | web/scripts/upload-chart-patterns.ts:180-200 | if sleeps run over by at most d, n requests in a window of length W satisfy (n - 1) * interval < W + d |
| UploadRate.ServerLimitIsKept | web/scripts/upload-chart-patterns.ts:15-18 | the server's limit holds in every minute unless a sleep runs over by more than 7.2 seconds |
| UploadRate.PassesOutsidePauses | web/scripts/upload-chart-patterns.ts:192-199 | a worker passes the gate exactly when every pause begun so far is over |
| UploadRate.PauseEndStands | web/scripts/upload-chart-patterns.ts:204-212 | no step moves the end of the pause back |
| UploadRate.JoinsExactly | web/scripts/upload-chart-patterns.ts:205-210 | a 429 joins exactly when a pause began since its request was sent, or between gate and sending and was still in force |
| UploadStreak.CountsTheStreak | web/scripts/upload-chart-patterns.ts:201-212 | in every run what the gate counts are the waits begun since a request last got through |
| UploadStreak.GivesUpExactly | web/scripts/upload-chart-patterns.ts:204-221 | in every run a 429 is given up exactly when it joins no pause and the most waits there may be in a row have begun since a request last got through |
| UploadStreak.StopsOnlyAfterWaiting | web/scripts/upload-chart-patterns.ts:204-221 | in every run a 429 reported as the answer, and so a stopped run, comes after the most waits in a row with no request getting through |
| CivilDate.CivilIsTheCalendar | apps/rbms-player/src/format.rs:53-61 | the closed form is the Gregorian calendar walked one day at a time, before and after 1970 |
| CivilDate.CivilOfTheDayAfter | apps/rbms-player/src/format.rs:53-61 | the next day gives the calendar's next date |
| CivilDate.CivilRoundTrip | apps/rbms-player/src/format.rs:53-61 | day number and date undo each other |
| CivilDate.StampRebuildsTheTime | apps/rbms-player/src/format.rs:49-61 | date, hour and minute are valid and rebuild the time floored to its minute, negative times included |
| CivilDate.TextHasItsShape | apps/rbms-player/src/format.rs:49-63 | every time prints as `YYYY-MM-DD HH:MM`, with those separators and digits elsewhere, sixteen characters for the years 0 to 9999 |
| CivilDate.TextTellsTheMinute | apps/rbms-player/src/format.rs:49-63 | the printed text is read back as that minute, so two texts are equal exactly when the minutes are |
| Downloads.Shared.StartDownload | apps/rbms-player/src/download.rs:312-332 | the refusals in their order, and otherwise the job started |
| Downloads.Shared.TakeFinishedJob | apps/rbms-player/src/download.rs:373-391 | what a finished job leaves: its folder queued and its chart waiting, or its ending |
| Downloads.Shared.StartRefresh | apps/rbms-player/src/download.rs:459-468 | the loop keeps the folders inside no other and records what the scan began under |
| Downloads.Shared.TakeFinishedRefresh | apps/rbms-player/src/download.rs:405-443 | a scan taken in, run again or failed, and whether the library changed |
| Downloads.Shared.Rerun | apps/rbms-player/src/download.rs:426-433 | the same folders again with the queued ones, for the chart that waits |
| Downloads.Shared.ApplyFinished | apps/rbms-player/src/download.rs:354-371 | one look at what the workers came back with; the library changes exactly when a current scan is taken in |
| Downloads.StillCovered | apps/rbms-player/src/download.rs:460 | leaving out folders inside others leaves none uncovered |
| DownloadMeaning.TheLibraryIsTheOneRead | apps/rbms-player/src/download.rs:436-450 | the library after a look is the one the scan read when it is taken in, and otherwise as it was |
| DownloadMeaning.TheLibraryShown | apps/rbms-player/src/download.rs:436-450 | in every run the library shown is the last one taken in or fully scanned, or the first |
| DownloadMeaning.WhatIsSaid | apps/rbms-player/src/download.rs:373-443 | a look says how the job and the scan ended, found by the library the scan read, and nothing else |
| DownloadMeaning.TheCountIsTheArchives | apps/rbms-player/src/download.rs:373-443 | in every run a chart waits with the number of charts its archive held |
| DownloadMeaning.RefusedExactly | apps/rbms-player/src/download.rs:312-332 | in every run a download is refused exactly while a chart is under way, else for its link, else for want of a folder |
| DownloadMeaning.OutermostExactly | apps/rbms-player/src/download.rs:460 | the folders scanned are those asked for inside no other of them |
| DownloadMeaning.TheQueueIsScanned | apps/rbms-player/src/download.rs:354-371 | after a look nothing stays queued with neither a scan running nor a job unpacking |
| DownloadMeaning.AScanTakesTheQueue | apps/rbms-player/src/download.rs:424-433 | a scan begun or begun again empties the queue, and its folders cover what was queued and what was being scanned |
| DownloadMeaning.AQuietLookChangesNothing | apps/rbms-player/src/download.rs:354-371 | a look with nothing come back and no new folder changes nothing |
| DownloadRuns.NoFolderIsLost | apps/rbms-player/src/download.rs:354-468 | in every run a queued folder is covered by the queue or the running scan until a later scan covering it is taken in or a scan fails |
| DownloadRuns.OneChartOneEnding | apps/rbms-player/src/download.rs:210-443 | in every run the charts started are those of the endings said, in order, then the one under way, which is in one place only; a waiting chart's folder is covered by its scan |
| DownloadRuns.NoStaleLibrary | apps/rbms-player/src/download.rs:424-437 | a scan is taken in only if sources are as they were and library and tables changed a multiple of 2^64 times since it began |
| DownloadRuns.TheEndingTellsTheTruth | apps/rbms-player/src/download.rs:436-442 | in every run a chart whose scan is taken in is said to be found exactly when the library then shown holds it |
| PlaySettings.Shared.LayoutToLoad | apps/rbms-player/src/app_play.rs:84-101 | the arrangement and seed a load is laid out with, the arrangement being the one then in the settings |
| PlaySettings.Shared.PlayReplayAsRecorded | apps/rbms-player/src/app_play.rs:68-76 | the replay's options in force, the player's kept once |
| PlaySettings.Shared.LayOutAsBorrowedFor | apps/rbms-player/src/borrowed_layout.rs:321-333 | the borrowed layout for the load it was handed to, let go of for any other |
| PlaySettings.Shared.BorrowLayout | apps/rbms-player/src/borrowed_layout.rs:205-216 | lent exactly to a run by hand, of the chart, with an arrangement this player has and a seed that lays it out; a refusal changes nothing, otherwise the replay ends and the layout is held for the next load |
| PlaySettings.Shared.BorrowLayoutOfWatchedReplay | apps/rbms-player/src/borrowed_layout.rs:225-247 | the refusals of a watched replay in their order, an unkept one that reads OFF included |
| PlaySettings.Shared.HandBorrowedLayoutOn | apps/rbms-player/src/borrowed_layout.rs:301-307 | kept for a retry from the borrowed seed, let go of otherwise |
| PlaySettings.Shared.StartCourse | apps/rbms-player/src/lib.rs:284-304 | the settings backed up and narrowed by the constraints in order |
| PlaySettings.Shared.FinishCourse | apps/rbms-player/src/lib.rs:329-340 | what was narrowed is put back |
| PlaySettings.Shared.SettingsToSave | apps/rbms-player/src/app_play.rs:129-141 | what the settings file is to hold |
| PlaySettings.OverridesAreTheConstraints | apps/rbms-player/src/course_ui.rs:331-351 | speed is locked exactly under NO SPEED, the arrangement by the last grade constraint and free exactly without one |
| SettingsMeaning.SeedsOverRuns | apps/rbms-player/src/app_play.rs:78-101 | in every run the load of a replay in hand is laid out from its own seed, whatever is carried and whatever the clock gives, and with nothing in hand from the carried seed or a fresh one |
| SettingsMeaning.LentAsAsked | apps/rbms-player/src/borrowed_layout.rs:205-216 | after any run a layout borrowed is the next load's of its chart and no other's, by the arrangement and the seed asked for |
| SettingsMeaning.LentOverRuns | apps/rbms-player/src/borrowed_layout.rs:283-285 | in every run a layout is lent exactly outside a course, to a run by hand, of what can be lent |
| SettingsMeaning.WhatIsHeld | apps/rbms-player/src/borrowed_layout.rs:205-247 | what is held of a layout lent: the arrangement, seed and source asked for, the chart, and the run of this machine it came from |
| SettingsMeaning.RefusalsInOrder | apps/rbms-player/src/borrowed_layout.rs:153-168 | which refusal is given, in their order, and the layout answered otherwise |
| SettingsMeaning.WatchedLentExactly | apps/rbms-player/src/borrowed_layout.rs:225-247 | a watched replay is borrowed from under the same conditions, but not as OFF unless this machine kept it |
| SettingsMeaning.SameIgnoringCaseExactly | apps/rbms-player/src/borrowed_layout.rs:131-142 | names are compared without regard to the case of ASCII letters only |
| SettingsMeaning.ArrangementsAreNamed | crates/rbms-chart/src/shuffle.rs:44-58 | each arrangement is read under its label and aliases in any case, and everything else is OFF |
| SettingsMeaning.LayoutsAreNamed | apps/rbms-player/src/borrowed_layout.rs:128-142 | a layout is named by those, by the server's name for ROTATE, and OFF only by its own |
| SettingsMeaning.GaugesAreNamed | crates/rbms-config/src/gauge.rs:4-13 | each gauge is read under its tokens in any case, and everything else is NORMAL |
| SettingsMeaning.CourseIsPlayedUnder | apps/rbms-player/src/course_ui.rs:280-374 | a course is played on what its last grade lets stand of the arrangement, under NO SPEED at a hi-speed of 1 without constant speed or shades, and otherwise as the player set it |
| SettingsMeaning.TheRestOfTheConstraints | apps/rbms-player/src/course_ui.rs:331-351 | long notes are those of the last constraint on them, and only NO GOOD and NO GREAT are stored unenforced |
| SettingsRuns.PutBackUndoesNarrowing | apps/rbms-player/src/course_ui.rs:362-396 | narrowing and putting back leave the settings as they were |
| SettingsRuns.TheFileHoldsThePlayers | apps/rbms-player/src/app_play.rs:119-141 | in every run, replays, layouts and courses in any order, the file holds what the player set at every moment exactly when each course begins and ends with its guard |
| SettingsRuns.EndingBringsThePlayersBack | apps/rbms-player/src/app_play.rs:113-117 | in every run so guarded, once a replay ends the player's own options are in force, but for what a course holds |
| SettingsRuns.LoadsOnTheRightOptions | apps/rbms-player/src/app_play.rs:78-101 | in every run so guarded, a load is on the replay's options, on the borrowed arrangement with the player's gauge and SCRATCH AUTO, or on the player's own |
| SettingsRuns.LayoutLastsForItsLoads | apps/rbms-player/src/borrowed_layout.rs:298-333 | after a load no other is laid out as borrowed, whatever happens, until a layout is borrowed or handed on again |
| SettingsRuns.HandedOnExactly | apps/rbms-player/src/borrowed_layout.rs:298-333 | after any run, handing on and loading the chart lays it out by the very layout and seed borrowed exactly when the retry carries that seed and no replay is in hand |
| SettingsRuns.BeginKeepsExactly | apps/rbms-player/src/lib.rs:284-304 | beginning a course leaves the file right exactly under its guard |
| SettingsRuns.EndKeepsExactly | apps/rbms-player/src/lib.rs:329-340 | ending one does |
| SettingsRuns.EndedOverAReplay | apps/rbms-player/src/app_play.rs:129-141 | a run in which a course ended over a replay has the file hold the arrangement the course clamped to |
| SourceScanner.WithoutNoise | tools/gen-skin-property.rs:290-318 | the in-place blanking is what reading the text byte by byte with a mode blanks |
| SourceScanner.BlankingIsSound | tools/gen-skin-property.rs:288-318 | length and newlines kept, no comment or literal opens any more, blanking again changes nothing |
| SourceNoise.CodeSurvives | tools/gen-skin-property.rs:288-318 | code that opens no comment and no literal is kept, whatever follows it |
| SourceNoise.LineCommentsEnd | tools/gen-skin-property.rs:296-297 | a line comment is blanked up to its newline, and what follows is read as before |
| SourceNoise.BlockCommentsEnd | tools/gen-skin-property.rs:298-299 | a block comment is blanked through its first closing mark, newlines kept |
| SourceNoise.LiteralsEnd | tools/gen-skin-property.rs:300-305 | a literal is blanked through its first quote that is not escaped |
| SourceNoise.UnclosedCommentsRun | tools/gen-skin-property.rs:298-299 | a block comment without a closing mark runs to the end |
| SourceNoise.UnclosedLiteralsRun | tools/gen-skin-property.rs:300-305 | a literal without a closing quote runs to the end |
| EnumReader.FindClosing | tools/gen-skin-property.rs:326-341 | the bracket found, with a count that never goes below zero |
| EnumReader.ClosingIsFirst | tools/gen-skin-property.rs:325-341 | the bracket found is the first at which the depth is back at zero, and none is found exactly when it never is |
| EnumReader.FindCommas | tools/gen-skin-property.rs:433-446 | the commas inside no bracket, with a count that never goes below zero |
| EnumReader.ReadConstants | tools/gen-skin-property.rs:415-463 | the loop ends on every text, indexes within it, and reads what the recursive reading reads |
| EnumRoundTrip.ReadsBack | tools/gen-skin-property.rs:415-463 | constants written with any blanks, commas and class bodies between them are read back in order with names, ids and argument counts |
| EnumFaults.ReadUpTo | tools/gen-skin-property.rs:415-463 | constants well written are read as they are, whatever follows them |
| EnumFaults.NetCounts | tools/gen-skin-property.rs:326-341 | the depth is the number of brackets of the three kinds that open less those that close |
| EnumFaults.ArgumentsAreCounted | tools/gen-skin-property.rs:433-455 | a constant counts as many arguments as it is written with, commas inside brackets aside, and its first is what stands before the first comma |
| EnumFaults.EndsWithout | tools/gen-skin-property.rs:422-429 | a text without its terminator, and one without a constant, are refused as that |
| EnumFaults.NoConstantHere | tools/gen-skin-property.rs:430-435 | something other than a constant is refused with the name of the constant before it |
| EnumFaults.ArgumentsNeverClosed | tools/gen-skin-property.rs:326-341 | an argument list that is never closed is refused as that |
| EnumFaults.RefusedConstants | tools/gen-skin-property.rs:447-455 | a single argument, an unknown id, an unknown scope and a repeated name are refused as that, in this order |
| ChartReading.BatchIsInOrder | apps/rbms-cli/src/chart_pattern.rs:120-141 | however the workers take turns, the batch is what one reader in path order reads |
| ChartReading.ReadBatch | apps/rbms-cli/src/chart_pattern.rs:112-141 | the pool, whichever worker goes next each time, ends and gives the batch in path order |
| ChartExport.Export | apps/rbms-cli/src/chart_pattern.rs:146-199 | batch after batch read by the pool, what folding over all the charts comes to |
| ChartExport.CountsAddUp | apps/rbms-cli/src/chart_pattern.rs:158-199 | written, already there, duplicates, other modes and unreadable charts are the charts found |
| ChartExport.FilesHoldTheFirst | apps/rbms-cli/src/chart_pattern.rs:95-106 | for every md5, its file holds the document of its first chart or is as it was, and its temporary file is gone where the document was written and as it was elsewhere |
| ChartExport.OtherFilesStand | apps/rbms-cli/src/chart_pattern.rs:168-177 | a file under any other name is as it was |
| ChartExport.SecondRunWritesNothing | apps/rbms-cli/src/chart_pattern.rs:98-101 | a second run over the same library writes nothing |
| ChartExport.CrashLeavesWholeFiles | apps/rbms-cli/src/chart_pattern.rs:95-106 | a run stopped at any moment leaves every pattern wholly old or wholly new |
| ChartExport.RunAfterACrash | apps/rbms-cli/src/chart_pattern.rs:95-106 | a run after one stopped at any moment leaves the very files an uninterrupted run would have left |
| ExportReport.CountsAre | apps/rbms-cli/src/chart_pattern.rs:158-199 | failures are the unreadable charts in order, other modes their number, duplicates the charts of the mode beyond the first of each md5, and written those first ones whose document was not there |
| ExportReport.ElsewhereIs | apps/rbms-cli/src/chart_pattern.rs:158-166 | the charts known to be of another mode are those read as one |
| ExportReport.FailsExactly | apps/rbms-cli/src/chart_pattern.rs:168-177 | a run fails exactly when a document it has to write cannot be written |
| ExportReport.FilesByName | apps/rbms-cli/src/chart_pattern.rs:95-106 | a chart's document is in `<md5>.json`, and where it was written its `.json.tmp` is gone |
| ExportReport.WorkersAreAsManyAsFit | apps/rbms-cli/src/chart_pattern.rs:112-117 | one worker a core, eight at most and no more than charts |
| AuthHandover.Shared.StartAuth | apps/rbms-player/src/app_network.rs:290-313 | a request is made, as the run's step has it, only with none in hand |
| AuthHandover.Shared.PollAuth | apps/rbms-player/src/app_network.rs:464-497 | taking the answer and dropping the request is the run's step: the session is given a token exactly when the request counts it as adopted, and no thread is handed the channel |
| AuthHandover.Shared.LetGoOfAuth | apps/rbms-player/src/app_network.rs:117-128 | dropping a request untaken is the run's step: its channel is handed to a thread exactly when one was in hand |
| AuthHandover.EveryTokenHasOneTaker | apps/rbms-player/src/app_network.rs:86-128 | in every run a token goes to at most one of the session and the revoke, and to exactly one once nobody holds its request |
| AuthHandover.TheHolderTakesIt | apps/rbms-player/src/app_network.rs:86-128 | in every run the session is given a token only of a request never let go of, and one is revoked only of a request that was |
| AuthHandover.TheWorkerIsHeard | apps/rbms-player/src/app_network.rs:108-114 | what is heard of a worker: nothing yet, its answer, or that it stopped |
| AuthHandover.NothingIsStuck | apps/rbms-player/src/app_network.rs:464-497 | whoever holds a request whose worker is done can finish it in one step |
| PaintBudget.Chunks | apps/rbms-player/src/assets.rs:171-182 | the jobs in order in at most as many chunks as workers, all but the last full |
| PaintBudget.HeldAsFarAsTheyFit | crates/rbms-render/src/skin_render/bga/pictures.rs:167-177 | the looks uploaded ahead stay within their allowance, and one whose size is known is left out exactly when it does not fit on top of those before it |
| PaintMeaning.ChunksAreAsShortAsTheyCan | apps/rbms-player/src/assets.rs:171 | the chunks are the shortest that fit the workers |
| PaintMeaning.LooksAreHeldInOrder | crates/rbms-render/src/skin_render/bga/pictures.rs:167-177 | a look is held exactly when its bytes are known and fit in the allowance with those held before it |
| PaintMeaning.CostsAreTheFiles | apps/rbms-player/src/assets.rs:428-446 | a look costs what its picture's file gives if the picture is shown, and nothing known otherwise |
| PaintBudget.PlanUploadsAhead | apps/rbms-player/src/assets.rs:428-456 | every job told which of its looks the upload ahead holds under its allowance |
| PaintBudget.PlannedExactly | apps/rbms-player/src/assets.rs:447-452 | a look is planned as uploaded ahead exactly when it is one of the held ones of its picture |
| PaintRuns.RoomIsKept | apps/rbms-player/src/assets.rs:468-488 | in every run room left, reserved and painted bytes come to the room there was |
| PaintRuns.NoLookIsHeldTwice | apps/rbms-player/src/assets.rs:473-485 | no look planned as uploaded ahead is painted |
| PaintRuns.TheAllowancesAreApart | apps/rbms-player/src/assets.rs:418-488 | in every run of planned jobs no look the upload ahead holds is painted, what it holds stays within its allowance and what is painted within its own |
| PaintMeaning.EveryLookIsPainted | apps/rbms-player/src/assets.rs:468-488 | in every run with room for all, a picture is sent with exactly the looks painted that it is shown in and that are not planned ahead |
| PaintMeaning.NothingIsBegunOnceCancelled | apps/rbms-player/src/assets.rs:183-198 | in every run, once it is cancelled no worker begins another picture |
| PaintRuns.EveryJobIsRunOnce | apps/rbms-player/src/assets.rs:183-198 | in a run not cancelled every job is tried once and the counter reaches their number |
| PaintRuns.NoWorkerIsStuck | apps/rbms-player/src/assets.rs:183-198 | in every run a worker that is not done can take its next step, whatever the others do |
| PaintRuns.StepsAreBounded | apps/rbms-player/src/assets.rs:183-198 | in every run a worker takes at most two steps for each of its jobs and two for each of their looks |
| PaintRuns.WorkersGetDone | apps/rbms-player/src/assets.rs:183-198 | a run in which no worker can go on is one whose workers are all done |
| StableSort.SortIsStable | apps/rbms-player/src/gamepad.rs:637 | what the library sort promises: sorted, the same entries, equal keys in their order |

## Left out

- The turntables' own machines (`analog.rs`) and turn counts: what a turntable direction reads is any value.
- `PadConfig::plan` from the bindings, device polling and the mapping of wall-clock stamps to instants: the plan and the instants are given.
- Axis values that are not numbers, and the keyboard's own clock type: the controller's integer clock is modelled.
- Mapper.PadMapper.Retune: does not model the turn counters it also resets, because they belong to `analog.rs`.
- Mapper.PadMapper.ReadTurntables: takes what each turntable direction reads as given, because counting turns belongs to `analog.rs`.
- Mapper.PadMapper.ResolveChanges: does not model turn counting, because it belongs to `analog.rs`; turntable readings are given with each poll.
- Disassembler.Dis: does not model operand text or the names of opcodes, because the text is not faithful in the program; an opcode's number stands for its name, and how deep calls may nest is a parameter.
- ClassFile.ParseFile: does not model how the bytes of a Utf8 entry are decoded or what the bytes of `num8` and method handles mean, because nothing else depends on them.
- PracticeSlice.SliceModel: does not model what a note sounds like beyond one value, because cutting only copies it.
- UploadRun: reading files, checking them locally, parsing answers and printing the summary are any outcome of a step.
- UploadRate.RateIsKept: takes sleeps that last at least as long as asked, because the clock is outside the program.
- The upload's command line, token lookup and `Retry-After` date parsing.
- Downloads.Shared.ApplyFinished: does not model the tables matched against the library or the list on screen, because only their generation decides what is taken in.
- Fetching and unpacking archives; path spellings: a path is its normalised components.
- Downloads.Shared.StartRefresh: does not model the worker thread, because what it comes back with is a parameter of a later look.
- PlaySettings.Shared.LayOutAsBorrowedFor: does not model notices and stage transitions, because they decide nothing here.
- The ghost of a kept run beyond one value, the course's own progress, gauges and long-note modes.
- PlaySettings.Shared.StartCourse: does not keep what was played of a course still standing, because that does not touch the settings.
- EnumReader.ReadConstants: takes what resolves ids and scopes as given, because those searches are lookups; bytes are characters.
- Finding an enum's declaration (`find_declaration`) and the generator's output.
- ChartExport.Export: leaves the failures in the order they came, because sorting them by path changes no count; the coverage summary is not written. A write that fails ends the run with an error, and what it leaves is as after a crash.
- ChartReading: reading and parsing a chart is any function of its path.
- AuthHandover: the rest of the session, the server rebuild and requests other than a login or register.
- PaintBudget.PlanUploadsAhead: takes the sizes the files give as a parameter, because the workers that read them only look each one up.
- Keysound and skin decoding, image decoding itself.
- Drawing, text catalogs, sound output, device polling, network clients, databases: input and output with nothing to prove.
- The ranking cache, ghost pace, profile rotation, favourites, option rows: easy members that would add nothing.
