# checkbox-time-tracker: the task-line core in Dafny

The plugin keeps time records on Markdown checkbox lines such as

    - [x] 10:00-12:00 Write report

This project models the part of it that works on one line at a time:

- **Status** (`src/Status.ts`): the four statuses, their checkbox symbols and the "next status" each one names.
- **Checkbox pattern** (`src/Checkbox.ts`, `src/Task.ts`, `src/TaskInput.ts`, `src/LineParser.ts`): the pattern that splits a line into indentation, list marker, status symbol and body. Four files carry the same pattern, so it is written once (`CheckboxGrammar`, the `Narrow` grammar). The wider variant in `src/TaskRegularExpressions.ts` also admits `>` in the indentation and numbered markers (the `Wide` grammar).
- **Task times** (`src/Task.ts`):
  - the time prefix of a task body: `start`, optional `-end`, then the task text;
  - reading a line into a `Task` and writing a `Task` back as a line;
  - the `begin` / `finish` / `toggle` state machine.
- **Auto-increment** (`src/operations.ts`): `toggleTask`, which moves an end time that falls in the start's minute one minute later when the setting is on.
- **Comma-separated columns** (`src/TaskInput.ts`, `src/LineParser.ts`): the older body format, where up to three leading columns hold a start, an end and a duration. Each column has the form `H:M`, `(H:M)` or `H:M(H:M)`.
- **Time utilities** (`src/utils.ts`): `parseTime` and `parseDuration`.

How the model represents the source:

- Every `throw` becomes an `Err` of `Results.Error`, carrying the source's message.
- Strings are sequences of code points. The checkbox patterns carry the `u` flag, so the `.` of the status symbol reads one code point. The time patterns have no `u` flag, but they name only ASCII digits, `:`, `-`, parentheses and whitespace, and their `.*` takes the rest of the line whole, so reading code points instead of UTF-16 units changes none of their groups.
- Each regular expression is a greedy scanner. The doc comments explain why no backtracking can change its groups.
- Each scanner is proved equal to a declarative description of its input, in both directions (what it reads has the shape, and whatever has the shape is read that way):
  - `LineHasShape` for the checkbox pattern;
  - `TimeInputShape` for a column;
  - `TimesShape` for the time prefix.
- Separately, `RenderThenMatch` proves that the time prefix `toString` writes for `Renderable` times reads back as those times.
- A moment is a whole number of minutes on one timeline.
- The wall clock (`moment()`) becomes a parameter `now`. The day that `moment(s, "HH:mm")` attaches a time of day to becomes a parameter `today`.

Points where the code behaves differently from what its names, comments or older tests suggest; the model follows the code:

- The DOING symbol is `*` (src/Status.ts:10). The `[/]` lines in src/Task.test.ts come from an older version.
- DONE names TODO as its next status (src/Status.ts:83-90).
- A done or cancelled task toggles to itself; there is no error for it (src/Task.ts:196-207).
- The plugin has one setting, `autoIncrementOnSameTime` (src/settings.ts:5).
- `Task.fromLine` is typed as returning `Task | undefined`, but for a line that is not a task it throws `Line does not match task regex` (src/Task.ts:127); it never returns `undefined`.
- `begin` does not check the current status. It copies the whole checkbox body, times included, into the task body, and it keeps the `statusSymbol` field the line was read with.

## Model

| member | source | states |
|---|---|---|
| StatusModel.MakeTodo | src/Status.ts:65-72 | a TODO status written ` `, named Todo, whose next status is DOING |
| StatusModel.MakeDoing | src/Status.ts:74-81 | a DOING status written `*`, named Doing, whose next status is DONE |
| StatusModel.MakeDone | src/Status.ts:83-90 | a DONE status written `x`, named Done, whose next status is TODO |
| StatusModel.MakeCancelled | src/Status.ts:92-99 | a CANCELLED status written `-`, named Cancelled, whose next status is TODO |
| StatusModel.FromType | src/Status.ts:35-48 | the status built for a type has that type and the symbol the StatusSymbol table gives it |
| StatusModel.FromSymbol | src/Status.ts:50-63 | succeeds exactly on the four table symbols; the status it returns carries the symbol it was given and is the canonical status of its type; any other string fails with `Unknown status symbol: <symbol>` |
| StatusModel.SymbolBijection | src/Status.ts:8-13 | the symbol table is one-to-one: no two types share a symbol, and looking a type's symbol up gives that type's status |
| StatusModel.FromSymbolRoundTrip | src/Status.ts:50-63 | a symbol that is accepted is the table symbol of the type it yields, and that type's status is the one returned |
| StatusModel.NextStatusCycle | src/Status.ts:65-99 | following next statuses goes TODO → DOING → DONE → TODO, and CANCELLED leads to TODO |
| StatusModel.UnknownSymbolExamples | src/Status.ts:60-61 | the legacy `/` and an upper-case `X` are unknown symbols, reported with the source's message |
| Clock.ParseTime | src/utils.ts:5-13 | accepts exactly a `\d{1,2}:\d{1,2}` string whose hour and minute moment accepts (24:00 included); the result is that many minutes into day `today`; anything else fails with the source's "Invalid time string" error |
| Clock.ParseDuration | src/utils.ts:15-22 | accepts exactly strings matching `^\d{1,2}:\d{1,2}$` and reads them as H hours plus M minutes, with no limit on M; anything else fails with the "Invalid duration string" error |
| Clock.LenientTime | src/TaskInput.ts:103-105 | `moment(s, "HH:mm")` without a validity check: valid exactly when `parseTime` of utils.ts would succeed, and then the same moment |
| Clock.FormatHHmm | src/Task.ts:210-212 | `format("HH:mm")` gives five characters, two zero-padded digits on each side of the colon, naming the time of day of the moment |
| Clock.FormatThenParse | src/Task.ts:210-212 | a formatted time is a clock token that parses back to the same time of day on the day it is parsed |
| Clock.ParseThenFormat | src/utils.ts:5-13 | a two-digit `HH:mm` string before midnight parses and formats back to itself |
| Clock.TimeOfDay | src/Task.ts:210-212 | a moment within day `today` is that day's start plus its time of day, the part `format("HH:mm")` shows |
| Clock.ClockTokenAt | src/Task.ts:46 | the greedy `\d{1,2}:\d{1,2}` at a position is a clock token that lies within the string, or nothing |
| Clock.ClockTokenAtLongest | src/Task.ts:46 | no longer clock token starts at that position, and when the scanner finds none, no clock token starts there at all |
| Clock.ClockTokenAtExact | src/Task.ts:46 | a clock token followed by a non-digit is matched in full |
| Clock.UtilsExamples | src/utils.test.ts:5-48 | `12:30` is 750 minutes into the day; `1:00` and `01:00` are 60-minute durations; non-time text is rejected by both parsers |
| Text.Trim | src/Task.ts:150 | `trim()` gives a slice of the input that starts after its leading whitespace and has whitespace at neither end |
| Text.TrimExact | src/Task.ts:150 | trimming a string whose whitespace prefix and suffix are known keeps exactly the part between them |
| Text.SplitOn | src/TaskInput.ts:118 | `split(",")` gives at least one field, no field holds a comma, and joining the fields with commas gives the input back |
| Text.SplitJoin | src/TaskInput.ts:118 | splitting a comma-join of comma-free fields gives those fields back |
| CheckboxGrammar.MarkerLength | src/TaskRegularExpressions.ts:7 | what the scanner measures at a position is a list marker: one of `-*+`, or, in the wide grammar, digits followed by `.` |
| CheckboxGrammar.Split | src/Task.ts:118-134 | the only failure is `Line does not match task regex` |
| CheckboxGrammar.LocateSound | src/Checkbox.ts:27-34 | the positions the scanner reports satisfy every piece of the pattern |
| CheckboxGrammar.LocateComplete | src/Checkbox.ts:27-34 | any positions that satisfy the pattern are the ones the scanner reports, so the greedy scan is the regular-expression match |
| CheckboxGrammar.SplitSound | src/Checkbox.ts:72-88 | every split's groups are well formed, and the line starts with their rendering with at least one space before `[`, up to its end or a line break |
| CheckboxGrammar.SplitComplete | src/Checkbox.ts:72-88 | every line that starts with such a rendering of well-formed groups splits into exactly those groups |
| CheckboxGrammar.SplitCharacterized | src/Task.ts:118-134 | the split succeeds with groups `p` exactly when the line has the checkbox shape with groups `p`, and fails exactly when it has no such shape |
| CheckboxGrammar.SplitRejoins | src/Task.ts:28-35 | on a one-line input the groups, with the skipped spaces, re-join to the whole line |
| CheckboxGrammar.SplitRendered | src/Task.ts:215 | a line written as `indent marker [s] body` splits back into its groups |
| CheckboxGrammar.NarrowNeedsBullet | src/Checkbox.ts:9-12 | a line that starts with neither whitespace nor one of `-*+` is not a task |
| CheckboxGrammar.BulletWithoutCheckbox | src/TaskInput.test.ts:26-31 | a bullet item without a checkbox, such as `- Task`, is not a task |
| TaskRegex.NarrowPartsAreWide | src/TaskRegularExpressions.ts:4-13 | every group the narrow pattern admits, the wide one admits too |
| TaskRegex.WideExtendsNarrow | src/TaskRegularExpressions.ts:22-29 | every line the narrow pattern splits, the wide one splits into the same groups |
| TaskRegex.QuotedTaskExample | src/TaskRegularExpressions.ts:4 | a task inside a block quote is read by the wide pattern and rejected by the narrow one |
| TaskRegex.NumberedTaskExample | src/TaskRegularExpressions.ts:7 | a task in a numbered list is read by the wide pattern and rejected by the narrow one |
| CheckboxModel.FromLine | src/Checkbox.ts:60-70 | a line without the checkbox shape fails with `Line does not match task regex`, and every line with it gets past the split; an unknown symbol fails with that symbol; on success the groups are the line's groups and the status is the one the symbol names |
| CheckboxModel.FromLineComplete | src/Checkbox.ts:42-58 | every checkbox line with a known symbol is read into exactly its groups and the status of its symbol |
| CheckboxModel.FromLineRejoins | src/Checkbox.ts:72-88 | the fields of a one-line checkbox re-join to the line |
| CheckboxModel.SplitExample | src/Checkbox.test.ts:6-15 | `  - [x] Example task` splits into `  `, `-`, `x` and `Example task` |
| CheckboxModel.FromLineExample | src/Checkbox.test.ts:6-15 | `  - [x] Example task` reads as a done task with those fields |
| CheckboxModel.NotATaskExample | src/Checkbox.test.ts:16-21 | `This is not a valid task` fails with `Line does not match task regex` |
| TimeInput.ParseTaskTimeInput | src/TaskInput.ts:85-101 | the groups a column yields are clock tokens |
| TimeInput.ParseSound | src/TaskInput.ts:88-89 | every column the scanner accepts is written `\s*` time `\s*` and optionally `(\s*` estimation `\s*)\s*`, with the groups it returns |
| TimeInput.ParseComplete | src/TaskInput.ts:88-89 | every column written that way, whatever its whitespace, is read back into its groups |
| TimeInput.ParseCharacterized | src/TaskInput.ts:85-101 | the scanner returns groups `v` exactly for the columns of that form with groups `v`, and null exactly for the strings of no such form |
| TimeInput.TimeExample | src/TaskInput.test.ts:66-71 | `12:05` is a time with no estimation |
| TimeInput.EstimationExample | src/TaskInput.test.ts:73-78 | `(12:00)` is an estimation with no time |
| TimeInput.BothExample | src/TaskInput.test.ts:80-85 | `12:05(12:00)` is a time with an estimation |
| TimeInput.EmptyExample | src/TaskInput.test.ts:87-92 | the empty column is a column with neither group |
| TimeInput.SpacedExample | src/TaskInput.test.ts:100-104 | whitespace around and inside the parentheses is allowed |
| TimeInput.TwoTimesExample | src/TaskInput.test.ts:106-110 | `12:00 12:00` is not a column |
| TimeInput.TextExample | src/TaskInput.test.ts:112-116 | text that is not a time is not a column |
| TimeInput.TextColumn | src/TaskInput.ts:88-89 | a field that starts with anything but whitespace, a digit or `(` (a title, say) is not a column |
| Columns.LeadingColumns | src/TaskInput.ts:120-162 | the number of leading fields read as times is the first field that is not a column, or three; running out of fields first is the read past the end of the array |
| Columns.LeadingColumnsUnique | src/TaskInput.ts:120-162 | that count is the only one the rule allows |
| Columns.LeadingColumnsFail | src/TaskInput.ts:137 | fewer than three fields, all of them columns, make the source read a field that is not there |
| Columns.ReadTime | src/TaskInput.ts:131-134 | a time group is read leniently; the moment is valid exactly when the strict parser accepts the group |
| Columns.ReadDuration | src/TaskInput.ts:164-168 | a duration group is read as the minutes the strict duration parser gives |
| Columns.TimeColumn | src/TaskInput.ts:130-135 | a start or end column keeps exactly the groups that are present |
| Columns.DurationColumn | src/TaskInput.ts:164-169 | a duration column keeps exactly the groups that are present |
| Columns.ReadColumns | src/TaskInput.ts:130-169 | the first column is the start, the second the end and the third the duration, and a value is present exactly when its column was read |
| Columns.ReadLeadingTimes | src/TaskInput.ts:118-177 | the leading times of split fields: how many fields were read and their values, or the read past the end |
| Columns.ReadLeadingTimesCount | src/TaskInput.ts:120-162 | conversely, the count is any number the stopping rule allows |
| Columns.ReadLeadingTimesFails | src/TaskInput.ts:137-154 | conversely, one or two fields that are all columns fail |
| TaskInputModel.ParseCheckboxBody | src/TaskInput.ts:111-177 | a start is read before an end, and an end before a duration; the times are the values of the leading columns; the task text is the rest of the body after the comma that follows them; a body with no time is its own task text; one or two all-time fields fail |
| TaskInputModel.TaskFields | src/TaskInput.ts:143-175 | the task text splits into exactly the fields that were not read as times |
| TaskInputModel.FromLine | src/TaskInput.ts:229-256 | the checkbox is read before the body, and each failure names the stage that failed: `Line does not match task regex` exactly when the line has no checkbox shape, an unknown symbol exactly when its symbol is not one of the four, and the read of a missing field exactly when the symbol is known and the body's columns fail; nothing else fails; on success the fields are the line's groups and the columns of its body |
| TaskInputModel.FromLineComplete | src/TaskInput.ts:229-256 | a checkbox line with a known symbol and a readable body gives exactly its groups, its status and its body's columns |
| TaskInputModel.ClockColumn | src/TaskInput.ts:88-89 | a bare `H:M` field is a column with that time and no estimation |
| TaskInputModel.ThreeColumns | src/TaskInput.ts:164-175 | three time columns followed by more fields give a start, an end, a duration and the comma-join of the rest |
| TaskInputModel.OnlyThreeColumns | src/TaskInput.ts:171-176 | exactly three time columns give all three times and an empty task text |
| TaskInputModel.LoneTimeColumn | src/TaskInput.ts:137 | a body that is a single time column fails with the read of a second field |
| TaskInputModel.NoLeadingTime | src/TaskInput.ts:120-128 | a body whose first field is not a column has no times and is its own task text |
| TaskInputModel.TwoAndAHalfHours | src/TaskInput.ts:107-109 | `moment.duration("2:30")` is 150 minutes |
| TaskInputModel.EmptyDurationExample | src/TaskInput.test.ts:201-220 | `12:05,14:25,,<title>` has a start, an end, an empty duration column and the title |
| TaskInputModel.NoTitleExample | src/TaskInput.test.ts:183-199 | `12:00,14:30,2:30` has all three times, a duration of 150 minutes and an empty task |
| TaskInputModel.StartOnlyFailsExample | src/TaskInput.ts:137 | the body `12:00` fails: the source reads a second field that does not exist |
| TaskInputModel.TitleOnlyExample | src/TaskInput.test.ts:681-690 | a body that is only a title has no times and is its own task |
| LineParserModel.ParseTask | src/LineParser.ts:124-194 | the body's fields are the fields read as times followed by the returned task fields, in order and with nothing lost; no start means all fields are task fields; one or two all-time fields fail |
| LineParserModel.AgreesWithTaskInput | src/LineParser.ts:124-194 | parseTask and parseCheckboxBody of TaskInput.ts fail on the same bodies with the same error and read the same times, and the comma-join of the task fields is the other's task text |
| LineParserModel.TaskFieldsHaveNoComma | src/LineParser.ts:131 | no task field holds a comma |
| TaskTimes.MatchTimes | src/Task.ts:44-51 | the match never fails; the text has the shape of the groups read: the longest clock token at the front (if any) as start, all whitespace, a dash if one comes next, after a dash all whitespace and the longest clock token there (if any) as end, all remaining whitespace, then a body that runs to the end of its line; without a dash there is no end and the body does not start with `-` |
| TaskTimes.MatchTimesGroups | src/Task.ts:44-51 | the start group is the longest clock token at the front, and is absent only when none is there; an end is read only after a dash; the body runs to the end of the line; and the groups read are the only groups the text has that shape for |
| TaskTimes.FitMatch | src/Task.ts:44-51 | a text that has the shape of some groups, with any whitespace in the gaps, reads as exactly those groups |
| TaskTimes.RenderThenMatch | src/Task.ts:209-220 | times and a body written as toString writes them, then trimmed, read back as the same times and body, whenever there is no end without a start and the body cannot be mistaken for a time or a dash |
| TaskTimes.RoundTripBodyOnly | src/Task.ts:213-218 | with no times the written body reads back as itself |
| TaskTimes.RoundTripStartOnly | src/Task.ts:210-218 | `start body` reads back as that start and body |
| TaskTimes.RoundTripStartEnd | src/Task.ts:210-218 | `start-end body` reads back as that start, end and body |
| TaskTimes.EndOnlyReadsAsStart | src/Task.ts:210-213 | an end time written without a start is read back as a start |
| TaskTimes.DashSwallowed | src/Task.ts:47-48 | a leading `- ` before a body with no time is consumed by the separator and lost from the body |
| TaskTimes.StartExample | src/Task.ts:41 | `10:00 task content` has start 10:00, no end and body `task content` |
| TaskTimes.StartEndExample | src/Task.ts:42 | `10:00-12:00 task content` has start 10:00, end 12:00 and body `task content` |
| TaskModel.ParseGroup | src/Task.ts:159-160 | an absent group stays absent; a present group is parsed, and only an invalid time fails |
| TaskModel.ParseCheckboxBody | src/Task.ts:145-163 | succeeds exactly when each time group of the trimmed body that is present is a valid time, and otherwise fails with `Invalid time string`; on success the body is the body group, one line no longer than the input, and the times fall on day `today` |
| TaskModel.ParseCheckboxBodyGroups | src/Task.ts:150-161 | the trimmed body has the time shape of exactly one set of groups; for those groups the body parses exactly when each present group is a valid time, and then gives the parsed times and the body group; otherwise it fails with an invalid time; an end appears only when the body holds a dash |
| TaskModel.FromLine | src/Task.ts:94-116 | fails with `Line does not match task regex` exactly when the line has no checkbox shape, with an unknown symbol exactly when its symbol is not one of the four, and with an invalid time exactly when it has a known symbol and its checkbox body does not parse; on success the fields are the line's groups, the status is canonical with the line's symbol, and the times and task body are what the checkbox body parses to |
| TaskModel.FromLineComplete | src/Task.ts:94-116 | every line of the checkbox shape with a known symbol whose trimmed body has the time shape of valid time groups is read into exactly those groups, the status of its symbol, the parsed times and the body group |
| TaskModel.InvalidLineExample | src/Task.test.ts:178-183 | `Invalid line` fails with `Line does not match task regex` |
| TaskModel.Begin | src/Task.ts:172-180 | the task is in progress from the given time or now, has no end, and its body is the full checkbox body; nothing else changes |
| TaskModel.Finish | src/Task.ts:188-194 | the task is done at the given time or now; its start and body are kept |
| TaskModel.Toggle | src/Task.ts:196-207 | a task to do is begun, a task in progress is finished, and a done or cancelled task is returned unchanged |
| TaskModel.ToggleFollowsNext | src/Task.ts:196-207 | toggling a task to do or in progress moves it to the status its `nextStatusType` names; toggling never produces CANCELLED, and produces TODO only by leaving the task as it was |
| TaskModel.ToggleTwice | src/Task.ts:196-207 | two toggles take a task to do to done with the first time as start and the second as end; a third toggle changes nothing |
| TaskModel.TimeText | src/Task.ts:210-212 | each time that is present is written as a five-character `HH:mm` clock token |
| TaskModel.ToStringLayout | src/Task.ts:209-220 | the line is the indentation, the marker, ` [symbol] `, the start, a dash only when both times are present, the end, a space only when some time is present, then the body |
| TaskModel.FormatOnDay | src/Task.ts:210-212 | a time written as `HH:mm` and read back on its own day is the same moment |
| TaskModel.ParseRenderedBody | src/Task.ts:145-163 | the checkbox body a well-formed task writes reads back as its times and body |
| TaskModel.WrittenPartsSplit | src/Task.ts:209-220 | the line toString writes has the checkbox shape and splits into the groups it was written from |
| TaskModel.ToStringThenFromLine | src/Task.ts:94-116 | reading a written well-formed task on the same day gives the task back, with its status's symbol and the written checkbox body |
| TaskModel.ToStringFixedPoint | src/Task.ts:209-220 | writing, reading and writing again gives the same line |
| Operations.ToggleTask | src/operations.ts:12-30 | a task to do becomes the canonical DOING status, starts at the given time or now, has no end, and takes the checkbox body as its body; a task in progress becomes the canonical DONE status and ends at the given time or now, or one minute after its start when the setting is on and the end falls in the start's minute, keeping its start and body; other tasks are unchanged; the indentation, marker, symbol and checkbox body are always kept |
| Operations.IncrementSeparatesStartAndEnd | src/operations.ts:19-28 | with the setting on, a task in progress is never finished at its start minute; with it off, it is finished exactly at the given end |
| Operations.SettingMattersOnlyOnSameMinute | src/operations.ts:19-22 | the two settings give different results exactly when finishing a task whose start is the end time |
| Operations.ToggleTaskPositiveDuration | src/operations.ts:19-28 | finishing a task in progress at or after its start: with the setting on it ends strictly after it started; with it off it may end at its start |
| Operations.StartIgnoresSetting | src/operations.ts:24-29 | a task to do starts the same way under either setting, and is not ended |
| Operations.SameMinuteExamples | src/operations.test.ts:63-115 | a task in progress since 10:00, finished at 10:00, ends at 10:01 with the setting on and at 10:00 with it off |

## Left out

- The Obsidian layer is not part of this model: `src/main.ts`, `src/commands.ts`, `src/LivePreview.ts` and `src/settings.ts` (the editor, commands, live preview and settings tab). It is host I/O and holds no task logic.
- The wall clock: `moment()` is the parameter `now`, and the day a time of day lands on is the parameter `today`.
- Time zones, dates and seconds: a moment is a count of minutes. `isSame(…, "minute")` is equality, and `add(1, "minutes")` is `+ 1`.
- Clock.ParseTime: accepts only the strict `\d{1,2}:\d{1,2}` spelling, because moment's forgiving parse of other spellings cannot be modelled without moment itself, and the task code only ever passes that shape.
- Clock.LenientTime: an invalid moment carries no value. The source keeps an invalid `Moment` object, and what it would later print is moment's internal behaviour.
- TaskInputModel.EmptyDurationExample: uses a one-field title instead of the test's three trailing fields, to keep the proof small. ThreeColumns covers any number of trailing fields.
- TaskInputModel.TitleOnlyExample: uses a one-field title instead of the test's three fields. NoLeadingTime covers any body whose first field is not a column.
- `Status.Doing()` and `Status.Done()`: where the source calls them, the model uses `makeDoing()` and `makeDone()`. `Status.ts` defines neither helper, so this is the reading under which the code can run at all.
- The `TaskComponents` types of `src/TaskInput.ts` and `src/LineParser.ts`: they are declared and never used.
- The constructors of `Task`, `Checkbox` and `TaskInput` as operations of their own; the datatypes' constructors stand for them. They do more than copy:
  - the `Checkbox` constructor looks its symbol up with `Status.fromSymbol`, which throws for an unknown symbol; `Checkbox.fromLine` is its only caller, and `CheckboxModel.FromLine` does that lookup and its error;
  - the `Task` constructor defaults a missing indentation to `""` and a missing list marker to `-`; every call in the core passes both, so the defaults never apply.
- The `splitCheckbox` and `parseCheckboxComponents` functions of `TaskInput.ts` and `LineParser.ts`, and `Task.splitCheckbox`: the same pattern and the same steps as `Checkbox.splitCheckbox` and `Checkbox.fromLine`. They are `CheckboxGrammar.Split` and `CheckboxModel.FromLine`.
- Tests written for older versions of the classes: the toggle and toString tests of `src/Task.test.ts` (`toggle(false)`, `content`, `fact`/`plan`, comma-separated output), the `result.content` tests of `src/TaskInput.test.ts`, and the `[/]` lines. They exercise fields and behaviour the present code does not have; the model follows the code.
- `duplicateTask`, `endTask`, `parseLine` and `formatTask`, which src/commands.ts calls on the task operations: they do not exist in src/operations.ts, whose only operation is `toggleTask`, so there is no code to model.
