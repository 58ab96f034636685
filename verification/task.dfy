/** The task record of src/Task.ts: reading a line into a task, the begin / finish / toggle
    state machine, and writing a task back as a line. Every update copies the record and
    overrides a few fields. The wall clock (`moment()`) is the parameter `now`, and the day a
    time of day is read on is the parameter `today`. */
module TaskModel {
  import opened Results
  import opened Text
  import opened Clock
  import opened StatusModel
  import opened CheckboxGrammar
  import CheckboxModel
  import opened TaskTimes

  datatype Task = Task(
    indentation: string,
    listMarker: string,
    statusSymbol: string,     // the symbol the line was read with; updates do not change it
    checkboxBody: string,     // everything after the checkbox, times included
    status: Status,
    start: Option<Moment>,
    end: Option<Moment>,
    taskBody: string)         // the body without its times

  /** What Task.parseCheckboxBody returns. */
  datatype BodyTimes = BodyTimes(start: Option<Moment>, end: Option<Moment>, body: string)

  /** `group ? parseTime(group) : undefined`. */
  function ParseGroup(group: Option<string>, today: int): (r: Result<Option<Moment>>)
    ensures r.Ok? <==> (group.Some? ==> ParseTime(group.value, today).Ok?)
    ensures r.Ok? ==> (r.value.Some? <==> group.Some?)
    ensures r.Ok? && group.Some? ==> r.value.value == ParseTime(group.value, today).value
    ensures r.Err? ==> r.error == InvalidTime
  {
    match group
    case None => Ok(None)
    case Some(s) =>
      var m :- ParseTime(s, today);
      Ok(Some(m))
  }

  /** The minutes of day `today`, midnight at its end included (moment reads `24:00`). */
  predicate OnDay(m: Moment, today: int) {
    today * MinutesPerDay <= m <= today * MinutesPerDay + MinutesPerDay
  }

  /** Task.parseCheckboxBody: the time groups of the trimmed body, each read as a time on
      day `today`. The time pattern always matches, so an invalid time is the only failure. */
  function ParseCheckboxBody(body: string, today: int): (r: Result<BodyTimes>)
    ensures var f := MatchTimes(Trim(body));
      r.Ok? <==> (f.start.Some? ==> ParseTime(f.start.value, today).Ok?) && (f.end.Some? ==> ParseTime(f.end.value, today).Ok?)
    ensures r.Ok? ==> r.value.body == MatchTimes(Trim(body)).taskBody
    ensures r.Err? ==> r.error == InvalidTime
    ensures r.Ok? ==> SingleLine(r.value.body) && |r.value.body| <= |body|
    ensures r.Ok? && r.value.start.Some? ==> OnDay(r.value.start.value, today)
    ensures r.Ok? && r.value.end.Some? ==> OnDay(r.value.end.value, today)
  {
    var f := MatchTimes(Trim(body));
    var start :- ParseGroup(f.start, today);
    var end :- ParseGroup(f.end, today);
    Ok(BodyTimes(start, end, f.taskBody))
  }

  /** The times of a body in terms of the shape of its trimmed text: for the groups `f` it
      reads as (there is exactly one such `f`), the body parses exactly when each group
      present is a valid time, and then its times are those times and its body the body
      group; otherwise the failure is an invalid time. An end time is present only if the
      body holds a dash. */
  lemma ParseCheckboxBodyGroups(body: string, today: int)
    ensures exists f :: TimesShape(Trim(body), f)
    ensures forall f | TimesShape(Trim(body), f) :: var r := ParseCheckboxBody(body, today);
      && (r.Ok? <==> ParseGroup(f.start, today).Ok? && ParseGroup(f.end, today).Ok?)
      && (r.Ok? ==> r.value == BodyTimes(ParseGroup(f.start, today).value, ParseGroup(f.end, today).value, f.taskBody))
      && (r.Ok? && f.start.Some? ==> ParseTime(f.start.value, today) == Ok(r.value.start.value))
      && (r.Ok? && f.end.Some? ==> ParseTime(f.end.value, today) == Ok(r.value.end.value))
      && (r.Err? ==> r.error == InvalidTime)
    ensures var r := ParseCheckboxBody(body, today);
      r.Ok? && r.value.end.Some? ==> exists i | 0 <= i < |Trim(body)| :: Trim(body)[i] == '-'
  {
    MatchTimesGroups(Trim(body));
  }

  /** Task.fromLine: split the line, look the symbol up, then read the times of the body.
      A line without the checkbox shape is NotATask, one with a symbol outside the four is
      UnknownStatusSymbol, and one whose body holds an invalid time is InvalidTime. */
  function FromLine(line: string, today: int): (r: Result<Task>)
    ensures r.Ok? ==> LineHasShape(Narrow, line, CheckboxParts(r.value.indentation, r.value.listMarker, r.value.statusSymbol, r.value.checkboxBody))
    ensures r.Ok? ==> Canonical(r.value.status) && r.value.status.symbol == r.value.statusSymbol
    ensures r.Ok? ==> ParseCheckboxBody(r.value.checkboxBody, today) == Ok(BodyTimes(r.value.start, r.value.end, r.value.taskBody))
    ensures r.Ok? ==> SingleLine(r.value.taskBody)
    ensures r.Err? && r.error == NotATask <==> forall p :: !LineHasShape(Narrow, line, p)
    ensures r.Err? && r.error.UnknownStatusSymbol? <==>
      exists p :: LineHasShape(Narrow, line, p) && p.statusSymbol !in Symbols
    ensures r.Err? && r.error == InvalidTime <==>
      exists p :: LineHasShape(Narrow, line, p) && p.statusSymbol in Symbols && ParseCheckboxBody(p.body, today).Err?
    ensures r.Err? ==> r.error == NotATask || r.error.UnknownStatusSymbol? || r.error == InvalidTime
  {
    SplitCharacterized(Narrow, line);
    var c :- CheckboxModel.FromLine(line);
    var times :- ParseCheckboxBody(c.body, today);
    Ok(Task(c.indentation, c.listMarker, c.statusSymbol, c.body, c.status, times.start, times.end, times.body))
  }

  /** Any line of the checkbox shape with one of the four symbols, whose trimmed body reads
      as groups that are valid times, is read into exactly those groups and times: the
      converse of the contract of `FromLine`. */
  lemma FromLineComplete(line: string, p: CheckboxParts, f: TimeFields, today: int)
    requires LineHasShape(Narrow, line, p) && p.statusSymbol in Symbols
    requires TimesShape(Trim(p.body), f)
    requires ParseGroup(f.start, today).Ok? && ParseGroup(f.end, today).Ok?
    ensures FromLine(line, today) == Ok(Task(p.indentation, p.listMarker, p.statusSymbol, p.body,
                                            FromSymbol(p.statusSymbol).value,
                                            ParseGroup(f.start, today).value, ParseGroup(f.end, today).value,
                                            f.taskBody))
  {
    CheckboxModel.FromLineComplete(line, p);
    MatchTimesGroups(Trim(p.body));
  }

  /** The example the source's tests give of a line that is not a task. */
  lemma InvalidLineExample(today: int)
    ensures FromLine("Invalid line", today) == Err(NotATask)
    ensures Message(FromLine("Invalid line", today).error) == "Line does not match task regex"
  {
    NarrowNeedsBullet("Invalid line");
  }

  /** Task.begin: the task is now in progress, started at `time` (or now) and not ended, and
      the whole checkbox body, times included, becomes the task body. */
  function Begin(t: Task, time: Option<Moment>, now: Moment): (r: Task)
    ensures r.status.statusType == DOING && Canonical(r.status)
    ensures r.start == Some(time.GetOr(now)) && r.end.None?
    ensures r.taskBody == t.checkboxBody
    ensures r.indentation == t.indentation && r.listMarker == t.listMarker
    ensures r.statusSymbol == t.statusSymbol && r.checkboxBody == t.checkboxBody
  {
    t.(status := MakeDoing(), start := Some(time.GetOr(now)), end := None, taskBody := t.checkboxBody)
  }

  /** Task.finish: the task is done, ended at `time` (or now); nothing else changes. */
  function Finish(t: Task, time: Option<Moment>, now: Moment): (r: Task)
    ensures r.status.statusType == DONE && Canonical(r.status)
    ensures r.end == Some(time.GetOr(now))
    ensures r.start == t.start && r.taskBody == t.taskBody
    ensures r.indentation == t.indentation && r.listMarker == t.listMarker
    ensures r.statusSymbol == t.statusSymbol && r.checkboxBody == t.checkboxBody
  {
    t.(status := MakeDone(), end := Some(time.GetOr(now)))
  }

  /** Task.toggle: a task to do is begun, a task in progress is finished, and a done or
      cancelled task is returned as it is. */
  function Toggle(t: Task, startTime: Option<Moment>, endTime: Option<Moment>, now: Moment): (r: Task)
    ensures t.status.statusType == TODO ==>
      && r.status == MakeDoing() && r.start == Some(startTime.GetOr(now)) && r.end.None?
      && r.taskBody == t.checkboxBody
    ensures t.status.statusType == DOING ==>
      && r.status == MakeDone() && r.start == t.start && r.end == Some(endTime.GetOr(now))
      && r.taskBody == t.taskBody
    ensures t.status.statusType in {DONE, CANCELLED} ==> r == t
    ensures r.indentation == t.indentation && r.listMarker == t.listMarker
    ensures r.statusSymbol == t.statusSymbol && r.checkboxBody == t.checkboxBody
  {
    match t.status.statusType
    case TODO => Begin(t, startTime, now)
    case DOING => Finish(t, endTime, now)
    case _ => t
  }

  /** On a task whose status is the one its type names, toggling a task to do or in progress
      moves it to the status its `nextStatusType` names; toggling never reaches CANCELLED
      or TODO. */
  lemma ToggleFollowsNext(t: Task, startTime: Option<Moment>, endTime: Option<Moment>, now: Moment)
    requires Canonical(t.status)
    ensures t.status.statusType in {TODO, DOING} ==>
      Toggle(t, startTime, endTime, now).status == FromType(t.status.nextStatusType)
    ensures Toggle(t, startTime, endTime, now).status.statusType != CANCELLED || t.status.statusType == CANCELLED
    ensures Toggle(t, startTime, endTime, now).status.statusType != TODO
            || Toggle(t, startTime, endTime, now) == t
  {
  }

  /** Toggling a task to do twice: it is done, started at the first time and ended at the
      second, its body is the original checkbox body, and a third toggle changes nothing. */
  lemma ToggleTwice(t: Task, s: Moment, e: Moment, now: Moment)
    requires t.status.statusType == TODO
    ensures var once := Toggle(t, Some(s), Some(e), now);
      var twice := Toggle(once, Some(s), Some(e), now);
      && once.status.statusType == DOING
      && twice.status == MakeDone()
      && twice.start == Some(s) && twice.end == Some(e)
      && twice.taskBody == t.checkboxBody
      && Toggle(twice, Some(s), Some(e), now) == twice
  {
  }

  /** The times of a task as text: `HH:mm` for each time that is present. */
  function TimeText(t: Task): (f: TimeFields)
    ensures f.start.Some? <==> t.start.Some?
    ensures f.end.Some? <==> t.end.Some?
    ensures f.start.Some? ==> |f.start.value| == 5 && ClockShape(f.start.value, 2)
    ensures f.end.Some? ==> |f.end.value| == 5 && ClockShape(f.end.value, 2)
    ensures f.taskBody == t.taskBody
  {
    TimeFields(
      if t.start.Some? then Some(FormatHHmm(t.start.value)) else None,
      if t.end.Some? then Some(FormatHHmm(t.end.value)) else None,
      t.taskBody)
  }

  /** Task.toString: the checkbox with the status's symbol, one space on each side of it,
      then the times and the task body. */
  function ToString(t: Task): string {
    Render(CheckboxParts(t.indentation, t.listMarker, t.status.symbol, RenderTimes(TimeText(t))), 1, 1)
  }

  /** The layout of Task.toString, piece by piece: the start, a dash only when both times
      are present, the end, and a space before the body only when some time is present. */
  lemma ToStringLayout(t: Task)
    ensures var start := if t.start.Some? then FormatHHmm(t.start.value) else "";
      var startEndSeparator := if t.start.Some? && t.end.Some? then "-" else "";
      var end := if t.end.Some? then FormatHHmm(t.end.value) else "";
      var bodySeparator := if t.start.Some? || t.end.Some? then " " else "";
      ToString(t) == t.indentation + t.listMarker + " [" + t.status.symbol + "] "
                     + start + startEndSeparator + end + bodySeparator + t.taskBody
  {
    assert Spaces(1) == " ";
  }

  /** A task that writes out and reads back unchanged: a whitespace indentation, a bullet,
      the canonical status of its type, times on day `today` with an end only after a start,
      and a body that the time pattern reads back as itself. */
  predicate WellFormedTask(t: Task, today: int) {
    && (forall i | 0 <= i < |t.indentation| :: IsWhitespace(t.indentation[i]))
    && IsListMarker(Narrow, t.listMarker)
    && Canonical(t.status)
    && (t.start.Some? ==> today * MinutesPerDay <= t.start.value < today * MinutesPerDay + MinutesPerDay)
    && (t.end.Some? ==> today * MinutesPerDay <= t.end.value < today * MinutesPerDay + MinutesPerDay)
    && (t.end.Some? ==> t.start.Some?)
    && SingleLine(t.taskBody)
    && (|t.taskBody| == 0 || (!IsWhitespace(t.taskBody[0]) && !IsWhitespace(t.taskBody[|t.taskBody| - 1])))
    && (t.start.None? ==> forall j | 0 <= j <= |t.taskBody| :: !IsClockToken(t.taskBody[..j]))
    && (t.end.None? && |t.taskBody| > 0 ==> t.taskBody[0] != '-')
  }

  /** A time of day written and read back on its own day is the same moment. */
  lemma FormatOnDay(m: Moment, today: int)
    requires today * MinutesPerDay <= m < today * MinutesPerDay + MinutesPerDay
    ensures IsClockToken(FormatHHmm(m))
    ensures ParseTime(FormatHHmm(m), today) == Ok(m)
  {
    FormatThenParse(m, today);
    TimeOfDay(m, today);
  }

  /** The times of a well-formed task are renderable. */
  lemma TimeTextRenderable(t: Task, today: int)
    requires WellFormedTask(t, today)
    ensures Renderable(TimeText(t))
  {
    if t.start.Some? {
      FormatOnDay(t.start.value, today);
    }
    if t.end.Some? {
      FormatOnDay(t.end.value, today);
    }
  }

  /** The written times of a well-formed task read back as its times. */
  lemma ParseWrittenTimes(t: Task, today: int)
    requires WellFormedTask(t, today)
    ensures ParseGroup(TimeText(t).start, today) == Ok(t.start)
    ensures ParseGroup(TimeText(t).end, today) == Ok(t.end)
  {
    if t.start.Some? {
      FormatOnDay(t.start.value, today);
    }
    if t.end.Some? {
      FormatOnDay(t.end.value, today);
    }
  }

  /** The checkbox body a well-formed task writes reads back as its times and body. */
  lemma ParseRenderedBody(t: Task, today: int)
    requires WellFormedTask(t, today)
    ensures ParseCheckboxBody(RenderTimes(TimeText(t)), today) == Ok(BodyTimes(t.start, t.end, t.taskBody))
  {
    var f := TimeText(t);
    TimeTextRenderable(t, today);
    RenderThenMatch(f);
    assert MatchTimes(Trim(RenderTimes(f))) == f;
    ParseWrittenTimes(t, today);
  }

  /** Written times and body form one line that starts with neither a space nor a line
      break. */
  lemma RenderTimesShape(f: TimeFields)
    requires Renderable(f)
    ensures SingleLine(RenderTimes(f))
    ensures |RenderTimes(f)| > 0 ==> !IsWhitespace(RenderTimes(f)[0])
  {
    var r := RenderTimes(f);
    var pre := TimesPrefix(f);
    if f.start.Some? {
      TokenEdges(f.start.value);
      assert SingleLine(f.start.value) by {
        var h := ColonAt(f.start.value);
      }
    }
    if f.end.Some? {
      assert SingleLine(f.end.value) by {
        var h := ColonAt(f.end.value);
      }
    }
    assert SingleLine(pre);
    assert r == pre + f.taskBody;
    assert forall i | 0 <= i < |r| :: r[i] == if i < |pre| then pre[i] else f.taskBody[i - |pre|];
  }

  /** The groups a well-formed task is written with. */
  function WrittenParts(t: Task): CheckboxParts {
    CheckboxParts(t.indentation, t.listMarker, t.status.symbol, RenderTimes(TimeText(t)))
  }

  /** Those groups are groups the narrow pattern produces, and the line is read back into
      them. */
  lemma WrittenPartsSplit(t: Task, today: int)
    requires WellFormedTask(t, today)
    ensures WellFormedParts(Narrow, WrittenParts(t))
    ensures Split(Narrow, ToString(t)) == Ok(WrittenParts(t))
  {
    var p := WrittenParts(t);
    TimeTextRenderable(t, today);
    RenderTimesShape(TimeText(t));
    SymbolBijection(t.status.statusType, t.status.statusType);
    assert forall i | 0 <= i < |p.indentation| :: InClass(IndentClass(Narrow), p.indentation[i]);
    assert WellFormedParts(Narrow, p);
    SplitComplete(Narrow, ToString(t), p, 1, 1);
  }

  /** Writing a well-formed task and reading the line back on the same day gives the task
      back, with the symbol of its status and the written checkbox body. */
  lemma ToStringThenFromLine(t: Task, today: int)
    requires WellFormedTask(t, today)
    ensures FromLine(ToString(t), today)
            == Ok(t.(statusSymbol := t.status.symbol, checkboxBody := RenderTimes(TimeText(t))))
  {
    WrittenPartsSplit(t, today);
    SymbolBijection(t.status.statusType, t.status.statusType);
    ParseRenderedBody(t, today);
  }

  /** Reading a written task and writing it again gives the same line. */
  lemma ToStringFixedPoint(t: Task, today: int)
    requires WellFormedTask(t, today)
    ensures FromLine(ToString(t), today).Ok?
    ensures ToString(FromLine(ToString(t), today).value) == ToString(t)
  {
    ToStringThenFromLine(t, today);
  }
}
