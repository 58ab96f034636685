/** parseTask of src/LineParser.ts: the same comma-separated reading as parseCheckboxBody of
    src/TaskInput.ts, except that the task text is returned as the list of remaining fields
    instead of being re-joined. */
module LineParserModel {
  import opened Results
  import opened Text
  import opened TimeInput
  import opened Columns
  import TaskInputModel

  /** What parseTask returns: the leading times and the fields after them. */
  datatype ParsedTask = ParsedTask(start: Option<TimeValue>, end: Option<TimeValue>, duration: Option<DurationValue>, task: seq<string>)

  function Times(t: ParsedTask): LeadingTimes {
    LeadingTimes(t.start, t.end, t.duration)
  }

  /** parseTask: the fields of the body are the fields read as times followed by the task
      fields, in order and with nothing lost. */
  function ParseTask(body: string, today: int): (r: Result<ParsedTask>)
    ensures r.Ok? ==> (r.value.duration.Some? ==> r.value.end.Some?) && (r.value.end.Some? ==> r.value.start.Some?)
    ensures r.Ok? ==> var fields := SplitOn(body, ','); var k := Count(Times(r.value));
      && k <= |fields|
      && r.value.task == fields[k..]
      && (forall j | 0 <= j < k :: Inputs(fields)[j].Some?)
      && (k < 3 ==> k < |fields| && Inputs(fields)[k].None?)
      && Times(r.value) == ReadColumns(Inputs(fields), k, today)
    ensures r.Ok? && r.value.start.None? ==> r.value.task == SplitOn(body, ',')
    ensures r.Err? ==> var fields := SplitOn(body, ',');
      && r.error == UndefinedField(|fields|) && |fields| < 3
      && forall j | 0 <= j < |fields| :: Inputs(fields)[j].Some?
  {
    var fields := SplitOn(body, ',');
    var rd :- ReadLeadingTimes(fields, today);
    Ok(ParsedTask(rd.times.start, rd.times.end, rd.times.duration, fields[rd.count..]))
  }

  /** The two readings of a body agree: they fail on the same bodies, read the same times,
      and the re-joined task fields of this one are the task text of the other. */
  lemma AgreesWithTaskInput(body: string, today: int)
    ensures ParseTask(body, today).Ok? <==> TaskInputModel.ParseCheckboxBody(body, today).Ok?
    ensures ParseTask(body, today).Err? ==> ParseTask(body, today).error == TaskInputModel.ParseCheckboxBody(body, today).error
    ensures ParseTask(body, today).Ok? ==>
      var t := ParseTask(body, today).value; var b := TaskInputModel.ParseCheckboxBody(body, today).value;
      && t.start == b.start && t.end == b.end && t.duration == b.duration
      && JoinWith(t.task, ',') == b.task
  {
  }

  /** The task fields contain no comma: every comma of the body separates two fields. */
  lemma TaskFieldsHaveNoComma(body: string, today: int)
    requires ParseTask(body, today).Ok?
    ensures forall i | 0 <= i < |ParseTask(body, today).value.task| :: ',' !in ParseTask(body, today).value.task[i]
  {
    var fields := SplitOn(body, ',');
    var t := ParseTask(body, today).value;
    var k := Count(Times(t));
    forall i | 0 <= i < |t.task|
      ensures ',' !in t.task[i]
    {
      assert t.task[i] == fields[k + i];
    }
  }
}
