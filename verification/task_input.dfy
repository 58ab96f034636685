/** TaskInput of src/TaskInput.ts: the comma-separated reading of a task line, where the
    checkbox body is split at its commas and up to three leading fields are the start, the
    end and the duration, each an optional time with an optional `(estimate)`. */
module TaskInputModel {
  import opened Results
  import opened Text
  import opened StatusModel
  import opened CheckboxGrammar
  import opened Clock
  import opened TimeInput
  import opened CheckboxModel
  import opened Columns

  /** What parseCheckboxBody returns: the leading times (absent from the first field that
      is not a time column) and the task text after them. */
  datatype BodyColumns = BodyColumns(start: Option<TimeValue>, end: Option<TimeValue>, duration: Option<DurationValue>, task: string)

  function Times(b: BodyColumns): LeadingTimes {
    LeadingTimes(b.start, b.end, b.duration)
  }

  /** parseCheckboxBody. The task text is the fields after the leading times, re-joined with
      commas; when all three are times and nothing follows, it is empty. A body of one or two
      fields that are all time columns makes the source read a field that is not there. */
  function ParseCheckboxBody(body: string, today: int): (r: Result<BodyColumns>)
    ensures r.Ok? ==> (r.value.duration.Some? ==> r.value.end.Some?) && (r.value.end.Some? ==> r.value.start.Some?)
    ensures r.Ok? ==> var fields := SplitOn(body, ','); var k := Count(Times(r.value));
      && k <= |fields|
      && (forall j | 0 <= j < k :: Inputs(fields)[j].Some?)
      && (k < 3 ==> k < |fields| && Inputs(fields)[k].None?)
      && Times(r.value) == ReadColumns(Inputs(fields), k, today)
    ensures r.Ok? && r.value.start.None? ==> r.value.task == body
    ensures r.Ok? && r.value.start.Some? ==> var fields := SplitOn(body, ','); var k := Count(Times(r.value));
      k < |fields| ==> body == JoinWith(fields[..k], ',') + "," + r.value.task
    ensures r.Ok? && |SplitOn(body, ',')| == 3 && r.value.duration.Some? ==> r.value.task == ""
    ensures r.Err? ==> var fields := SplitOn(body, ',');
      && r.error == UndefinedField(|fields|) && |fields| < 3
      && forall j | 0 <= j < |fields| :: Inputs(fields)[j].Some?
  {
    var fields := SplitOn(body, ',');
    var rd :- ReadLeadingTimes(fields, today);
    JoinAround(fields, rd.count);
    Ok(BodyColumns(rd.times.start, rd.times.end, rd.times.duration, JoinWith(fields[rd.count..], ',')))
  }

  lemma JoinAround(fields: seq<string>, k: nat)
    ensures 0 < k < |fields| ==> JoinWith(fields, ',') == JoinWith(fields[..k], ',') + "," + JoinWith(fields[k..], ',')
  {
    if 0 < k < |fields| {
      JoinWithSplitAt(fields, k, ',');
    }
  }

  /** The task text splits into the fields that were not read as times. */
  lemma TaskFields(body: string, today: int)
    requires ParseCheckboxBody(body, today).Ok?
    ensures var fields := SplitOn(body, ','); var k := Count(Times(ParseCheckboxBody(body, today).value));
      k < |fields| ==> SplitOn(ParseCheckboxBody(body, today).value.task, ',') == fields[k..]
  {
    var fields := SplitOn(body, ',');
    var k := Count(Times(ParseCheckboxBody(body, today).value));
    if k < |fields| {
      SplitJoin(fields[k..], ',');
    }
  }

  /** A task read from a line: the checkbox's groups and status with the body's columns. */
  datatype TaskInput = TaskInput(
    indentation: string, listMarker: string, statusSymbol: string, status: Status,
    start: Option<TimeValue>, end: Option<TimeValue>, duration: Option<DurationValue>, body: string)

  /** TaskInput.fromLine: the checkbox is read first, so a line that is not a checkbox or has
      an unknown symbol fails before its body is looked at; each failure names the stage
      that failed. */
  function FromLine(line: string, today: int): (r: Result<TaskInput>)
    ensures r.Ok? ==> exists checkboxBody ::
      && LineHasShape(Narrow, line, CheckboxParts(r.value.indentation, r.value.listMarker, r.value.statusSymbol, checkboxBody))
      && ParseCheckboxBody(checkboxBody, today) == Ok(BodyColumns(r.value.start, r.value.end, r.value.duration, r.value.body))
    ensures r.Ok? ==> r.value.statusSymbol in Symbols && r.value.status == FromSymbol(r.value.statusSymbol).value
    ensures r.Err? && r.error == NotATask <==> forall p :: !LineHasShape(Narrow, line, p)
    ensures r.Err? && r.error.UnknownStatusSymbol? <==> exists p :: LineHasShape(Narrow, line, p) && p.statusSymbol !in Symbols
    ensures r.Err? && r.error.UndefinedField? <==>
      exists p :: LineHasShape(Narrow, line, p) && p.statusSymbol in Symbols && ParseCheckboxBody(p.body, today).Err?
    ensures r.Err? ==> r.error == NotATask || r.error.UnknownStatusSymbol? || r.error.UndefinedField?
  {
    SplitCharacterized(Narrow, line);
    var c :- CheckboxModel.FromLine(line);
    var b :- ParseCheckboxBody(c.body, today);
    Ok(TaskInput(c.indentation, c.listMarker, c.statusSymbol, c.status, b.start, b.end, b.duration, b.task))
  }

  /** The converse of the contract of `FromLine`: a checkbox line with a known symbol whose
      body reads without error gives exactly the checkbox's groups and the body's columns. */
  lemma FromLineComplete(line: string, p: CheckboxParts, today: int)
    requires LineHasShape(Narrow, line, p) && p.statusSymbol in Symbols
    requires ParseCheckboxBody(p.body, today).Ok?
    ensures var b := ParseCheckboxBody(p.body, today).value;
      FromLine(line, today) == Ok(TaskInput(p.indentation, p.listMarker, p.statusSymbol, FromSymbol(p.statusSymbol).value,
                                            b.start, b.end, b.duration, b.task))
  {
    CheckboxModel.FromLineComplete(line, p);
  }

  /** A time column written as a bare `H:M` token. */
  lemma ClockColumn(x: string)
    requires IsClockToken(x)
    ensures ParseTaskTimeInput(x) == Some(TimeInputText(Some(x), None))
  {
    WrittenExample(TimeInputText(Some(x), None), Gaps("", "", "", "", ""), x);
  }

  /** The fields of a body, from the parts it was written with. */
  lemma {:induction false} FieldsOf(parts: seq<string>, body: string)
    requires |parts| >= 1 && body == JoinWith(parts, ',')
    requires forall i | 0 <= i < |parts| :: ',' !in parts[i]
    ensures SplitOn(body, ',') == parts
  {
    SplitJoin(parts, ',');
  }

  /** Joining a first part before at least one more. */
  lemma JoinWithHead(x: string, ps: seq<string>)
    requires |ps| >= 1
    ensures JoinWith([x] + ps, ',') == x + "," + JoinWith(ps, ',')
  {
    assert ([x] + ps)[1..] == ps;
  }

  /** The fields of a body written as three commas-free parts and then more parts. */
  lemma ThreeFields(a: string, b: string, c: string, rest: seq<string>, body: string)
    requires ',' !in a && ',' !in b && ',' !in c && forall i | 0 <= i < |rest| :: ',' !in rest[i]
    requires |rest| >= 1 && body == a + "," + (b + "," + (c + "," + JoinWith(rest, ',')))
    ensures var fields := SplitOn(body, ',');
      |fields| == 3 + |rest| && fields[0] == a && fields[1] == b && fields[2] == c && fields[3..] == rest
  {
    var parts := [a] + ([b] + ([c] + rest));
    JoinWithHead(c, rest);
    JoinWithHead(b, [c] + rest);
    JoinWithHead(a, [b] + ([c] + rest));
    assert forall i | 0 <= i < |parts| :: ',' !in parts[i] by {
      forall i | 0 <= i < |parts| ensures ',' !in parts[i] {
        if i >= 3 {
          assert parts[i] == rest[i - 3];
        }
      }
    }
    FieldsOf(parts, body);
    assert parts[3..] == rest;
  }

  /** A body whose first three fields are time columns. */
  lemma LeadingThree(body: string, today: int, va: TimeInputText, vb: TimeInputText, vc: TimeInputText)
    requires var fields := SplitOn(body, ',');
      && |fields| >= 3 && ValidGroups(vc)
      && Inputs(fields)[0] == Some(va) && Inputs(fields)[1] == Some(vb) && Inputs(fields)[2] == Some(vc)
    ensures ParseCheckboxBody(body, today)
         == Ok(BodyColumns(Some(TimeColumn(va, today)), Some(TimeColumn(vb, today)), Some(DurationColumn(vc)),
                           JoinWith(SplitOn(body, ',')[3..], ',')))
  {
    var cols := Inputs(SplitOn(body, ','));
    forall j | 0 <= j < 3
      ensures cols[j].Some?
    {
      if j == 0 {
      } else if j == 1 {
      } else {
        assert j == 2;
      }
    }
    ReadLeadingTimesCount(SplitOn(body, ','), today, 3);
  }

  /** The first three inputs of fields whose first three are time columns. */
  lemma InputsOfThree(fields: seq<string>, va: TimeInputText, vb: TimeInputText, vc: TimeInputText)
    requires |fields| >= 3
    requires ParseTaskTimeInput(fields[0]) == Some(va) && ParseTaskTimeInput(fields[1]) == Some(vb)
    requires ParseTaskTimeInput(fields[2]) == Some(vc)
    ensures ValidGroups(vc)
    ensures Inputs(fields)[0] == Some(va) && Inputs(fields)[1] == Some(vb) && Inputs(fields)[2] == Some(vc)
  {
    InputsAt(fields, 0);
    InputsAt(fields, 1);
    InputsAt(fields, 2);
  }

  /** A body of three time columns followed by task text. */
  lemma ThreeColumns(a: string, b: string, c: string, rest: seq<string>, body: string, today: int,
                     va: TimeInputText, vb: TimeInputText, vc: TimeInputText)
    requires ParseTaskTimeInput(a) == Some(va) && ParseTaskTimeInput(b) == Some(vb) && ParseTaskTimeInput(c) == Some(vc)
    requires ',' !in a && ',' !in b && ',' !in c && forall i | 0 <= i < |rest| :: ',' !in rest[i]
    requires |rest| >= 1 && body == a + "," + (b + "," + (c + "," + JoinWith(rest, ',')))
    ensures ParseCheckboxBody(body, today)
         == Ok(BodyColumns(Some(TimeColumn(va, today)), Some(TimeColumn(vb, today)), Some(DurationColumn(vc)), JoinWith(rest, ',')))
  {
    ThreeFields(a, b, c, rest, body);
    InputsOfThree(SplitOn(body, ','), va, vb, vc);
    LeadingThree(body, today, va, vb, vc);
  }

  /** The fields of a body written as exactly three comma-free parts. */
  lemma ExactlyThreeFields(a: string, b: string, c: string, body: string)
    requires ',' !in a && ',' !in b && ',' !in c
    requires body == a + "," + (b + "," + c)
    ensures var fields := SplitOn(body, ',');
      |fields| == 3 && fields[0] == a && fields[1] == b && fields[2] == c && fields[3..] == []
  {
    var parts := [a] + ([b] + [c]);
    JoinWithHead(b, [c]);
    JoinWithHead(a, [b] + [c]);
    FieldsOf(parts, body);
  }

  /** A body of exactly three time columns: the task text is empty. */
  lemma OnlyThreeColumns(a: string, b: string, c: string, body: string, today: int,
                         va: TimeInputText, vb: TimeInputText, vc: TimeInputText)
    requires ParseTaskTimeInput(a) == Some(va) && ParseTaskTimeInput(b) == Some(vb) && ParseTaskTimeInput(c) == Some(vc)
    requires ',' !in a && ',' !in b && ',' !in c
    requires body == a + "," + (b + "," + c)
    ensures ParseCheckboxBody(body, today)
         == Ok(BodyColumns(Some(TimeColumn(va, today)), Some(TimeColumn(vb, today)), Some(DurationColumn(vc)), ""))
  {
    ExactlyThreeFields(a, b, c, body);
    InputsOfThree(SplitOn(body, ','), va, vb, vc);
    LeadingThree(body, today, va, vb, vc);
  }

  /** A body that is one time column and nothing else: the source reads a second field that
      does not exist. */
  lemma LoneTimeColumn(body: string, today: int, v: TimeInputText)
    requires ',' !in body && ParseTaskTimeInput(body) == Some(v)
    ensures ParseCheckboxBody(body, today) == Err(UndefinedField(1))
  {
    FieldsOf([body], body);
    InputsAt([body], 0);
    ReadLeadingTimesFails([body], today);
  }

  /** A body whose first field is not a time column has no times and is its own task
      text. */
  lemma NoLeadingTime(body: string, today: int)
    requires ParseTaskTimeInput(SplitOn(body, ',')[0]).None?
    ensures ParseCheckboxBody(body, today) == Ok(BodyColumns(None, None, None, body))
  {
    InputsAt(SplitOn(body, ','), 0);
    ReadLeadingTimesCount(SplitOn(body, ','), today, 0);
  }

  /** The pieces of the first example below. */
  lemma EmptyDurationShape(body: string)
    requires body == "12:05,14:25,,タイトル"
    ensures ',' !in "12:05" && ',' !in "14:25" && ',' !in "" && ',' !in "タイトル"
    ensures body == "12:05" + "," + ("14:25" + "," + ("" + "," + JoinWith(["タイトル"], ',')))
  {
  }

  lemma EmptyDurationColumns()
    ensures ParseTaskTimeInput("12:05") == Some(TimeInputText(Some("12:05"), None))
    ensures ParseTaskTimeInput("14:25") == Some(TimeInputText(Some("14:25"), None))
    ensures ParseTaskTimeInput("") == Some(TimeInputText(None, None))
  {
    assert ColonAt("12:05") == 2 && ColonAt("14:25") == 2;
    ClockColumn("12:05");
    ClockColumn("14:25");
    EmptyExample();
  }

  /** A test of the source: start and end, an empty duration column, then the title. */
  lemma EmptyDurationExample(body: string)
    requires body == "12:05,14:25,,タイトル"
    ensures ParseCheckboxBody(body, 0) == Ok(BodyColumns(
      Some(TimeValue(Some(LenientTime("12:05", 0)), None)),
      Some(TimeValue(Some(LenientTime("14:25", 0)), None)),
      Some(DurationValue(None, None)),
      "タイトル"))
  {
    EmptyDurationShape(body);
    EmptyDurationColumns();
    ThreeColumns("12:05", "14:25", "", ["タイトル"], body, 0,
      TimeInputText(Some("12:05"), None), TimeInputText(Some("14:25"), None), TimeInputText(None, None));
  }

  lemma NoonColumn()
    ensures ParseTaskTimeInput("12:00") == Some(TimeInputText(Some("12:00"), None))
  {
    assert ColonAt("12:00") == 2;
    ClockColumn("12:00");
  }

  lemma HalfPastTwoColumns()
    ensures ParseTaskTimeInput("14:30") == Some(TimeInputText(Some("14:30"), None))
    ensures ParseTaskTimeInput("2:30") == Some(TimeInputText(Some("2:30"), None))
  {
    assert ColonAt("14:30") == 2 && ColonAt("2:30") == 1;
    ClockColumn("14:30");
    ClockColumn("2:30");
  }

  lemma NoTitleShape(body: string)
    requires body == "12:00,14:30,2:30"
    ensures ',' !in "12:00" && ',' !in "14:30" && ',' !in "2:30"
    ensures body == "12:00" + "," + ("14:30" + "," + "2:30")
  {
  }

  /** `moment.duration("2:30")` is 150 minutes. */
  lemma TwoAndAHalfHours()
    ensures DurationColumn(TimeInputText(Some("2:30"), None)) == DurationValue(Some(150), None)
  {
    assert ColonAt("2:30") == 1;
    assert Hour("2:30") == 2 && Minute("2:30") == 30;
  }

  /** A test of the source: three time columns and nothing after them; the task is empty
      and the duration is 2 hours 30 minutes. */
  lemma NoTitleExample(body: string)
    requires body == "12:00,14:30,2:30"
    ensures ParseCheckboxBody(body, 0) == Ok(BodyColumns(
      Some(TimeValue(Some(LenientTime("12:00", 0)), None)),
      Some(TimeValue(Some(LenientTime("14:30", 0)), None)),
      Some(DurationValue(Some(150), None)),
      ""))
  {
    NoTitleShape(body);
    TwoAndAHalfHours();
    NoonColumn();
    HalfPastTwoColumns();
    OnlyThreeColumns("12:00", "14:30", "2:30", body, 0,
      TimeInputText(Some("12:00"), None), TimeInputText(Some("14:30"), None), TimeInputText(Some("2:30"), None));
  }

  /** A body that is one time column and nothing else makes the source read a second field
      that does not exist. */
  lemma StartOnlyFailsExample(body: string)
    requires body == "12:00"
    ensures ParseCheckboxBody(body, 0) == Err(UndefinedField(1))
  {
    NoonColumn();
    LoneTimeColumn(body, 0, TimeInputText(Some("12:00"), None));
  }

  /** A body that starts with text has no times and is its own task text. */
  lemma TitleOnlyExample(body: string)
    requires body == "タイトル"
    ensures ParseCheckboxBody(body, 0) == Ok(BodyColumns(None, None, None, "タイトル"))
  {
    FieldsOf([body], body);
    TextColumn(body);
    NoLeadingTime(body, 0);
  }
}
