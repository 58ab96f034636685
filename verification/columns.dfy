/** The leading time columns of the older comma-separated body format, shared by
    parseCheckboxBody of src/TaskInput.ts and parseTask of src/LineParser.ts: the body is
    split at every comma, and up to three leading fields that are time columns are read as
    the start, the end and the duration. */
module Columns {
  import opened Results
  import opened Text
  import opened Clock
  import opened TimeInput

  /** Every field matched against the time-input pattern, in order (see `InputsAt`). */
  function Inputs(fields: seq<string>): (r: seq<Option<TimeInputText>>)
    ensures |r| == |fields|
    ensures forall j | 0 <= j < |r| && r[j].Some? :: ValidGroups(r[j].value)
  {
    if |fields| == 0 then [] else [ParseTaskTimeInput(fields[0])] + Inputs(fields[1..])
  }

  lemma {:induction false} InputsAt(fields: seq<string>, j: nat)
    requires j < |fields|
    ensures Inputs(fields)[j] == ParseTaskTimeInput(fields[j])
  {
    if j > 0 {
      InputsAt(fields[1..], j - 1);
      assert fields[1..][j - 1] == fields[j];
    }
  }

  /** How many inputs from `i` on, up to the third in all, are time columns. The source
      reads the next field before it knows the array holds one: reading past the end hands
      `undefined` to the matcher, which throws; that is UndefinedField. */
  function LeadingColumns(cols: seq<Option<TimeInputText>>, i: nat): (r: Result<nat>)
    requires i <= 3 && i <= |cols|
    ensures r.Ok? ==> i <= r.value <= 3 && r.value <= |cols|
    ensures r.Ok? ==> forall j | i <= j < r.value :: cols[j].Some?
    ensures r.Ok? && r.value < 3 ==> r.value < |cols| && cols[r.value].None?
    ensures r.Err? ==> r.error == UndefinedField(|cols|) && |cols| < 3
    ensures r.Err? ==> forall j | i <= j < |cols| :: cols[j].Some?
    decreases 3 - i
  {
    if i == 3 then Ok(3)
    else if i == |cols| then Err(UndefinedField(i))
    else if cols[i].None? then Ok(i)
    else LeadingColumns(cols, i + 1)
  }

  /** The count is the only one the contract allows: the first input that is not a time
      column, or three. */
  lemma {:induction false} LeadingColumnsUnique(cols: seq<Option<TimeInputText>>, i: nat, k: nat)
    requires i <= 3 && i <= |cols| && i <= k <= 3 && k <= |cols|
    requires forall j | i <= j < k :: cols[j].Some?
    requires k < 3 ==> k < |cols| && cols[k].None?
    ensures LeadingColumns(cols, i) == Ok(k)
    decreases 3 - i
  {
    if i < k {
      LeadingColumnsUnique(cols, i + 1, k);
    }
  }

  /** Fewer than three inputs, every one a time column, is the only way to fail. */
  lemma {:induction false} LeadingColumnsFail(cols: seq<Option<TimeInputText>>, i: nat)
    requires i <= 3 && i <= |cols| < 3
    requires forall j | i <= j < |cols| :: cols[j].Some?
    ensures LeadingColumns(cols, i) == Err(UndefinedField(|cols|))
    decreases 3 - i
  {
    if i < |cols| {
      LeadingColumnsFail(cols, i + 1);
    }
  }

  /** A time column's groups as values: `moment(group, "HH:mm")`, with no validity check. */
  datatype TimeValue = TimeValue(time: Option<ParsedMoment>, estimation: Option<ParsedMoment>)

  /** A duration column's groups as values: `moment.duration(group)`, in minutes. */
  datatype DurationValue = DurationValue(time: Option<nat>, estimation: Option<nat>)

  /** The start, end and duration the leading columns give; absent (the source's null)
      from the first column that is not read. */
  datatype LeadingTimes = LeadingTimes(start: Option<TimeValue>, end: Option<TimeValue>, duration: Option<DurationValue>)

  function ReadTime(g: Option<string>, today: int): (r: Option<ParsedMoment>)
    ensures r.Some? <==> g.Some?
    ensures r.Some? ==> (r.value.ValidMoment? <==> ParseTime(g.value, today).Ok?)
  {
    match g
    case Some(s) => Some(LenientTime(s, today))
    case None => None
  }

  /** `moment.duration("H:M")` of a clock token: H hours and M minutes. */
  function ReadDuration(g: Option<string>): (r: Option<nat>)
    requires g.Some? ==> IsClockToken(g.value)
    ensures r.Some? <==> g.Some?
    ensures r.Some? ==> ParseDuration(g.value) == Ok(r.value)
  {
    match g
    case Some(s) => Some(Hour(s) * 60 + Minute(s))
    case None => None
  }

  /** A time column read as the start or the end. */
  function TimeColumn(v: TimeInputText, today: int): (r: TimeValue)
    ensures r.time.Some? <==> v.time.Some?
    ensures r.estimation.Some? <==> v.estimation.Some?
  {
    TimeValue(ReadTime(v.time, today), ReadTime(v.estimation, today))
  }

  /** A time column read as the duration. */
  function DurationColumn(v: TimeInputText): (r: DurationValue)
    requires ValidGroups(v)
    ensures r.time.Some? <==> v.time.Some?
    ensures r.estimation.Some? <==> v.estimation.Some?
  {
    DurationValue(ReadDuration(v.time), ReadDuration(v.estimation))
  }

  /** The values of the first `k` inputs. */
  function ReadColumns(cols: seq<Option<TimeInputText>>, k: nat, today: int): (r: LeadingTimes)
    requires k <= 3 && k <= |cols|
    requires forall j | 0 <= j < k :: cols[j].Some? && ValidGroups(cols[j].value)
    ensures r.start.Some? <==> k >= 1
    ensures r.end.Some? <==> k >= 2
    ensures r.duration.Some? <==> k >= 3
    ensures k >= 1 ==> r.start == Some(TimeColumn(cols[0].value, today))
    ensures k >= 2 ==> r.end == Some(TimeColumn(cols[1].value, today))
    ensures k >= 3 ==> r.duration == Some(DurationColumn(cols[2].value))
  {
    LeadingTimes(
      if k >= 1 then Some(TimeColumn(cols[0].value, today)) else None,
      if k >= 2 then Some(TimeColumn(cols[1].value, today)) else None,
      if k >= 3 then Some(DurationColumn(cols[2].value)) else None)
  }

  /** The number of columns a result holds. */
  function Count(t: LeadingTimes): nat {
    if t.duration.Some? then 3 else if t.end.Some? then 2 else if t.start.Some? then 1 else 0
  }

  /** The fields of a body read up to its task text: how many of them were read as times,
      and their values. */
  datatype Reading = Reading(count: nat, times: LeadingTimes)

  /** The leading times of a body split at its commas: the first field that does not have
      the time-input form ends them, and so does the third. */
  function ReadLeadingTimes(fields: seq<string>, today: int): (r: Result<Reading>)
    requires |fields| >= 1
    ensures r.Ok? ==> r.value.count <= 3 && r.value.count <= |fields| && Count(r.value.times) == r.value.count
    ensures r.Ok? ==> forall j | 0 <= j < r.value.count :: Inputs(fields)[j].Some?
    ensures r.Ok? && r.value.count < 3 ==> r.value.count < |fields| && Inputs(fields)[r.value.count].None?
    ensures r.Ok? ==> r.value.times == ReadColumns(Inputs(fields), r.value.count, today)
    ensures r.Err? ==>
      && r.error == UndefinedField(|fields|) && |fields| < 3
      && forall j | 0 <= j < |fields| :: Inputs(fields)[j].Some?
  {
    var cols := Inputs(fields);
    match LeadingColumns(cols, 0)
    case Err(e) => Err(e)
    case Ok(k) => Ok(Reading(k, ReadColumns(cols, k, today)))
  }

  /** The converse of `ReadLeadingTimes`' contract: the count is the first field that is
      not a time column, or three. */
  lemma ReadLeadingTimesCount(fields: seq<string>, today: int, k: nat)
    requires k <= 3 && k <= |fields| && |fields| >= 1
    requires forall j | 0 <= j < k :: Inputs(fields)[j].Some?
    requires k < 3 ==> k < |fields| && Inputs(fields)[k].None?
    ensures ReadLeadingTimes(fields, today).Ok? && ReadLeadingTimes(fields, today).value.count == k
  {
    LeadingColumnsUnique(Inputs(fields), 0, k);
  }

  /** The converse of the error clause: fewer than three fields, all of them time columns,
      fail. */
  lemma ReadLeadingTimesFails(fields: seq<string>, today: int)
    requires 1 <= |fields| < 3
    requires forall j | 0 <= j < |fields| :: Inputs(fields)[j].Some?
    ensures ReadLeadingTimes(fields, today) == Err(UndefinedField(|fields|))
  {
    LeadingColumnsFail(Inputs(fields), 0);
  }
}
