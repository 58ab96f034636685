/** Times of day as the task lines write them (`H:M`, one or two digits each), and the
    two parsers of src/utils.ts. A moment is a whole number of minutes on a fixed
    timeline; "today" is passed in as a day number instead of being read from a clock. */
module Clock {
  import opened Results
  import opened Text

  /** Minutes since the start of day 0. */
  type Moment = int

  const MinutesPerDay: int := 1440

  /** The hours and minutes moment accepts under the `HH:mm` format; 24:00 is accepted and
      means midnight at the end of the day. */
  predicate ValidTime(h: int, m: int) {
    (0 <= h < 24 && 0 <= m < 60) || (h == 24 && m == 0)
  }

  /** `t[from..to]` is one or two decimal digits. */
  predicate DigitsAt(t: string, from: nat, to: nat)
    requires from < to <= |t|
  {
    && to - from <= 2
    && IsDigit(t[from])
    && (to - from == 2 ==> IsDigit(t[from + 1]))
  }

  /** `t` is `\d{1,2}:\d{1,2}` with the colon after `h` digits. */
  predicate ClockShape(t: string, h: nat) {
    && 1 <= h <= 2
    && h + 2 <= |t| <= h + 3
    && DigitsAt(t, 0, h)
    && t[h] == ':'
    && DigitsAt(t, h + 1, |t|)
  }

  /** The whole of `t` matches `\d{1,2}:\d{1,2}`. */
  predicate IsClockToken(t: string) {
    ClockShape(t, 1) || ClockShape(t, 2)
  }

  function DigitValue(c: char): nat
    requires IsDigit(c)
  {
    (c as int) - ('0' as int)
  }

  function DigitChar(d: nat): (c: char)
    requires d < 10
    ensures IsDigit(c) && DigitValue(c) == d
  {
    (('0' as int) + d) as char
  }

  /** The value of the one or two digits `t[from..to]`. */
  function Number(t: string, from: nat, to: nat): nat
    requires from < to <= |t| && DigitsAt(t, from, to)
  {
    if to - from == 1 then DigitValue(t[from]) else 10 * DigitValue(t[from]) + DigitValue(t[from + 1])
  }

  /** Position of the colon in a clock token. */
  function ColonAt(t: string): (h: nat)
    requires IsClockToken(t)
    ensures ClockShape(t, h)
  {
    if t[1] == ':' then 1 else 2
  }

  function Hour(t: string): nat
    requires IsClockToken(t)
  {
    Number(t, 0, ColonAt(t))
  }

  function Minute(t: string): nat
    requires IsClockToken(t)
  {
    Number(t, ColonAt(t) + 1, |t|)
  }

  /** A clock token starts and ends with a digit. */
  lemma TokenEdges(s: string)
    requires IsClockToken(s)
    ensures IsDigit(s[0]) && IsDigit(s[|s| - 1])
  {
    var h := ColonAt(s);
  }

  /** A clock token is three to five characters long. */
  lemma TokenLength(s: string)
    requires IsClockToken(s)
    ensures 3 <= |s| <= 5
  {
    var h := ColonAt(s);
  }

  /** Length of the greedy match of `\d{1,2}:\d{1,2}` at position `i`, or 0 when it does not
      match there. Backtracking cannot give a different match: fewer hour digits would put a
      digit where the colon must be, and the minute digits are the last thing the token holds. */
  function ClockTokenAt(s: string, i: nat): (n: nat)
    requires i <= |s|
    ensures n == 0 || (3 <= n <= 5 && i + n <= |s| && IsClockToken(s[i..i + n]))
  {
    var d := Span(s, i, Digit);
    if d < 1 || d > 2 || i + d == |s| || s[i + d] != ':' then
      0
    else
      var e := Span(s, i + d + 1, Digit);
      var n := if e == 0 then 0 else d + 1 + (if e < 2 then e else 2);
      SpanMembers(s, i, Digit);
      SpanMembers(s, i + d + 1, Digit);
      assert n > 0 ==> ClockShape(s[i..i + n], d);
      n
  }

  /** The greedy token is the longest clock token at `i`, and when there is none no
      clock token starts at `i`. */
  lemma ClockTokenAtLongest(s: string, i: nat)
    requires i <= |s|
    ensures forall j | i + ClockTokenAt(s, i) < j <= |s| :: !IsClockToken(s[i..j])
    ensures ClockTokenAt(s, i) == 0 ==> forall j | i <= j <= |s| :: !IsClockToken(s[i..j])
  {
    var n := ClockTokenAt(s, i);
    forall j | i <= j <= |s| && IsClockToken(s[i..j])
      ensures i + n >= j && n > 0
    {
      var t := s[i..j];
      var h := ColonAt(t);
      assert forall q | 0 <= q < h :: s[i + q] == t[q];
      var d := Span(s, i, Digit);
      SpanUnique(s, i, Digit, h);
      var e := Span(s, i + d + 1, Digit);
      assert forall q | h + 1 <= q < |t| :: s[i + q] == t[q] && IsDigit(t[q]);
      assert e >= |t| - h - 1;
    }
  }

  /** A clock token followed by something other than a digit is matched exactly. */
  lemma ClockTokenAtExact(s: string, i: nat, t: string)
    requires IsClockToken(t)
    requires i + |t| <= |s| && s[i..i + |t|] == t
    requires i + |t| == |s| || !IsDigit(s[i + |t|])
    ensures ClockTokenAt(s, i) == |t|
  {
    var n := ClockTokenAt(s, i);
    ClockTokenAtLongest(s, i);
    assert n != 0;
    var h := ColonAt(t);
    var d := Span(s, i, Digit);
    assert forall q | 0 <= q < |t| :: s[i + q] == t[q];
    SpanUnique(s, i, Digit, h);
    SpanUnique(s, i + h + 1, Digit, |t| - h - 1);
  }

  /** utils.parseTime: the time `s` names on day `today`, or InvalidTime. Only the strict
      `\d{1,2}:\d{1,2}` spelling is accepted (the task code only ever passes that shape). */
  function ParseTime(s: string, today: int): (r: Result<Moment>)
    ensures r.Ok? <==> IsClockToken(s) && ValidTime(Hour(s), Minute(s))
    ensures r.Ok? ==> r.value - today * MinutesPerDay == Hour(s) * 60 + Minute(s)
    ensures r.Err? ==> r.error == InvalidTime
  {
    if IsClockToken(s) && ValidTime(Hour(s), Minute(s)) then
      Ok(today * MinutesPerDay + Hour(s) * 60 + Minute(s))
    else
      Err(InvalidTime)
  }

  /** A moment created by a moment parse that may be invalid (`isValid()` false). */
  datatype ParsedMoment = ValidMoment(at: Moment) | InvalidMoment

  /** `moment(s, "HH:mm")` without the validity check, as TaskInput.ts and LineParser.ts use it. */
  function LenientTime(s: string, today: int): (r: ParsedMoment)
    ensures r.ValidMoment? <==> ParseTime(s, today).Ok?
    ensures r.ValidMoment? ==> r.at == ParseTime(s, today).value
  {
    match ParseTime(s, today)
    case Ok(m) => ValidMoment(m)
    case Err(_) => InvalidMoment
  }

  /** utils.parseDuration: minutes of an `H:M` duration; anything not matching
      `^\d{1,2}:\d{1,2}$` is InvalidDuration. Minutes are not limited to 59. */
  function ParseDuration(s: string): (r: Result<nat>)
    ensures r.Ok? <==> IsClockToken(s)
    ensures r.Ok? ==> r.value == Hour(s) * 60 + Minute(s)
    ensures r.Err? ==> r.error == InvalidDuration
  {
    if IsClockToken(s) then Ok(Hour(s) * 60 + Minute(s)) else Err(InvalidDuration)
  }

  /** moment.format("HH:mm"): the time of day of `t`, both parts zero padded to two digits. */
  function FormatHHmm(t: Moment): (s: string)
    ensures |s| == 5 && ClockShape(s, 2)
    ensures Number(s, 0, 2) * 60 + Number(s, 3, 5) == t % MinutesPerDay
  {
    var d := t % MinutesPerDay;
    var h := d / 60;
    var m := d % 60;
    [DigitChar(h / 10), DigitChar(h % 10), ':', DigitChar(m / 10), DigitChar(m % 10)]
  }

  /** A moment within a day is that day's start plus its remainder. */
  lemma TimeOfDay(m: Moment, today: int)
    requires today * MinutesPerDay <= m < today * MinutesPerDay + MinutesPerDay
    ensures m % MinutesPerDay == m - today * MinutesPerDay
  {
    var q := m / MinutesPerDay;
    assert m == q * MinutesPerDay + m % MinutesPerDay;
    assert (q - today) * MinutesPerDay == q * MinutesPerDay - today * MinutesPerDay;
  }

  /** The formatted time reads back as the same time of day, on the day it is parsed. */
  lemma FormatThenParse(t: Moment, today: int)
    ensures IsClockToken(FormatHHmm(t))
    ensures Hour(FormatHHmm(t)) * 60 + Minute(FormatHHmm(t)) == t % MinutesPerDay
    ensures ParseTime(FormatHHmm(t), today) == Ok(today * MinutesPerDay + t % MinutesPerDay)
  {
    var s := FormatHHmm(t);
    assert ColonAt(s) == 2;
  }

  lemma DigitCharValue(c: char)
    requires IsDigit(c)
    ensures DigitChar(DigitValue(c)) == c
  {
  }

  /** A two-digit valid time before midnight is reproduced exactly by parse and format. */
  lemma ParseThenFormat(s: string, today: int)
    requires ClockShape(s, 2) && |s| == 5
    requires Hour(s) < 24 && Minute(s) < 60
    ensures ParseTime(s, today).Ok?
    ensures FormatHHmm(ParseTime(s, today).value) == s
  {
    assert ColonAt(s) == 2;
    var m := ParseTime(s, today).value;
    var hm := Hour(s) * 60 + Minute(s);
    assert m % MinutesPerDay == hm;
    assert hm / 60 == Hour(s) && hm % 60 == Minute(s);
    assert Hour(s) / 10 == DigitValue(s[0]) && Hour(s) % 10 == DigitValue(s[1]);
    assert Minute(s) / 10 == DigitValue(s[3]) && Minute(s) % 10 == DigitValue(s[4]);
    DigitCharValue(s[0]);
    DigitCharValue(s[1]);
    DigitCharValue(s[3]);
    DigitCharValue(s[4]);
  }

  /** The examples the utilities are known by. */
  lemma UtilsExamples(today: int)
    ensures ParseTime("12:30", today) == Ok(today * MinutesPerDay + 750)
    ensures ParseTime("invalidTime", today) == Err(InvalidTime)
    ensures ParseDuration("1:00") == Ok(60) && ParseDuration("01:00") == Ok(60)
    ensures ParseDuration("invalidDuration") == Err(InvalidDuration)
  {
    assert ColonAt("12:30") == 2;
    assert ColonAt("1:00") == 1;
    assert ColonAt("01:00") == 2;
    assert !IsDigit("invalidTime"[0]);
    assert !IsDigit("invalidDuration"[0]);
  }
}
