/** One comma-separated column of the older body format (parseTaskTimeInput of
    src/TaskInput.ts, written again as extractTaskTime in src/LineParser.ts): an optional
    time `H:M`, then optionally an estimation `(H:M)`, with whitespace allowed around and
    inside the parentheses, and nothing else.

    The pattern is anchored at both ends. Its captures are fixed by the text: a time token
    starts with a digit while what may follow the leading whitespace without one is `(` or
    the end, and a token is followed by whitespace, `(`, `)` or the end, never by a digit, so
    a greedy scan finds the only way the pattern can match. */
module TimeInput {
  import opened Results
  import opened Text
  import opened Clock

  /** The `time` and `estimation` groups. */
  datatype TimeInputText = TimeInputText(time: Option<string>, estimation: Option<string>)

  /** The five whitespace runs a column may hold: before the time, after it, inside the
      parentheses before and after the estimation, and after the closing parenthesis. */
  datatype Gaps = Gaps(lead: string, mid: string, open: string, close: string, trail: string)

  predicate GapsWhitespace(w: Gaps) {
    AllWhitespace(w.lead) && AllWhitespace(w.mid) && AllWhitespace(w.open) && AllWhitespace(w.close) && AllWhitespace(w.trail)
  }

  predicate ValidGroups(v: TimeInputText) {
    (v.time.Some? ==> IsClockToken(v.time.value)) && (v.estimation.Some? ==> IsClockToken(v.estimation.value))
  }

  /** The parenthesised estimation part of a column, or nothing. */
  function EstimationText(e: Option<string>, w: Gaps): string {
    match e
    case Some(x) => "(" + (w.open + (x + (w.close + (")" + w.trail))))
    case None => ""
  }

  /** A column written from its groups and its whitespace. */
  function WriteTimeInput(v: TimeInputText, w: Gaps): string {
    w.lead + (v.time.GetOr("") + (w.mid + EstimationText(v.estimation, w)))
  }

  /** The declarative reading of the pattern: `s` is some column with groups `v`. */
  ghost predicate TimeInputShape(s: string, v: TimeInputText) {
    ValidGroups(v) && exists w :: GapsWhitespace(w) && s == WriteTimeInput(v, w)
  }

  /** `\)\s*$` at the start of `b`. */
  predicate ClosesColumn(b: string) {
    |b| > 0 && b[0] == ')' && DropSpace(b[1..]) == []
  }

  /** `(H:M)\s*\)\s*$` at the start of `a`: the estimation token. */
  function EstimationToken(a: string): (r: Option<string>)
    ensures r.Some? ==> IsClockToken(r.value) && |r.value| <= |a| && a[..|r.value|] == r.value
  {
    var m := ClockTokenAt(a, 0);
    if m > 0 && ClosesColumn(DropSpace(a[m..])) then Some(a[..m]) else None
  }

  /** `\(\s*(H:M)\s*\)\s*$` at the start of `u`. */
  function ScanEstimation(u: string): (r: Option<string>)
    ensures r.Some? ==> IsClockToken(r.value)
  {
    if |u| == 0 || u[0] != '(' then None else EstimationToken(DropSpace(u[1..]))
  }

  /** What follows the time: nothing but whitespace, or an estimation. */
  function ScanRest(rest: string): Option<Option<string>> {
    if rest == [] then Some(None)
    else
      match ScanEstimation(rest)
      case Some(e) => Some(Some(e))
      case None => None
  }

  /** The column after its leading whitespace: the time, then what follows it. */
  function ScanTime(u: string): (r: Option<TimeInputText>)
    ensures r.Some? ==> ValidGroups(r.value)
  {
    var n := ClockTokenAt(u, 0);
    match ScanRest(DropSpace(u[n..]))
    case Some(e) => Some(TimeInputText(if n == 0 then None else Some(u[..n]), e))
    case None => None
  }

  /** parseTaskTimeInput / extractTaskTime: the groups of a column, or None (the source's
      null) when the column is not of the time-input form. */
  function ParseTaskTimeInput(s: string): (r: Option<TimeInputText>)
    ensures r.Some? ==> ValidGroups(r.value)
  {
    ScanTime(DropSpace(s))
  }

  /** Nothing that begins with `(` or is empty starts with a clock token. */
  lemma NoTokenAtParen(u: string)
    requires |u| == 0 || u[0] == '('
    ensures ClockTokenAt(u, 0) == 0
  {
    if |u| > 0 {
      assert !InClass(Digit, u[0]);
    }
  }

  /** A clock token followed by anything but a digit is read whole, and the rest follows. */
  lemma TokenThen(e: string, r: string)
    requires IsClockToken(e) && (|r| == 0 || !IsDigit(r[0]))
    ensures ClockTokenAt(e + r, 0) == |e|
    ensures (e + r)[..|e|] == e && (e + r)[|e|..] == r
  {
    var u := e + r;
    assert u[0..|e|] == e;
    if |r| > 0 {
      assert u[|e|] == r[0];
    }
    ClockTokenAtExact(u, 0, e);
  }

  /** A whitespace run then `r` starts with the first character of `r` when the run is
      empty, and with whitespace otherwise. */
  lemma FirstOfConcat(w: string, r: string)
    requires AllWhitespace(w) && |w + r| > 0
    ensures IsWhitespace((w + r)[0]) || (|w| == 0 && (w + r)[0] == r[0])
  {
    if |w| > 0 {
      assert (w + r)[0] == w[0];
    }
  }

  lemma ClosesColumnComplete(trail: string)
    requires AllWhitespace(trail)
    ensures ClosesColumn(")" + trail)
  {
    assert (")" + trail)[1..] == trail;
    DropSpaceOf(trail, []);
    assert trail + [] == trail;
  }

  lemma EstimationTokenComplete(x: string, close: string, trail: string)
    requires IsClockToken(x) && AllWhitespace(close) && AllWhitespace(trail)
    ensures EstimationToken(x + (close + (")" + trail))) == Some(x)
  {
    var r := close + (")" + trail);
    FirstOfConcat(close, ")" + trail);
    TokenThen(x, r);
    DropSpaceOf(close, ")" + trail);
    ClosesColumnComplete(trail);
  }

  /** The estimation part of a column is read back. */
  lemma ScanEstimationComplete(x: string, w: Gaps)
    requires IsClockToken(x) && GapsWhitespace(w)
    ensures ScanEstimation(EstimationText(Some(x), w)) == Some(x)
  {
    var a := x + (w.close + (")" + w.trail));
    var u := "(" + (w.open + a);
    assert u[1..] == w.open + a;
    TokenEdges(x);
    DropSpaceOf(w.open, a);
    EstimationTokenComplete(x, w.close, w.trail);
  }

  /** What follows the time of a column is read back. */
  lemma ScanRestComplete(e: Option<string>, w: Gaps)
    requires (e.Some? ==> IsClockToken(e.value)) && GapsWhitespace(w)
    ensures ScanRest(EstimationText(e, w)) == Some(e)
  {
    if e.Some? {
      ScanEstimationComplete(e.value, w);
    }
  }

  /** A column with a time, after its leading whitespace, is read back. */
  lemma ScanTimeComplete(x: string, e: Option<string>, w: Gaps)
    requires IsClockToken(x) && (e.Some? ==> IsClockToken(e.value)) && GapsWhitespace(w)
    ensures ScanTime(x + (w.mid + EstimationText(e, w))) == Some(TimeInputText(Some(x), e))
  {
    var est := EstimationText(e, w);
    assert |est| == 0 || est[0] == '(';
    ScanRestComplete(e, w);
    if |w.mid + est| > 0 {
      FirstOfConcat(w.mid, est);
    }
    TokenThen(x, w.mid + est);
    DropSpaceOf(w.mid, est);
  }

  /** A column without a time, after all its leading whitespace, is read back. */
  lemma ScanNoTimeComplete(e: Option<string>, w: Gaps)
    requires (e.Some? ==> IsClockToken(e.value)) && GapsWhitespace(w)
    ensures ScanTime(EstimationText(e, w)) == Some(TimeInputText(None, e))
  {
    var est := EstimationText(e, w);
    assert |est| == 0 || est[0] == '(';
    ScanRestComplete(e, w);
    NoTokenAtParen(est);
    assert est[0..] == est;
    DropSpaceOf([], est);
    assert [] + est == est;
  }

  /** Every column of the time-input form is read into its groups. */
  lemma ParseComplete(v: TimeInputText, w: Gaps)
    requires ValidGroups(v) && GapsWhitespace(w)
    ensures ParseTaskTimeInput(WriteTimeInput(v, w)) == Some(v)
  {
    var est := EstimationText(v.estimation, w);
    if v.time.Some? {
      var x := v.time.value;
      TokenEdges(x);
      DropSpaceOf(w.lead, x + (w.mid + est));
      ScanTimeComplete(x, v.estimation, w);
    } else {
      assert w.lead + ("" + (w.mid + est)) == (w.lead + w.mid) + est;
      AllWhitespaceConcat(w.lead, w.mid);
      if |est| > 0 {
        assert est[0] == '(';
      }
      DropSpaceOf(w.lead + w.mid, est);
      ScanNoTimeComplete(v.estimation, w);
    }
  }

  /** A string is a whitespace run followed by what `DropSpace` leaves. */
  lemma DropSpaceParts(u: string) returns (w: string)
    ensures AllWhitespace(w) && u == w + DropSpace(u)
  {
    DropSpaceSplit(u);
    w := u[..|u| - |DropSpace(u)|];
  }

  lemma ClosesColumnSound(b: string) returns (trail: string)
    requires ClosesColumn(b)
    ensures AllWhitespace(trail) && b == ")" + trail
  {
    var t := DropSpaceParts(b[1..]);
    trail := t;
    assert b[1..] == trail + [] == trail;
    assert b == [b[0]] + b[1..];
  }

  lemma EstimationTokenSound(a: string) returns (close: string, trail: string)
    requires EstimationToken(a).Some?
    ensures AllWhitespace(close) && AllWhitespace(trail)
    ensures a == EstimationToken(a).value + (close + (")" + trail))
  {
    var m := ClockTokenAt(a, 0);
    close := DropSpaceParts(a[m..]);
    trail := ClosesColumnSound(DropSpace(a[m..]));
    assert a == a[..m] + a[m..];
  }

  /** An opening parenthesis, then the runs and the token in their places. */
  lemma EstimationTextOf(u: string, x: string, w: Gaps)
    requires |u| > 0 && u[0] == '(' && u[1..] == w.open + (x + (w.close + (")" + w.trail)))
    ensures u == EstimationText(Some(x), w)
  {
    assert u == [u[0]] + u[1..];
  }

  /** The whitespace runs of an estimation part the scanner read. */
  lemma ScanEstimationSound(u: string) returns (w: Gaps)
    requires ScanEstimation(u).Some?
    ensures GapsWhitespace(w)
    ensures u == EstimationText(ScanEstimation(u), w)
  {
    var d := DropSpace(u[1..]);
    var x := EstimationToken(d).value;
    var open := DropSpaceParts(u[1..]);
    var close, trail := EstimationTokenSound(d);
    w := Gaps("", "", open, close, trail);
    EstimationTextOf(u, x, w);
  }

  /** The whitespace runs of a column, after its leading whitespace, that the scanner read. */
  lemma ScanTimeSound(u: string) returns (w: Gaps)
    requires ScanTime(u).Some?
    ensures GapsWhitespace(w) && w.lead == []
    ensures u == ScanTime(u).value.time.GetOr("") + (w.mid + EstimationText(ScanTime(u).value.estimation, w))
  {
    var v := ScanTime(u).value;
    var n := ClockTokenAt(u, 0);
    var rest := DropSpace(u[n..]);
    var mid := DropSpaceParts(u[n..]);
    assert u == u[..n] + u[n..];
    var e := Gaps("", "", "", "", "");
    if v.estimation.Some? {
      e := ScanEstimationSound(rest);
    }
    w := Gaps([], mid, e.open, e.close, e.trail);
    assert EstimationText(v.estimation, w) == rest;
  }

  /** Every column the scanner reads is of the time-input form with the groups it returns. */
  lemma ParseSound(s: string)
    requires ParseTaskTimeInput(s).Some?
    ensures TimeInputShape(s, ParseTaskTimeInput(s).value)
  {
    var v := ParseTaskTimeInput(s).value;
    var lead := DropSpaceParts(s);
    var t := ScanTimeSound(DropSpace(s));
    var w := t.(lead := lead);
    assert EstimationText(v.estimation, w) == EstimationText(v.estimation, t);
    assert s == WriteTimeInput(v, w);
  }

  /** The scanner returns groups exactly for the columns of the time-input form: it is the
      pattern, read declaratively. */
  lemma ParseCharacterized(s: string)
    ensures ParseTaskTimeInput(s).Some? ==> TimeInputShape(s, ParseTaskTimeInput(s).value)
    ensures forall v :: TimeInputShape(s, v) ==> ParseTaskTimeInput(s) == Some(v)
    ensures ParseTaskTimeInput(s).None? <==> forall v :: !TimeInputShape(s, v)
  {
    if ParseTaskTimeInput(s).Some? {
      ParseSound(s);
    }
    forall v | TimeInputShape(s, v) ensures ParseTaskTimeInput(s) == Some(v) {
      var w :| GapsWhitespace(w) && s == WriteTimeInput(v, w);
      ParseComplete(v, w);
    }
  }

  /** A column is read back from its groups and its whitespace: the examples below. */
  lemma WrittenExample(v: TimeInputText, w: Gaps, s: string)
    requires ValidGroups(v) && GapsWhitespace(w) && s == WriteTimeInput(v, w)
    ensures ParseTaskTimeInput(s) == Some(v)
  {
    ParseComplete(v, w);
  }

  /** The example of the source's tests with a time only. */
  lemma TimeExample()
    ensures ParseTaskTimeInput("12:05") == Some(TimeInputText(Some("12:05"), None))
  {
    assert ColonAt("12:05") == 2;
    WrittenExample(TimeInputText(Some("12:05"), None), Gaps("", "", "", "", ""), "12:05");
  }

  /** The example of the source's tests with an estimation only. */
  lemma EstimationExample()
    ensures ParseTaskTimeInput("(12:00)") == Some(TimeInputText(None, Some("12:00")))
  {
    assert ColonAt("12:00") == 2;
    var w := Gaps("", "", "", "", "");
    assert WriteTimeInput(TimeInputText(None, Some("12:00")), w) == "(12:00)";
    WrittenExample(TimeInputText(None, Some("12:00")), w, "(12:00)");
  }

  /** The example of the source's tests with both. */
  lemma BothExample()
    ensures ParseTaskTimeInput("12:05(12:00)") == Some(TimeInputText(Some("12:05"), Some("12:00")))
  {
    assert ColonAt("12:05") == 2 && ColonAt("12:00") == 2;
    var w := Gaps("", "", "", "", "");
    assert WriteTimeInput(TimeInputText(Some("12:05"), Some("12:00")), w) == "12:05(12:00)";
    WrittenExample(TimeInputText(Some("12:05"), Some("12:00")), w, "12:05(12:00)");
  }

  /** The example of the source's tests with an empty column. */
  lemma EmptyExample()
    ensures ParseTaskTimeInput("") == Some(TimeInputText(None, None))
  {
    WrittenExample(TimeInputText(None, None), Gaps("", "", "", "", ""), "");
  }

  /** The example of the source's tests with whitespace around and inside the parentheses. */
  lemma SpacedExample()
    ensures ParseTaskTimeInput(" (   12:05   ) ") == Some(TimeInputText(None, Some("12:05")))
  {
    assert ColonAt("12:05") == 2;
    var w := Gaps(" ", "", "   ", "   ", " ");
    assert WriteTimeInput(TimeInputText(None, Some("12:05")), w) == " (   12:05   ) ";
    WrittenExample(TimeInputText(None, Some("12:05")), w, " (   12:05   ) ");
  }

  /** Anything after the time other than whitespace or `(` rejects the column. */
  lemma ScanRestRejects(r: string)
    requires |r| > 0 && r[0] != '('
    ensures ScanRest(r).None?
  {
  }

  /** A time followed by whitespace and then anything but `(` is not a column. */
  lemma TimeThenText(x: string, w: string, r: string)
    requires IsClockToken(x) && AllWhitespace(w) && |w| > 0
    requires |r| > 0 && !IsWhitespace(r[0]) && r[0] != '('
    ensures ScanTime(x + (w + r)).None?
  {
    FirstOfConcat(w, r);
    TokenThen(x, w + r);
    DropSpaceOf(w, r);
    ScanRestRejects(r);
  }

  /** The example of the source's tests with two times in one column. */
  lemma TwoTimesExample()
    ensures ParseTaskTimeInput("12:00 12:00").None?
  {
    var s := "12:00 12:00";
    assert ColonAt("12:00") == 2;
    assert s == "12:00" + (" " + "12:00");
    TimeThenText("12:00", " ", "12:00");
    DropSpaceOf("", s);
    assert "" + s == s;
  }

  /** Text that is not a time rejects the column. */
  lemma TextExample()
    ensures ParseTaskTimeInput("全く関係ない文字列").None?
  {
    TextColumn("全く関係ない文字列");
  }

  /** A column whose first character is neither whitespace, a digit nor `(` is not a time
      column: task text such as a title. */
  lemma TextColumn(s: string)
    requires |s| > 0 && !IsWhitespace(s[0]) && !IsDigit(s[0]) && s[0] != '('
    ensures ParseTaskTimeInput(s).None?
  {
    DropSpaceOf("", s);
    assert "" + s == s;
    assert !InClass(Digit, s[0]);
    assert s[0..] == s;
    ScanRestRejects(s);
  }
}
