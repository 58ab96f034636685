/** The time prefix of a task body (TIME_REGEX of src/Task.ts): an optional start time, an
    optional `-` and, only after that dash, an end time, then the rest of the line.

    The regular expression is read as a greedy scanner. Every part after the start group
    is optional or can match the empty string, so the first attempt succeeds and no
    backtracking happens. The lookbehind in front of the end group holds exactly when the
    dash was consumed: without a dash the text before that point is a clock token (ending
    in a digit) or nothing, followed by whitespace. */
module TaskTimes {
  import opened Results
  import opened Text
  import opened Clock

  /** The named groups `start`, `end` and `taskBody`. */
  datatype TimeFields = TimeFields(start: Option<string>, end: Option<string>, taskBody: string)

  /** Where the scanner stopped: the start token is `t[..startTo]`, the end token
      `t[endFrom..endTo]` and the body `t[bodyFrom..bodyTo]`. */
  datatype TimeScan = TimeScan(startTo: nat, endFrom: nat, endTo: nat, bodyFrom: nat, bodyTo: nat)

  /** The position after a greedy `\s*` from `p`. */
  function SkipSpace(t: string, p: nat): (q: nat)
    requires p <= |t|
    ensures p <= q <= |t|
  {
    p + Span(t, p, Whitespace)
  }

  /** The scan: the start token, then `\s*-?\s*`, the end token when a dash was consumed,
      `\s*` and the body. */
  function ScanTimes(t: string): (sc: TimeScan)
    ensures sc.startTo <= sc.endFrom <= sc.endTo <= sc.bodyFrom <= sc.bodyTo <= |t|
  {
    ScanAfterStart(t, ClockTokenAt(t, 0))
  }

  /** After the start token, which ends at `n0`: `\s*`, then the end stage when a dash
      follows and the body stage when none does. */
  function ScanAfterStart(t: string, n0: nat): (sc: TimeScan)
    requires n0 <= |t|
    ensures n0 == sc.startTo <= sc.endFrom <= sc.endTo <= sc.bodyFrom <= sc.bodyTo <= |t|
  {
    var p1 := SkipSpace(t, n0);
    if p1 < |t| && t[p1] == '-' then ScanEnd(t, n0, SkipSpace(t, p1 + 1))
    else ScanBody(t, n0, p1, p1)
  }

  /** After a dash: the end token, if one starts at `p3`. */
  function ScanEnd(t: string, n0: nat, p3: nat): (sc: TimeScan)
    requires n0 <= p3 <= |t|
    ensures sc.startTo <= sc.endFrom <= sc.endTo <= sc.bodyFrom <= sc.bodyTo <= |t|
  {
    ScanBody(t, n0, p3, p3 + ClockTokenAt(t, p3))
  }

  /** The whitespace after the times and the body up to the end of the line. */
  function ScanBody(t: string, n0: nat, p3: nat, p4: nat): (sc: TimeScan)
    requires n0 <= p3 <= p4 <= |t|
    ensures sc.startTo <= sc.endFrom <= sc.endTo <= sc.bodyFrom <= sc.bodyTo <= |t|
  {
    var p5 := SkipSpace(t, p4);
    TimeScan(n0, p3, p4, p5, p5 + Span(t, p5, NotTerminator))
  }

  /** `b` sits at `i` in `t` and is followed by the end of `t` or by a line terminator. */
  predicate RunsToLineEnd(t: string, i: nat, b: string) {
    && i + |b| <= |t|
    && t[i..i + |b|] == b
    && (i + |b| == |t| || IsLineTerminator(t[i + |b|]))
  }

  /** The last stage reads a body that runs to the end of its line. */
  lemma ScanBodyFacts(t: string, n0: nat, p3: nat, p4: nat)
    requires n0 <= p3 <= p4 <= |t|
    ensures var sc := ScanBody(t, n0, p3, p4);
      && SingleLine(t[sc.bodyFrom..sc.bodyTo])
      && RunsToLineEnd(t, sc.bodyFrom, t[sc.bodyFrom..sc.bodyTo])
  {
    var sc := ScanBody(t, n0, p3, p4);
    var body := t[sc.bodyFrom..sc.bodyTo];
    SpanMembers(t, sc.bodyFrom, NotTerminator);
    assert forall j | 0 <= j < |body| :: body[j] == t[sc.bodyFrom + j];
  }

  /** Whatever path the scan takes, it ends with the body stage after the start token. */
  lemma ScanShape(t: string)
    ensures var sc := ScanTimes(t);
      sc.startTo == ClockTokenAt(t, 0) && sc == ScanBody(t, sc.startTo, sc.endFrom, sc.endTo)
  {
  }

  /** What the scan reads as an end time is a clock token. */
  lemma ScanEndToken(t: string)
    ensures var sc := ScanTimes(t);
      sc.endTo > sc.endFrom ==> IsClockToken(t[sc.endFrom..sc.endTo])
  {
  }

  /** An end token is only read after a dash that follows the start. */
  lemma ScanEndAfterDash(t: string)
    ensures var sc := ScanTimes(t);
      sc.endTo > sc.endFrom ==> exists i | sc.startTo <= i < sc.endFrom :: t[i] == '-'
  {
  }

  /** What each stage of the scanner establishes. */
  lemma ScanFacts(t: string)
    ensures var sc := ScanTimes(t);
      && sc.startTo == ClockTokenAt(t, 0)
      && (sc.endTo > sc.endFrom ==> IsClockToken(t[sc.endFrom..sc.endTo]))
      && (sc.endTo > sc.endFrom ==> exists i | sc.startTo <= i < sc.endFrom :: t[i] == '-')
      && SingleLine(t[sc.bodyFrom..sc.bodyTo])
      && RunsToLineEnd(t, sc.bodyFrom, t[sc.bodyFrom..sc.bodyTo])
  {
    var sc := ScanTimes(t);
    ScanShape(t);
    ScanEndToken(t);
    ScanEndAfterDash(t);
    ScanBodyFacts(t, sc.startTo, sc.endFrom, sc.endTo);
  }

  /** `t.match(TIME_REGEX).groups`. The match never fails; the start and the end are clock
      tokens, the start begins `t`, the body is one line, and `t` has the shape of the
      groups read (`TimesShape`, the greedy reading of the pattern). */
  function MatchTimes(t: string): (r: TimeFields)
    ensures r.start.Some? ==> IsClockToken(r.start.value) && |r.start.value| <= |t| && t[..|r.start.value|] == r.start.value
    ensures r.end.Some? ==> IsClockToken(r.end.value)
    ensures SingleLine(r.taskBody)
    ensures TimesShape(t, r)
  {
    var sc := ScanTimes(t);
    ScanFacts(t);
    var r := TimeFields(if sc.startTo > 0 then Some(t[..sc.startTo]) else None,
                        if sc.endTo > sc.endFrom then Some(t[sc.endFrom..sc.endTo]) else None,
                        t[sc.bodyFrom..sc.bodyTo]);
    ScanSound(t);
    assert r == StagedFields(t, ScanCuts(t));
    r
  }

  /** The start group is the longest clock token that begins `t`, and it is absent only when
      no clock token begins `t`; an end time needs a dash; the body runs to the end of its
      line. The groups read are the only ones `t` has the shape of. */
  lemma MatchTimesGroups(t: string)
    ensures var r := MatchTimes(t);
      && (r.start.None? ==> forall j | 0 <= j <= |t| :: !IsClockToken(t[..j]))
      && (r.start.Some? ==> forall j | |r.start.value| < j <= |t| :: !IsClockToken(t[..j]))
      && (r.end.Some? ==> exists i | (if r.start.Some? then |r.start.value| else 0) <= i < |t| :: t[i] == '-')
      && exists i: nat :: RunsToLineEnd(t, i, r.taskBody)
    ensures forall f :: TimesShape(t, f) <==> f == MatchTimes(t)
  {
    ScanFacts(t);
    ClockTokenAtLongest(t, 0);
    assert forall j | 0 <= j <= |t| :: t[0..j] == t[..j];
    forall f | TimesShape(t, f)
      ensures f == MatchTimes(t)
    {
      var w :| TimesFit(t, f, w);
      FitMatch(t, f, w);
    }
  }

  /** The whitespace the pattern lets through around the times: `lead` after the start, the
      dash when one is read, `after` after the dash, and `trail` in front of the body. */
  datatype TimeGaps = TimeGaps(lead: string, dash: bool, after: string, trail: string)

  /** The text of a group; a group that took no part in the match contributes nothing. */
  function GroupText(g: Option<string>): string {
    if g.Some? then g.value else ""
  }

  function DashText(w: TimeGaps): string {
    if w.dash then "-" else ""
  }

  /** The text a match with the groups `f` and the gaps `w` covers. */
  function WriteTimes(f: TimeFields, w: TimeGaps): string {
    GroupText(f.start) + w.lead + DashText(w) + w.after + GroupText(f.end) + w.trail + f.taskBody
  }

  /** No clock token at the front of `s` is longer than `n` characters. */
  predicate NoTokenBeyond(s: string, n: nat) {
    forall j | n < j <= |s| :: !IsClockToken(s[..j])
  }

  /** The declarative reading of the pattern: `t` begins with the text of the groups `f`
      with the gaps `w`, which ends its line, and every part is as long as the greedy
      reading makes it:
      - the start is the longest clock token at the front of `t`, absent when there is none;
      - all whitespace after the start is skipped, then a dash if one comes next;
      - after a dash and its whitespace, the end is the longest clock token there, absent
        only when none starts there; without a dash there is no end;
      - the body starts after all the remaining whitespace and runs to the end of its line. */
  predicate TimesFit(t: string, f: TimeFields, w: TimeGaps) {
    && EndsLineAt(WriteTimes(f, w), t)
    && AllWhitespace(w.lead) && AllWhitespace(w.after) && AllWhitespace(w.trail)
    && (f.start.Some? ==> IsClockToken(f.start.value))
    && NoTokenBeyond(t, |GroupText(f.start)|)
    && (!w.dash ==> w.after == "" && f.end.None? && (|f.taskBody| > 0 ==> f.taskBody[0] != '-'))
    && (f.end.Some? ==> IsClockToken(f.end.value) && NoTokenBeyond(f.end.value + w.trail + f.taskBody, |f.end.value|))
    && (f.end.None? ==> w.trail == "")
    && (w.dash && f.end.None? ==> NoTokenBeyond(f.taskBody, 0))
    && SingleLine(f.taskBody)
    && (if |f.taskBody| == 0 then |WriteTimes(f, w)| == |t| else !IsWhitespace(f.taskBody[0]))
  }

  /** `t` reads as the groups `f`. */
  ghost predicate TimesShape(t: string, f: TimeFields) {
    exists w: TimeGaps :: TimesFit(t, f, w)
  }

  /** Position `p` ends a greedy `\s*`. */
  predicate StopAt(t: string, p: nat) {
    p == |t| || (p < |t| && !IsWhitespace(t[p]))
  }

  /** A clock token is digits and a colon, so it holds no line break. */
  lemma TokenSingleLine(x: string)
    ensures IsClockToken(x) ==> SingleLine(x)
  {
    if IsClockToken(x) {
      var h := ColonAt(x);
    }
  }

  lemma WhitespaceSlice(t: string, p: nat, q: nat, s: string)
    requires p <= q <= |t| && t[p..q] == s && AllWhitespace(s)
    ensures forall j | p <= j < q :: IsWhitespace(t[j])
  {
    assert forall j | p <= j < q :: t[j] == s[j - p];
  }

  /** A greedy `\s*` from `p` stops at `q` when only whitespace lies between them. */
  lemma SkipTo(t: string, p: nat, q: nat, s: string)
    requires p <= q <= |t| && t[p..q] == s && AllWhitespace(s) && StopAt(t, q)
    ensures SkipSpace(t, p) == q
  {
    WhitespaceSlice(t, p, q, s);
    SpanUnique(t, p, Whitespace, q - p);
  }

  /** A token test at `i` sees no token longer than `n` when a one-line `u` with none longer
      sits at `i` and is followed by the end or a line break. */
  lemma NoTokenAt(t: string, i: nat, u: string, n: nat)
    requires i + |u| <= |t| && t[i..i + |u|] == u && NoTokenBeyond(u, n)
    requires i + |u| == |t| || IsLineTerminator(t[i + |u|])
    ensures forall j | i + n < j <= |t| :: !IsClockToken(t[i..j])
  {
    forall j | i + n < j <= |t|
      ensures !IsClockToken(t[i..j])
    {
      if j <= i + |u| {
        assert t[i..j] == u[..j - i];
      } else {
        assert t[i..j][|u|] == t[i + |u|];
        TokenSingleLine(t[i..j]);
      }
    }
  }

  /** The greedy token at `i` has length `n` when a token of that length (or none, for 0)
      is there and no longer one is. */
  lemma GreedyToken(t: string, i: nat, n: nat)
    requires i + n <= |t| && (n == 0 || IsClockToken(t[i..i + n]))
    requires forall j | i + n < j <= |t| :: !IsClockToken(t[i..j])
    ensures ClockTokenAt(t, i) == n
  {
    var m := ClockTokenAt(t, i);
    ClockTokenAtLongest(t, i);
    if m > 0 {
      assert IsClockToken(t[i..i + m]);
    }
    if n > 0 {
      assert !(i + m < i + n);
    }
  }

  /** The body stage over whitespace `trail` from `p4` to `e`, then a one-line body up to
      `g`, which the end or a line break follows. */
  lemma BodyStage(t: string, n0: nat, p3: nat, p4: nat, e: nat, g: nat, trail: string, body: string)
    requires n0 <= p3 <= p4 <= e <= g <= |t|
    requires t[p4..e] == trail && AllWhitespace(trail) && StopAt(t, e)
    requires t[e..g] == body && SingleLine(body) && (g == |t| || IsLineTerminator(t[g]))
    ensures ScanBody(t, n0, p3, p4) == TimeScan(n0, p3, p4, e, g)
  {
    SkipTo(t, p4, e, trail);
    assert forall j | e <= j < g :: t[j] == body[j - e];
    SpanUnique(t, e, NotTerminator, g - e);
  }

  /** Where the parts of a fit begin and end: the start ends at `a`, the lead at `b`, the
      dash and `after` at `c`, the end at `d`, the trail at `e` and the body at `g`. */
  datatype Cuts = Cuts(a: nat, b: nat, c: nat, d: nat, e: nat, g: nat)

  function FitCuts(f: TimeFields, w: TimeGaps): (k: Cuts)
    ensures k.a <= k.b <= k.c <= k.d <= k.e <= k.g
  {
    var a := |GroupText(f.start)|;
    var b := a + |w.lead|;
    var c := b + |DashText(w)| + |w.after|;
    var d := c + |GroupText(f.end)|;
    var e := d + |w.trail|;
    Cuts(a, b, c, d, e, e + |f.taskBody|)
  }

  /** The two halves of a concatenation. */
  lemma Halves(x: string, p: string, y: string)
    requires x == p + y
    ensures x[..|p|] == p && x[|p|..] == y
  {
  }

  /** A shorter prefix of a known prefix. */
  lemma Shorter(x: string, i: nat, j: nat, p: string)
    requires i <= j <= |x| && x[..j] == p
    ensures x[..i] == p[..i]
  {
  }

  /** The slice between two cuts, read off the prefix up to the second. */
  lemma Between(x: string, i: nat, j: nat, p: string)
    requires i <= j <= |x| && x[..j] == p
    ensures x[i..j] == p[i..]
  {
  }

  /** A suffix cut in three. */
  lemma Thirds(x: string, i: nat, j: nat, l: nat)
    requires i <= j <= l <= |x|
    ensures x[i..] == x[i..j] + x[j..l] + x[l..]
  {
  }

  /** Where each part sits in the written text. */
  lemma WriteSlices(f: TimeFields, w: TimeGaps)
    ensures var k, x := FitCuts(f, w), WriteTimes(f, w);
      && |x| == k.g
      && x[..k.a] == GroupText(f.start) && x[k.a..k.b] == w.lead
      && x[k.b..k.b + |DashText(w)|] == DashText(w) && x[k.b + |DashText(w)|..k.c] == w.after
      && x[k.c..k.d] == GroupText(f.end) && x[k.d..k.e] == w.trail
      && x[k.e..] == f.taskBody && x[k.c..] == GroupText(f.end) + w.trail + f.taskBody
  {
    var k, x := FitCuts(f, w), WriteTimes(f, w);
    var p1 := GroupText(f.start) + w.lead;
    var p2 := p1 + DashText(w);
    var p3 := p2 + w.after;
    var p4 := p3 + GroupText(f.end);
    var p5 := p4 + w.trail;
    Halves(x, p5, f.taskBody);
    Halves(p5, p4, w.trail);
    Halves(p4, p3, GroupText(f.end));
    Halves(p3, p2, w.after);
    Halves(p2, p1, DashText(w));
    Halves(p1, GroupText(f.start), w.lead);
    Shorter(x, k.d, k.e, p5);
    Shorter(x, k.c, k.d, p4);
    Shorter(x, k.b + |DashText(w)|, k.c, p3);
    Shorter(x, k.b, k.b + |DashText(w)|, p2);
    Shorter(x, k.a, k.b, p1);
    Between(x, k.d, k.e, p5);
    Between(x, k.c, k.d, p4);
    Between(x, k.b + |DashText(w)|, k.c, p3);
    Between(x, k.b, k.b + |DashText(w)|, p2);
    Between(x, k.a, k.b, p1);
    Thirds(x, k.c, k.d, k.e);
  }

  /** A slice of a known prefix. */
  lemma Within(t: string, x: string, i: nat, j: nat)
    requires i <= j <= |x| <= |t| && t[..|x|] == x
    ensures t[i..j] == x[i..j] && (j == |x| ==> t[i..j] == x[i..])
  {
    assert forall q | 0 <= q < j - i :: t[i..j][q] == x[q + i];
  }

  /** Where each part of a written match sits in `t`. */
  lemma FitSlices(t: string, f: TimeFields, w: TimeGaps)
    requires EndsLineAt(WriteTimes(f, w), t)
    ensures var k := FitCuts(f, w);
      && k.g <= |t| && (k.g == |t| || IsLineTerminator(t[k.g]))
      && t[..k.a] == GroupText(f.start) && t[k.a..k.b] == w.lead
      && (w.dash ==> t[k.b] == '-')
      && t[k.b + |DashText(w)|..k.c] == w.after
      && t[k.c..k.d] == GroupText(f.end) && t[k.d..k.e] == w.trail
      && t[k.e..k.g] == f.taskBody
      && t[k.c..k.g] == GroupText(f.end) + w.trail + f.taskBody
  {
    var k := FitCuts(f, w);
    var x := WriteTimes(f, w);
    WriteSlices(f, w);
    Within(t, x, 0, k.a);
    Within(t, x, k.a, k.b);
    Within(t, x, k.b, k.b + |DashText(w)|);
    Within(t, x, k.b + |DashText(w)|, k.c);
    Within(t, x, k.c, k.d);
    Within(t, x, k.d, k.e);
    Within(t, x, k.e, k.g);
    Within(t, x, k.c, k.g);
    if w.dash {
      assert t[k.b] == t[k.b..k.b + 1][0];
    }
  }

  /** The body of a fit starts where the whitespace before it stops. */
  lemma FitBodyStop(t: string, f: TimeFields, w: TimeGaps)
    requires TimesFit(t, f, w)
    ensures StopAt(t, FitCuts(f, w).e)
  {
    var k := FitCuts(f, w);
    FitSlices(t, f, w);
    if |f.taskBody| > 0 {
      assert t[k.e] == t[k.e..k.g][0];
    }
  }

  /** The start stage of a fit: the greedy token is the start group. */
  lemma FitStart(t: string, f: TimeFields, w: TimeGaps)
    requires TimesFit(t, f, w)
    ensures ClockTokenAt(t, 0) == FitCuts(f, w).a
  {
    var a := FitCuts(f, w).a;
    FitSlices(t, f, w);
    assert forall j | 0 <= j <= |t| :: t[0..j] == t[..j];
    GreedyToken(t, 0, a);
  }

  /** The end stage of a fit with a dash: the greedy token after the dash is the end group. */
  lemma FitEnd(t: string, f: TimeFields, w: TimeGaps)
    requires TimesFit(t, f, w) && w.dash
    ensures ClockTokenAt(t, FitCuts(f, w).c) == |GroupText(f.end)|
  {
    var k := FitCuts(f, w);
    FitSlices(t, f, w);
    if f.end.Some? {
      EndGreedy(t, k.c, k.d, k.g, GroupText(f.end) + w.trail + f.taskBody);
    } else {
      assert GroupText(f.end) + w.trail + f.taskBody == f.taskBody;
      EndGreedy(t, k.c, k.d, k.g, f.taskBody);
    }
  }

  /** The greedy token at `c` ends at `d` when `t[c..d]` is a token (or empty) and the rest
      of the line from `c` holds none longer. */
  lemma EndGreedy(t: string, c: nat, d: nat, g: nat, u: string)
    requires c <= d <= g <= |t| && t[c..g] == u && (g == |t| || IsLineTerminator(t[g]))
    requires NoTokenBeyond(u, d - c) && (d > c ==> IsClockToken(t[c..d]))
    ensures ClockTokenAt(t, c) == d - c
  {
    NoTokenAt(t, c, u, d - c);
    GreedyToken(t, c, d - c);
  }

  /** Where the whitespace after the dash stops in a fit. */
  lemma FitAfterStop(t: string, f: TimeFields, w: TimeGaps)
    requires TimesFit(t, f, w)
    ensures StopAt(t, FitCuts(f, w).c)
  {
    var k := FitCuts(f, w);
    FitSlices(t, f, w);
    FitBodyStop(t, f, w);
    if f.end.Some? {
      TokenEdges(f.end.value);
      assert t[k.c] == t[k.c..k.d][0];
    }
  }

  /** Where the whitespace after the start stops in a fit. */
  lemma FitLeadStop(t: string, f: TimeFields, w: TimeGaps)
    requires TimesFit(t, f, w)
    ensures StopAt(t, FitCuts(f, w).b)
    ensures w.dash <==> FitCuts(f, w).b < |t| && t[FitCuts(f, w).b] == '-'
  {
    var k := FitCuts(f, w);
    FitSlices(t, f, w);
    FitBodyStop(t, f, w);
    if !w.dash && |f.taskBody| > 0 {
      assert t[k.b] == t[k.e..k.g][0];
    }
  }

  /** The scan from the stages' results: the start token ends at `a`, the whitespace after
      it at `b`, a dash there leads to the end token from `c` to `d`, and the body stage
      reads `e` and `g`. */
  lemma ScanOfStages(t: string, k: Cuts, dash: bool)
    requires k.a <= k.b <= k.c <= k.d <= k.e <= k.g <= |t|
    requires ClockTokenAt(t, 0) == k.a && SkipSpace(t, k.a) == k.b
    requires dash <==> k.b < |t| && t[k.b] == '-'
    requires dash ==> k.b < k.c && SkipSpace(t, k.b + 1) == k.c && ClockTokenAt(t, k.c) == k.d - k.c
    requires !dash ==> k.c == k.b && k.d == k.c
    requires ScanBody(t, k.a, k.c, k.d) == TimeScan(k.a, k.c, k.d, k.e, k.g)
    ensures ScanTimes(t) == TimeScan(k.a, k.c, k.d, k.e, k.g)
  {
    if dash {
      ScanViaDash(t, k.a, k.b, k.c, k.d - k.c, TimeScan(k.a, k.c, k.d, k.e, k.g));
    } else {
      ScanWithoutDash(t, k.a, k.b, TimeScan(k.a, k.c, k.d, k.e, k.g));
    }
  }

  /** The stages of a fit up to the dash: the start token and the whitespace after it. */
  lemma FitHead(t: string, f: TimeFields, w: TimeGaps)
    requires TimesFit(t, f, w)
    ensures var k := FitCuts(f, w);
      && k.g <= |t| && ClockTokenAt(t, 0) == k.a && SkipSpace(t, k.a) == k.b
      && (w.dash <==> k.b < |t| && t[k.b] == '-')
      && (!w.dash ==> k.c == k.b && k.d == k.c)
  {
    var k := FitCuts(f, w);
    FitSlices(t, f, w);
    FitStart(t, f, w);
    FitLeadStop(t, f, w);
    SkipTo(t, k.a, k.b, w.lead);
  }

  /** The stages of a fit after a dash: the whitespace and the end token. */
  lemma FitDash(t: string, f: TimeFields, w: TimeGaps)
    requires TimesFit(t, f, w)
    ensures var k := FitCuts(f, w);
      w.dash ==> k.b < k.c && SkipSpace(t, k.b + 1) == k.c && ClockTokenAt(t, k.c) == k.d - k.c
  {
    var k := FitCuts(f, w);
    if w.dash {
      FitSlices(t, f, w);
      FitAfterStop(t, f, w);
      SkipTo(t, k.b + 1, k.c, w.after);
      FitEnd(t, f, w);
    }
  }

  /** The body stage of a fit. */
  lemma FitTail(t: string, f: TimeFields, w: TimeGaps)
    requires TimesFit(t, f, w)
    ensures var k := FitCuts(f, w);
      ScanBody(t, k.a, k.c, k.d) == TimeScan(k.a, k.c, k.d, k.e, k.g)
  {
    var k := FitCuts(f, w);
    FitSlices(t, f, w);
    FitBodyStop(t, f, w);
    BodyStage(t, k.a, k.c, k.d, k.e, k.g, w.trail, f.taskBody);
  }

  /** Every fit is the scan's reading. */
  lemma FitScan(t: string, f: TimeFields, w: TimeGaps)
    requires TimesFit(t, f, w)
    ensures var k := FitCuts(f, w); ScanTimes(t) == TimeScan(k.a, k.c, k.d, k.e, k.g)
  {
    FitHead(t, f, w);
    FitDash(t, f, w);
    FitTail(t, f, w);
    ScanOfStages(t, FitCuts(f, w), w.dash);
  }

  /** The positions are in order, and a dash sits at `b` exactly when one is read; without
      it nothing is read between `b` and `d`. */
  predicate Ordered(t: string, k: Cuts, dash: bool) {
    && k.a <= k.b <= k.c <= k.d <= k.e <= k.g <= |t|
    && (dash <==> k.b < |t| && t[k.b] == '-')
    && (dash ==> k.b < k.c)
    && (!dash ==> k.c == k.b && k.d == k.c)
  }

  /** What each stage of the scan reads, as positions: the start token ends at `a`, the
      whitespace after it at `b`; a dash at `b` leads to the whitespace up to `c` and the
      end token from `c` to `d`; then the whitespace up to `e` and the body up to `g`. */
  predicate Staged(t: string, k: Cuts, dash: bool) {
    && Ordered(t, k, dash)
    && ClockTokenAt(t, 0) == k.a && SkipSpace(t, k.a) == k.b
    && (dash ==> SkipSpace(t, k.b + 1) == k.c && ClockTokenAt(t, k.c) == k.d - k.c)
    && SkipSpace(t, k.d) == k.e && k.g == k.e + Span(t, k.e, NotTerminator)
  }

  /** The positions the scan of `t` stops at. */
  function ScanCuts(t: string): Cuts {
    var sc := ScanTimes(t);
    Cuts(sc.startTo, SkipSpace(t, sc.startTo), sc.endFrom, sc.endTo, sc.bodyFrom, sc.bodyTo)
  }

  /** Whether the scan of `t` reads a dash. */
  function ScanDash(t: string): bool {
    var p1 := SkipSpace(t, ClockTokenAt(t, 0));
    p1 < |t| && t[p1] == '-'
  }

  /** The path of the scan when a dash follows the start's whitespace. */
  lemma ScanPathDash(t: string, n0: nat, p1: nat, p3: nat)
    requires n0 == ClockTokenAt(t, 0) && p1 == SkipSpace(t, n0) && p1 < |t| && t[p1] == '-'
    requires p3 == SkipSpace(t, p1 + 1)
    ensures ScanTimes(t) == ScanBody(t, n0, p3, p3 + ClockTokenAt(t, p3))
  {
    DashPath(t, n0, p1, p3);
  }

  /** The scan of `t` goes through its stages. */
  lemma ScanStaged(t: string)
    ensures Staged(t, ScanCuts(t), ScanDash(t))
  {
    var n0 := ClockTokenAt(t, 0);
    var p1 := SkipSpace(t, n0);
    var sc := ScanTimes(t);
    var k := Cuts(n0, p1, sc.endFrom, sc.endTo, sc.bodyFrom, sc.bodyTo);
    if ScanDash(t) {
      var p3 := SkipSpace(t, p1 + 1);
      ScanPathDash(t, n0, p1, p3);
      StagedViaDash(t, n0, p1, p3, sc);
    } else {
      StagedWithoutDash(t, n0, p1, sc);
    }
    assert ScanCuts(t) == k;
  }

  /** The stages of a scan that reads a dash at `p1`, then the whitespace up to `p3`. */
  lemma StagedViaDash(t: string, n0: nat, p1: nat, p3: nat, sc: TimeScan)
    requires n0 == ClockTokenAt(t, 0) && p1 == SkipSpace(t, n0) && p1 < |t| && t[p1] == '-'
    requires p3 == SkipSpace(t, p1 + 1) && sc == ScanBody(t, n0, p3, p3 + ClockTokenAt(t, p3))
    ensures sc.startTo == n0
    ensures Staged(t, Cuts(n0, p1, sc.endFrom, sc.endTo, sc.bodyFrom, sc.bodyTo), true)
  {
  }

  /** The stages of a scan that reads no dash: nothing is read between the start's
      whitespace and the body. */
  lemma StagedWithoutDash(t: string, n0: nat, p1: nat, sc: TimeScan)
    requires n0 == ClockTokenAt(t, 0) && p1 == SkipSpace(t, n0) && !(p1 < |t| && t[p1] == '-')
    requires sc == ScanBody(t, n0, p1, p1)
    ensures sc.startTo == n0
    ensures Staged(t, Cuts(n0, p1, sc.endFrom, sc.endTo, sc.bodyFrom, sc.bodyTo), false)
  {
    SkipRun(t, n0);
    SpanUnique(t, p1, Whitespace, 0);
  }

  /** The groups read at the staged positions. */
  function StagedFields(t: string, k: Cuts): TimeFields
    requires k.a <= k.b <= k.c <= k.d <= k.e <= k.g <= |t|
  {
    TimeFields(if k.a > 0 then Some(t[..k.a]) else None,
               if k.d > k.c then Some(t[k.c..k.d]) else None,
               t[k.e..k.g])
  }

  /** The whitespace skipped at the staged positions. */
  function StagedGaps(t: string, k: Cuts, dash: bool): TimeGaps
    requires Ordered(t, k, dash)
  {
    TimeGaps(t[k.a..k.b], dash, t[k.b + (if dash then 1 else 0)..k.c], t[k.d..k.e])
  }

  /** A greedy `\s*` reads whitespace and stops where the whitespace stops. */
  lemma SkipRun(t: string, p: nat)
    requires p <= |t|
    ensures AllWhitespace(t[p..SkipSpace(t, p)]) && StopAt(t, SkipSpace(t, p))
  {
    SpanMembers(t, p, Whitespace);
  }

  /** A slice cut in three. */
  lemma Glue(x: string, i: nat, j: nat, l: nat, m: nat)
    requires i <= j <= l <= m <= |x|
    ensures x[i..m] == x[i..j] + x[j..l] + x[l..m]
  {
  }

  /** A prefix grows by the slice after it. */
  lemma Extend(x: string, i: nat, j: nat)
    requires i <= j <= |x|
    ensures x[..j] == x[..i] + x[i..j]
  {
  }

  /** The staged groups and gaps sit exactly at the staged positions. */
  lemma StagedCuts(t: string, k: Cuts, dash: bool)
    requires Ordered(t, k, dash)
    ensures FitCuts(StagedFields(t, k), StagedGaps(t, k, dash)) == k
  {
  }

  /** The staged groups and gaps, written, are the front of `t` up to `g`. */
  lemma StagedWrite(t: string, k: Cuts, dash: bool)
    requires Ordered(t, k, dash)
    ensures WriteTimes(StagedFields(t, k), StagedGaps(t, k, dash)) == t[..k.g]
  {
    var f, w := StagedFields(t, k), StagedGaps(t, k, dash);
    var m := k.b + |DashText(w)|;
    assert t[..k.a] == GroupText(f.start);
    assert t[k.b..m] == DashText(w);
    assert t[k.c..k.d] == GroupText(f.end);
    Extend(t, k.a, k.b);
    Extend(t, k.b, m);
    Extend(t, m, k.c);
    Extend(t, k.c, k.d);
    Extend(t, k.d, k.e);
    Extend(t, k.e, k.g);
  }

  /** The staged gaps are whitespace. */
  lemma StagedRuns(t: string, k: Cuts, dash: bool)
    requires Staged(t, k, dash)
    ensures var w := StagedGaps(t, k, dash);
      AllWhitespace(w.lead) && AllWhitespace(w.after) && AllWhitespace(w.trail)
  {
    SkipRun(t, k.a);
    SkipRun(t, k.d);
    if dash {
      SkipRun(t, k.b + 1);
    }
  }

  /** The staged start is the longest clock token at the front of `t`. */
  lemma StagedStart(t: string, k: Cuts, dash: bool)
    requires Ordered(t, k, dash) && ClockTokenAt(t, 0) == k.a
    ensures var f := StagedFields(t, k);
      && (f.start.Some? ==> IsClockToken(f.start.value))
      && NoTokenBeyond(t, |GroupText(f.start)|)
  {
    ClockTokenAtLongest(t, 0);
    assert forall j | 0 <= j <= |t| :: t[0..j] == t[..j];
  }

  /** Without an end, nothing lies between the end position and the body. */
  lemma StagedNoEnd(t: string, k: Cuts, dash: bool)
    requires Staged(t, k, dash) && k.d == k.c
    ensures k.e == k.d && StopAt(t, k.d)
  {
    if dash {
      SkipRun(t, k.b + 1);
    } else {
      SkipRun(t, k.a);
    }
    SpanUnique(t, k.d, Whitespace, 0);
  }

  /** The greedy token at `c` is the longest token at the front of any slice from `c`. */
  lemma EndLongest(t: string, c: nat, n: nat, g: nat)
    requires c + n <= g <= |t| && ClockTokenAt(t, c) == n
    ensures NoTokenBeyond(t[c..g], n) && (n > 0 ==> IsClockToken(t[c..c + n]))
  {
    ClockTokenAtLongest(t, c);
    assert forall j | 0 <= j <= g - c :: t[c..g][..j] == t[c..c + j];
  }

  /** The end token read after a dash is the longest there, and a missing one means none
      starts there. */
  lemma StagedEnd(t: string, k: Cuts, dash: bool)
    requires Ordered(t, k, dash) && dash && ClockTokenAt(t, k.c) == k.d - k.c
    requires k.d == k.c ==> k.e == k.d
    ensures var f, w := StagedFields(t, k), StagedGaps(t, k, dash);
      && (f.end.Some? ==> IsClockToken(f.end.value) && NoTokenBeyond(f.end.value + w.trail + f.taskBody, |f.end.value|))
      && (f.end.None? ==> NoTokenBeyond(f.taskBody, 0))
  {
    EndLongest(t, k.c, k.d - k.c, k.g);
    if k.d > k.c {
      Glue(t, k.c, k.d, k.e, k.g);
    }
  }

  /** The staged body: one line that starts after all the whitespace, and no dash was
      skipped when none was read. */
  lemma StagedBody(t: string, k: Cuts, dash: bool)
    requires Ordered(t, k, dash) && StopAt(t, k.e) && k.g == k.e + Span(t, k.e, NotTerminator)
    requires !dash ==> k.e == k.b
    ensures var f := StagedFields(t, k);
      && (!dash ==> (|f.taskBody| > 0 ==> f.taskBody[0] != '-'))
      && SingleLine(f.taskBody)
      && (if |f.taskBody| == 0 then k.g == |t| else !IsWhitespace(f.taskBody[0]))
      && (k.g == |t| || IsLineTerminator(t[k.g]))
  {
    var body := t[k.e..k.g];
    SpanMembers(t, k.e, NotTerminator);
    assert forall j | 0 <= j < |body| :: body[j] == t[k.e + j];
  }

  /** Soundness: the staged groups and gaps fit `t`. */
  lemma StagedFit(t: string, k: Cuts, dash: bool)
    requires Staged(t, k, dash)
    ensures TimesFit(t, StagedFields(t, k), StagedGaps(t, k, dash))
  {
    StagedCuts(t, k, dash);
    StagedWrite(t, k, dash);
    StagedRuns(t, k, dash);
    StagedStart(t, k, dash);
    SkipRun(t, k.d);
    if k.d == k.c {
      StagedNoEnd(t, k, dash);
    }
    if dash {
      StagedEnd(t, k, dash);
    }
    StagedBody(t, k, dash);
  }

  /** Soundness of the scan: `t` has the shape of the groups at the positions it stops at. */
  lemma ScanSound(t: string)
    ensures TimesShape(t, StagedFields(t, ScanCuts(t)))
  {
    var k, dash := ScanCuts(t), ScanDash(t);
    ScanStaged(t);
    StagedFit(t, k, dash);
  }

  /** Completeness: a text that has the shape of some groups reads as exactly those groups. */
  lemma FitMatch(t: string, f: TimeFields, w: TimeGaps)
    requires TimesFit(t, f, w)
    ensures MatchTimes(t) == f
  {
    var k := FitCuts(f, w);
    FitSlices(t, f, w);
    FitScan(t, f, w);
    if f.start.Some? {
      TokenLength(f.start.value);
    }
    if f.end.Some? {
      TokenLength(f.end.value);
    }
    MatchFromScan(t, TimeScan(k.a, k.c, k.d, k.e, k.g));
  }

  /** How Task.toString writes the times in front of the body: `start-end `, `start `,
      `end ` or nothing. */
  function TimesPrefix(f: TimeFields): string {
    match (f.start, f.end)
    case (Some(s), Some(e)) => s + "-" + e + " "
    case (Some(s), None) => s + " "
    case (None, Some(e)) => e + " "
    case (None, None) => ""
  }

  function RenderTimes(f: TimeFields): string {
    TimesPrefix(f) + f.taskBody
  }

  /** Fields that survive being written and read back: clock tokens, an end only with a
      start, and a trimmed one-line body that cannot be mistaken for a time or a dash. */
  predicate Renderable(f: TimeFields) {
    && (f.start.Some? ==> IsClockToken(f.start.value))
    && (f.end.Some? ==> f.start.Some? && IsClockToken(f.end.value))
    && SingleLine(f.taskBody)
    && (|f.taskBody| == 0 || (!IsWhitespace(f.taskBody[0]) && !IsWhitespace(f.taskBody[|f.taskBody| - 1])))
    && (f.start.None? ==> forall j | 0 <= j <= |f.taskBody| :: !IsClockToken(f.taskBody[..j]))
    && (f.end.None? && |f.taskBody| > 0 ==> f.taskBody[0] != '-')
  }

  /** The groups read off a known scan. */
  lemma MatchFromScan(t: string, sc: TimeScan)
    requires ScanTimes(t) == sc
    ensures MatchTimes(t) == TimeFields(
      if sc.startTo > 0 then Some(t[..sc.startTo]) else None,
      if sc.endTo > sc.endFrom then Some(t[sc.endFrom..sc.endTo]) else None,
      t[sc.bodyFrom..sc.bodyTo])
  {
  }

  /** The last stage on a line whose body `b` follows at most one space after `p4`. */
  lemma ScanBodyTail(t: string, n0: nat, p3: nat, p4: nat, f: nat, b: string)
    requires n0 <= p3 <= p4 <= f <= p4 + 1
    requires |t| == f + |b| && t[f..] == b
    requires f == p4 + 1 ==> t[p4] == ' '
    requires SingleLine(b) && (|b| == 0 || !IsWhitespace(b[0]))
    ensures ScanBody(t, n0, p3, p4) == TimeScan(n0, p3, p4, f, |t|)
  {
    assert forall j | f <= j < |t| :: t[j] == b[j - f];
    SpanUnique(t, p4, Whitespace, f - p4);
    SpanUnique(t, f, NotTerminator, |t| - f);
  }

  /** The scan of a body with no time in front. */
  lemma ScanBodyOnly(b: string)
    requires SingleLine(b)
    requires |b| == 0 || (!IsWhitespace(b[0]) && b[0] != '-')
    requires forall j | 0 <= j <= |b| :: !IsClockToken(b[..j])
    ensures ScanTimes(b) == TimeScan(0, 0, 0, 0, |b|)
  {
    var n0 := ClockTokenAt(b, 0);
    assert b[0..n0] == b[..n0];
    SpanUnique(b, 0, Whitespace, 0);
    ScanBodyTail(b, 0, 0, 0, 0, b);
  }

  /** The scan goes on from where the start token ends. */
  lemma ScanFromStart(t: string, n0: nat, sc: TimeScan)
    requires n0 <= |t| && ClockTokenAt(t, 0) == n0 && ScanAfterStart(t, n0) == sc
    ensures ScanTimes(t) == sc
  {
  }

  /** The scan takes the dash path with the stages' results. */
  lemma ScanViaDash(t: string, n0: nat, p1: nat, p3: nat, n: nat, sc: TimeScan)
    requires n0 <= p1 < p3 && p3 + n <= |t|
    requires ClockTokenAt(t, 0) == n0 && SkipSpace(t, n0) == p1 && t[p1] == '-'
    requires SkipSpace(t, p1 + 1) == p3 && ClockTokenAt(t, p3) == n
    requires ScanBody(t, n0, p3, p3 + n) == sc
    ensures ScanTimes(t) == sc
  {
    DashPath(t, n0, p1, p3);
    EndStage(t, n0, p3, n);
    ScanFromStart(t, n0, sc);
  }

  /** A dash after the start token and its spaces leads to the end stage. */
  lemma DashPath(t: string, n0: nat, p1: nat, p3: nat)
    requires n0 <= p1 < p3 <= |t|
    requires SkipSpace(t, n0) == p1 && t[p1] == '-' && SkipSpace(t, p1 + 1) == p3
    ensures ScanAfterStart(t, n0) == ScanEnd(t, n0, p3)
  {
  }

  /** The end stage reads the token at `p3`. */
  lemma EndStage(t: string, n0: nat, p3: nat, n: nat)
    requires n0 <= p3 && p3 + n <= |t| && ClockTokenAt(t, p3) == n
    ensures ScanEnd(t, n0, p3) == ScanBody(t, n0, p3, p3 + n)
  {
  }

  /** The scan takes the path without a dash with the stages' results. */
  lemma ScanWithoutDash(t: string, n0: nat, p1: nat, sc: TimeScan)
    requires n0 <= p1 <= |t|
    requires ClockTokenAt(t, 0) == n0 && SkipSpace(t, n0) == p1 && (p1 == |t| || t[p1] != '-')
    requires ScanBody(t, n0, p1, p1) == sc
    ensures ScanTimes(t) == sc
  {
    assert ScanAfterStart(t, n0) == sc;
    ScanFromStart(t, n0, sc);
  }

  /** The scan of a start time, then the body after one space. */
  lemma ScanStartOnly(s: string, b: string, t: string)
    requires IsClockToken(s) && SingleLine(b)
    requires |b| == 0 || (!IsWhitespace(b[0]) && b[0] != '-')
    requires t == if |b| == 0 then s else s + " " + b
    ensures ScanTimes(t) == var f := if |b| == 0 then |s| else |s| + 1; TimeScan(|s|, f, f, f, |t|)
  {
    var f := if |b| == 0 then |s| else |s| + 1;
    assert t[..|s|] == s;
    ClockTokenAtExact(t, 0, s);
    assert t[f..] == b;
    SpanUnique(t, |s|, Whitespace, f - |s|);
    ScanBodyTail(t, |s|, f, f, f, b);
  }

  /** Where `start-end` puts its pieces at the front of `t`. */
  lemma StartEndFront(s: string, e: string, t: string)
    requires |t| >= |s| + 1 + |e| && t[..|s| + 1 + |e|] == s + "-" + e
    ensures t[..|s|] == s && t[|s|] == '-' && t[|s| + 1..|s| + 1 + |e|] == e
  {
    var p4 := |s| + 1 + |e|;
    assert t[..|s|] == t[..p4][..|s|];
    assert t[|s| + 1..p4] == t[..p4][|s| + 1..];
  }

  /** A start token followed by a dash: the token is read whole and no space is skipped. */
  lemma StartBeforeDash(s: string, t: string)
    requires IsClockToken(s) && |s| < |t| && t[..|s|] == s && t[|s|] == '-'
    ensures ClockTokenAt(t, 0) == |s| && SkipSpace(t, |s|) == |s|
  {
    assert t[0..|s|] == s;
    ClockTokenAtExact(t, 0, s);
    SpanUnique(t, |s|, Whitespace, 0);
  }

  /** An end token at `i` followed by a space or the end: nothing is skipped before it and it
      is read whole. */
  lemma EndAt(e: string, t: string, i: nat)
    requires IsClockToken(e) && i + |e| <= |t| && t[i..i + |e|] == e
    requires i + |e| == |t| || t[i + |e|] == ' '
    ensures SkipSpace(t, i) == i && ClockTokenAt(t, i) == |e|
  {
    TokenEdges(e);
    assert t[i] == e[0];
    SpanUnique(t, i, Whitespace, 0);
    ClockTokenAtExact(t, i, e);
  }

  /** The stages of the scan of `start-end` up to the end token. */
  lemma StartEndStages(s: string, e: string, t: string)
    requires IsClockToken(s) && IsClockToken(e)
    requires |t| >= |s| + 1 + |e| && t[..|s| + 1 + |e|] == s + "-" + e
    requires |t| == |s| + 1 + |e| || t[|s| + 1 + |e|] == ' '
    ensures ClockTokenAt(t, 0) == |s| && SkipSpace(t, |s|) == |s| && t[|s|] == '-'
    ensures SkipSpace(t, |s| + 1) == |s| + 1 && ClockTokenAt(t, |s| + 1) == |e|
  {
    StartEndFront(s, e, t);
    StartBeforeDash(s, t);
    EndAt(e, t, |s| + 1);
  }

  /** Where `start-end body` puts its pieces. */
  lemma StartEndLayout(s: string, e: string, b: string, t: string)
    requires t == if |b| == 0 then s + "-" + e else s + "-" + e + " " + b
    ensures var p4 := |s| + 1 + |e|;
      var f := if |b| == 0 then p4 else p4 + 1;
      && |t| == f + |b| && t[..p4] == s + "-" + e && t[f..] == b
      && (|t| == p4 || t[p4] == ' ')
  {
  }

  /** The scan of `start-end` at the front of `t`, then the body `b` from `f` on. */
  lemma ScanStartEndAt(s: string, e: string, b: string, t: string, f: nat)
    requires IsClockToken(s) && IsClockToken(e) && SingleLine(b)
    requires |b| == 0 || !IsWhitespace(b[0])
    requires |t| == f + |b| && ((f == |s| + 1 + |e| && |b| == 0) || (f == |s| + 2 + |e| && t[|s| + 1 + |e|] == ' '))
    requires t[..|s| + 1 + |e|] == s + "-" + e && t[f..] == b
    ensures ScanTimes(t) == TimeScan(|s|, |s| + 1, |s| + 1 + |e|, f, |t|)
  {
    var p4 := |s| + 1 + |e|;
    StartEndStages(s, e, t);
    ScanBodyTail(t, |s|, |s| + 1, p4, f, b);
    ScanViaDash(t, |s|, |s|, |s| + 1, |e|, TimeScan(|s|, |s| + 1, p4, f, |t|));
  }

  /** The scan of `start-end`, then the body after one space. */
  lemma ScanStartEnd(s: string, e: string, b: string, t: string)
    requires IsClockToken(s) && IsClockToken(e) && SingleLine(b)
    requires |b| == 0 || !IsWhitespace(b[0])
    requires t == if |b| == 0 then s + "-" + e else s + "-" + e + " " + b
    ensures ScanTimes(t) ==
      var p4 := |s| + 1 + |e|;
      TimeScan(|s|, |s| + 1, p4, if |b| == 0 then p4 else p4 + 1, |t|)
  {
    StartEndLayout(s, e, b, t);
    ScanStartEndAt(s, e, b, t, if |b| == 0 then |s| + 1 + |e| else |s| + 2 + |e|);
  }

  /** Round trip of a body with no times. */
  lemma RoundTripBodyOnly(f: TimeFields)
    requires Renderable(f) && f.start.None?
    ensures MatchTimes(Trim(RenderTimes(f))) == f
  {
    var b := f.taskBody;
    assert RenderTimes(f) == b;
    if |b| > 0 {
      TrimExact(b, 0, |b|);
    } else {
      SpanUnique(b, 0, Whitespace, 0);
    }
    assert Trim(RenderTimes(f)) == b;
    ScanBodyOnly(b);
    MatchFromScan(b, TimeScan(0, 0, 0, 0, |b|));
    assert b[0..|b|] == b;
    assert MatchTimes(b) == f;
  }

  /** Where the pieces of `start body` sit. */
  lemma StartOnlySlices(s: string, b: string, t: string)
    requires t == if |b| == 0 then s else s + " " + b
    ensures var k := if |b| == 0 then |s| else |s| + 1;
      && |t| == k + |b|
      && t[..|s|] == s && t[k..|t|] == b
  {
  }

  /** Trimming `start body` removes only the space an empty body leaves behind. */
  lemma TrimStartOnly(f: TimeFields)
    requires Renderable(f) && f.start.Some? && f.end.None?
    ensures Trim(RenderTimes(f)) ==
      var s, b := f.start.value, f.taskBody;
      if |b| == 0 then s else s + " " + b
  {
    var s, b := f.start.value, f.taskBody;
    var r := RenderTimes(f);
    TokenEdges(s);
    if |b| > 0 {
      assert r == s + " " + b;
      assert r[|r| - 1] == b[|b| - 1];
      TrimExact(r, 0, |r|);
      assert r[0..|r|] == r;
    } else {
      assert r == s + " ";
      assert r[..|r| - 1] == s;
      assert r[|r| - 2] == s[|s| - 1];
      TrimExact(r, 0, |r| - 1);
    }
  }

  /** Round trip of a start time and a body. */
  lemma RoundTripStartOnly(f: TimeFields)
    requires Renderable(f) && f.start.Some? && f.end.None?
    ensures MatchTimes(Trim(RenderTimes(f))) == f
  {
    var s, b := f.start.value, f.taskBody;
    var t := if |b| == 0 then s else s + " " + b;
    TrimStartOnly(f);
    ScanStartOnly(s, b, t);
    var k := if |b| == 0 then |s| else |s| + 1;
    MatchFromScan(t, TimeScan(|s|, k, k, k, |t|));
    StartOnlySlices(s, b, t);
    assert MatchTimes(t) == f;
  }

  /** Trimming `start-end body` removes only the space an empty body leaves behind. */
  lemma TrimStartEnd(f: TimeFields)
    requires Renderable(f) && f.start.Some? && f.end.Some?
    ensures Trim(RenderTimes(f)) ==
      var s, e, b := f.start.value, f.end.value, f.taskBody;
      if |b| == 0 then s + "-" + e else s + "-" + e + " " + b
  {
    var s, e, b := f.start.value, f.end.value, f.taskBody;
    var r := RenderTimes(f);
    TokenEdges(s);
    TokenEdges(e);
    if |b| > 0 {
      assert r == s + "-" + e + " " + b;
      assert r[|r| - 1] == b[|b| - 1];
      TrimExact(r, 0, |r|);
      assert r[0..|r|] == r;
    } else {
      assert r == s + "-" + e + " ";
      assert r[..|r| - 1] == s + "-" + e;
      assert r[|r| - 2] == e[|e| - 1];
      TrimExact(r, 0, |r| - 1);
    }
  }

  /** Where the pieces of `start-end body` sit. */
  lemma StartEndSlices(s: string, e: string, b: string, t: string)
    requires t == if |b| == 0 then s + "-" + e else s + "-" + e + " " + b
    ensures var p4 := |s| + 1 + |e|;
      var k := if |b| == 0 then p4 else p4 + 1;
      && |t| == k + |b|
      && t[..|s|] == s && t[|s| + 1..p4] == e && t[k..|t|] == b
  {
  }

  /** Round trip of a start time, an end time and a body. */
  lemma RoundTripStartEnd(f: TimeFields)
    requires Renderable(f) && f.start.Some? && f.end.Some?
    ensures MatchTimes(Trim(RenderTimes(f))) == f
  {
    var s, e, b := f.start.value, f.end.value, f.taskBody;
    TrimStartEnd(f);
    MatchStartEnd(s, e, b, if |b| == 0 then s + "-" + e else s + "-" + e + " " + b);
  }

  /** `start-end`, then the body after one space, reads as those two times and the body. */
  lemma MatchStartEnd(s: string, e: string, b: string, t: string)
    requires IsClockToken(s) && IsClockToken(e) && SingleLine(b)
    requires |b| == 0 || !IsWhitespace(b[0])
    requires t == if |b| == 0 then s + "-" + e else s + "-" + e + " " + b
    ensures MatchTimes(t) == TimeFields(Some(s), Some(e), b)
  {
    TokenLength(s);
    TokenLength(e);
    var p4 := |s| + 1 + |e|;
    var k := if |b| == 0 then p4 else p4 + 1;
    ScanStartEnd(s, e, b, t);
    StartEndSlices(s, e, b, t);
    MatchOfScan(t, s, e, b, k);
  }

  /** The groups of a scan that found a start, an end and a body at known places. */
  lemma MatchOfScan(t: string, s: string, e: string, b: string, k: nat)
    requires 0 < |s| && 0 < |e| && |s| + 1 + |e| <= k <= |t|
    requires ScanTimes(t) == TimeScan(|s|, |s| + 1, |s| + 1 + |e|, k, |t|)
    requires t[..|s|] == s && t[|s| + 1..|s| + 1 + |e|] == e && t[k..|t|] == b
    ensures MatchTimes(t) == TimeFields(Some(s), Some(e), b)
  {
    MatchFromScan(t, TimeScan(|s|, |s| + 1, |s| + 1 + |e|, k, |t|));
  }

  /** Writing renderable fields and reading them back gives the same fields. */
  lemma RenderThenMatch(f: TimeFields)
    requires Renderable(f)
    ensures MatchTimes(Trim(RenderTimes(f))) == f
  {
    if f.start.None? {
      RoundTripBodyOnly(f);
    } else if f.end.None? {
      RoundTripStartOnly(f);
    } else {
      RoundTripStartEnd(f);
    }
  }

  /** An end time without a start is written as `end body` and read back as a start time:
      the reading cannot tell the two apart. */
  lemma EndOnlyReadsAsStart(e: string, b: string)
    requires Renderable(TimeFields(Some(e), None, b))
    ensures RenderTimes(TimeFields(None, Some(e), b)) == RenderTimes(TimeFields(Some(e), None, b))
    ensures MatchTimes(Trim(RenderTimes(TimeFields(None, Some(e), b)))) == TimeFields(Some(e), None, b)
  {
    RenderThenMatch(TimeFields(Some(e), None, b));
  }

  /** The pieces of the first example. */
  lemma StartExamplePieces(t: string, body: string)
    requires t == "10:00 task content" && body == "task content"
    ensures IsClockToken("10:00") && SingleLine(body) && !IsWhitespace(body[0]) && body[0] != '-'
    ensures t == "10:00" + " " + body
  {
    assert ColonAt("10:00") == 2;
  }

  /** The first example in the source's documentation: a start time and a body. */
  lemma StartExample(t: string)
    requires t == "10:00 task content"
    ensures MatchTimes(t) == TimeFields(Some("10:00"), None, "task content")
  {
    StartExamplePieces(t, "task content");
    ScanStartOnly("10:00", "task content", t);
    MatchFromScan(t, TimeScan(5, 6, 6, 6, |t|));
    StartOnlySlices("10:00", "task content", t);
  }

  /** The pieces of the second example. */
  lemma StartEndExamplePieces(t: string, body: string)
    requires t == "10:00-12:00 task content" && body == "task content"
    ensures IsClockToken("10:00") && IsClockToken("12:00") && SingleLine(body) && !IsWhitespace(body[0])
    ensures t == "10:00" + "-" + "12:00" + " " + body
  {
    assert ColonAt("10:00") == 2 && ColonAt("12:00") == 2;
  }

  /** The second example in the source's documentation: a start, an end and a body. */
  lemma StartEndExample(t: string)
    requires t == "10:00-12:00 task content"
    ensures MatchTimes(t) == TimeFields(Some("10:00"), Some("12:00"), "task content")
  {
    StartEndExamplePieces(t, "task content");
    ScanStartEnd("10:00", "12:00", "task content", t);
    MatchFromScan(t, TimeScan(5, 6, 11, 12, |t|));
    StartEndSlices("10:00", "12:00", "task content", t);
  }

  /** A dash at the start: no start token and no space before the dash. */
  lemma DashFirst(t: string)
    requires |t| > 0 && t[0] == '-'
    ensures ClockTokenAt(t, 0) == 0 && SkipSpace(t, 0) == 0
  {
    SpanUnique(t, 0, Digit, 0);
    SpanUnique(t, 0, Whitespace, 0);
  }

  /** After `- `, a body that does not begin with whitespace or a time: one space is
      skipped and no end token follows. */
  lemma BodyAfterDash(t: string, b: string)
    requires |t| == |b| + 2 && t[1] == ' ' && t[2..] == b
    requires |b| == 0 || !IsWhitespace(b[0])
    requires forall j | 0 <= j <= |b| :: !IsClockToken(b[..j])
    ensures SkipSpace(t, 1) == 2 && ClockTokenAt(t, 2) == 0
  {
    if |b| > 0 {
      assert t[2] == b[0];
    }
    SpanUnique(t, 1, Whitespace, 1);
    var n := ClockTokenAt(t, 2);
    assert t[2..2 + n] == b[..n];
  }

  /** A dash and a space in front of a body that does not begin with a time: there is no
      start token, the dash is consumed, no end token follows, and the body starts after
      the space. The dash is lost. */
  lemma DashSwallowed(b: string)
    requires SingleLine(b) && (|b| == 0 || !IsWhitespace(b[0]))
    requires forall j | 0 <= j <= |b| :: !IsClockToken(b[..j])
    ensures MatchTimes("- " + b) == TimeFields(None, None, b)
  {
    var t := "- " + b;
    assert t[0] == '-' && t[1] == ' ' && t[2..] == b;
    DashFirst(t);
    BodyAfterDash(t, b);
    ScanBodyTail(t, 0, 2, 2, 2, b);
    ScanViaDash(t, 0, 0, 2, 0, TimeScan(0, 2, 2, 2, |t|));
    MatchFromScan(t, TimeScan(0, 2, 2, 2, |t|));
    assert t[2..|t|] == b;
  }
}
