/** The checkbox-line pattern, written once. The source spells it as a regular expression
    built from four pieces,
        indentation  list-marker  ` +`  `\[(.)\]`  ` *(.*)`
    anchored at the start of the line. Four files carry the same narrow spelling; a fifth
    (TaskRegularExpressions.ts) also allows `>` in the indentation and numbered markers.

    The scanner below follows the regular expression's greedy choices. No backtracking can
    change the captures: an indentation character is never a list-marker character, a space
    is never `[`, a digit is never `.`, and the final `.*` always succeeds. */
module CheckboxGrammar {
  import opened Results
  import opened Text

  datatype Grammar =
    | Narrow   // indentation [\s\t]*, marker [-*+]
    | Wide     // indentation [\s\t>]*, marker [-*+] or [0-9]+\.

  function IndentClass(g: Grammar): CharClass {
    if g == Narrow then Whitespace else WhitespaceOrQuote
  }

  /** The four named groups of a match. */
  datatype CheckboxParts = CheckboxParts(indentation: string, listMarker: string, statusSymbol: string, body: string)

  predicate IsBullet(c: char) {
    c == '-' || c == '*' || c == '+'
  }

  predicate IsListMarker(g: Grammar, m: string) {
    || (|m| == 1 && IsBullet(m[0]))
    || (g == Wide && |m| >= 2 && m[|m| - 1] == '.' && AllDigits(m[..|m| - 1]))
  }

  /** Length of the list marker at `i`, or 0 when there is none. */
  function MarkerLength(g: Grammar, line: string, i: nat): (n: nat)
    requires i <= |line|
    ensures n == 0 || (i + n <= |line| && IsListMarker(g, line[i..i + n]))
  {
    if i < |line| && IsBullet(line[i]) then 1
    else if g == Wide then
      var d := Span(line, i, Digit);
      if 1 <= d && i + d < |line| && line[i + d] == '.' then
        SpanMembers(line, i, Digit);
        assert line[i..i + d + 1][..d] == line[i..i + d];
        d + 1
      else 0
    else 0
  }

  /** Where a match puts its groups: the indentation is `line[..indentEnd]`, the marker
      `line[indentEnd..markerEnd]`, `[` sits at `openAt`, and the body is
      `line[bodyFrom..bodyTo]`. */
  datatype Bounds = Bounds(indentEnd: nat, markerEnd: nat, openAt: nat, bodyFrom: nat, bodyTo: nat)

  /** The part of a match after the list marker: spaces from `markerEnd` up to the `[` at
      `openAt`, the one-character checkbox, spaces up to `bodyFrom`, and a body that runs to
      the end of the line at `bodyTo`. */
  predicate ValidTail(line: string, markerEnd: nat, openAt: nat, bodyFrom: nat, bodyTo: nat) {
    && markerEnd < openAt
    && openAt + 3 <= bodyFrom <= bodyTo <= |line|
    && (forall j | markerEnd <= j < openAt :: line[j] == ' ')
    && line[openAt] == '[' && !IsLineTerminator(line[openAt + 1]) && line[openAt + 2] == ']'
    && (forall j | openAt + 3 <= j < bodyFrom :: line[j] == ' ')
    && (bodyFrom == |line| || line[bodyFrom] != ' ')
    && (forall j | bodyFrom <= j < bodyTo :: !IsLineTerminator(line[j]))
    && (bodyTo == |line| || IsLineTerminator(line[bodyTo]))
  }

  /** The positions of a match, spelled out piece by piece. */
  predicate ValidBounds(g: Grammar, line: string, bd: Bounds) {
    && bd.indentEnd < bd.markerEnd <= |line|
    && (forall j | 0 <= j < bd.indentEnd :: InClass(IndentClass(g), line[j]))
    && IsListMarker(g, line[bd.indentEnd..bd.markerEnd])
    && ValidTail(line, bd.markerEnd, bd.openAt, bd.bodyFrom, bd.bodyTo)
  }

  /** Match ` +\[(.)\] *(.*)` at `b`, giving the positions of `[`, of the body and of its end. */
  function LocateTail(line: string, b: nat): Option<(nat, nat, nat)>
    requires b <= |line|
  {
    var k := Span(line, b, Space);
    var o := b + k;
    if k == 0 || |line| < o + 3 || line[o] != '[' || IsLineTerminator(line[o + 1]) || line[o + 2] != ']' then
      None
    else
      var m := Span(line, o + 3, Space);
      var n := Span(line, o + 3 + m, NotTerminator);
      Some((o, o + 3 + m, o + 3 + m + n))
  }

  /** Match the checkbox pattern at the start of `line`. */
  function Locate(g: Grammar, line: string): Option<Bounds>
  {
    LocateAfterIndent(g, line, Span(line, 0, IndentClass(g)))
  }

  /** The rest of the match once the indentation ends at `a`: a list marker, then the
      tail. */
  function LocateAfterIndent(g: Grammar, line: string, a: nat): Option<Bounds>
    requires a <= |line|
  {
    var ml := MarkerLength(g, line, a);
    if ml == 0 then None else LocateAfterMarker(line, a, a + ml)
  }

  /** The rest of the match once the marker spans `line[a..b]`. */
  function LocateAfterMarker(line: string, a: nat, b: nat): Option<Bounds>
    requires a <= b <= |line|
  {
    match LocateTail(line, b)
    case None => None
    case Some((o, f, e)) => Some(Bounds(a, b, o, f, e))
  }

  /** The tail scanner only reports positions that satisfy the tail of the pattern. */
  lemma LocateTailSound(line: string, b: nat)
    requires b <= |line| && LocateTail(line, b).Some?
    ensures var t := LocateTail(line, b).value; ValidTail(line, b, t.0, t.1, t.2)
  {
    var o := b + Span(line, b, Space);
    var f := o + 3 + Span(line, o + 3, Space);
    SpanMembers(line, b, Space);
    SpanMembers(line, o + 3, Space);
    SpanMembers(line, f, NotTerminator);
  }

  /** What a successful scan is made of: the indentation run, a non-empty marker and a
      tail match. */
  lemma LocateStages(g: Grammar, line: string)
    requires Locate(g, line).Some?
    ensures var a := Span(line, 0, IndentClass(g));
      var ml := MarkerLength(g, line, a);
      && ml > 0 && LocateTail(line, a + ml).Some?
      && var t := LocateTail(line, a + ml).value;
      Locate(g, line).value == Bounds(a, a + ml, t.0, t.1, t.2)
  {
    var a := Span(line, 0, IndentClass(g));
    assert LocateAfterIndent(g, line, a).Some?;
    var ml := MarkerLength(g, line, a);
    assert LocateAfterMarker(line, a, a + ml).Some?;
  }

  /** Positions put together from the stages' results satisfy the pattern. */
  lemma StagesValid(g: Grammar, line: string, bd: Bounds)
    requires bd.indentEnd < bd.markerEnd <= |line|
    requires Span(line, 0, IndentClass(g)) == bd.indentEnd
    requires MarkerLength(g, line, bd.indentEnd) == bd.markerEnd - bd.indentEnd
    requires LocateTail(line, bd.markerEnd) == Some((bd.openAt, bd.bodyFrom, bd.bodyTo))
    ensures ValidBounds(g, line, bd)
  {
    IndentStage(g, line, bd.indentEnd);
    MarkerStage(g, line, bd.indentEnd, bd.markerEnd);
    TailStage(line, bd.markerEnd, bd.openAt, bd.bodyFrom, bd.bodyTo);
    PiecesValid(g, line, bd);
  }

  /** The indentation the scanner skips is made of indentation characters. */
  lemma IndentStage(g: Grammar, line: string, a: nat)
    requires a <= |line| && Span(line, 0, IndentClass(g)) == a
    ensures forall j | 0 <= j < a :: InClass(IndentClass(g), line[j])
  {
    SpanMembers(line, 0, IndentClass(g));
  }

  /** A marker the scanner measures between `a` and `b` is a list marker. */
  lemma MarkerStage(g: Grammar, line: string, a: nat, b: nat)
    requires a < b <= |line| && MarkerLength(g, line, a) == b - a
    ensures IsListMarker(g, line[a..b])
  {
    var n := MarkerLength(g, line, a);
    assert a + n == b;
  }

  /** Positions the tail scanner reports satisfy the tail of the pattern. */
  lemma TailStage(line: string, b: nat, o: nat, f: nat, e: nat)
    requires b <= |line| && LocateTail(line, b) == Some((o, f, e))
    ensures ValidTail(line, b, o, f, e)
  {
    LocateTailSound(line, b);
  }

  /** The pieces of the pattern, each shown on its own, make valid positions. */
  lemma PiecesValid(g: Grammar, line: string, bd: Bounds)
    requires bd.indentEnd < bd.markerEnd <= |line|
    requires forall j | 0 <= j < bd.indentEnd :: InClass(IndentClass(g), line[j])
    requires IsListMarker(g, line[bd.indentEnd..bd.markerEnd])
    requires ValidTail(line, bd.markerEnd, bd.openAt, bd.bodyFrom, bd.bodyTo)
    ensures ValidBounds(g, line, bd)
  {
  }

  /** The scanner only reports positions that satisfy the pattern. */
  lemma LocateSound(g: Grammar, line: string)
    requires Locate(g, line).Some?
    ensures ValidBounds(g, line, Locate(g, line).value)
  {
    LocateStages(g, line);
    StagesValid(g, line, Locate(g, line).value);
  }

  /** The groups at the given positions. */
  function Groups(line: string, bd: Bounds): CheckboxParts
    requires bd.indentEnd <= bd.markerEnd <= bd.openAt && bd.openAt + 3 <= bd.bodyFrom <= bd.bodyTo <= |line|
  {
    CheckboxParts(line[..bd.indentEnd], line[bd.indentEnd..bd.markerEnd],
                  line[bd.openAt + 1..bd.openAt + 2], line[bd.bodyFrom..bd.bodyTo])
  }

  /** `line.match(CHECKBOX_REGEX)` and its named groups; no match is NotATask. */
  function Split(g: Grammar, line: string): (r: Result<CheckboxParts>)
    ensures r.Err? ==> r.error == NotATask
  {
    match Locate(g, line)
    case None => Err(NotATask)
    case Some(bd) => Ok(Groups(line, bd))
  }

  /** The narrow pattern rejects a line that starts with neither whitespace nor a bullet. */
  lemma NarrowNeedsBullet(line: string)
    requires |line| > 0 && !IsWhitespace(line[0]) && !IsBullet(line[0])
    ensures Split(Narrow, line) == Err(NotATask)
  {
    assert Span(line, 0, Whitespace) == 0;
  }

  /** A bullet and a space followed by anything but a space or `[` is a list item, not a
      task. */
  lemma BulletWithoutCheckbox(line: string)
    requires |line| >= 3 && IsBullet(line[0]) && line[1] == ' ' && line[2] != ' ' && line[2] != '['
    ensures Split(Narrow, line) == Err(NotATask)
  {
    assert Span(line, 0, Whitespace) == 0;
    SpanUnique(line, 1, Space, 1);
  }

  /** The text a match covers, with `k` spaces before the checkbox and `m` after it. */
  function Render(p: CheckboxParts, k: nat, m: nat): string {
    p.indentation + p.listMarker + Spaces(k) + "[" + p.statusSymbol + "]" + Spaces(m) + p.body
  }

  /** Groups a match can produce: indentation of indentation characters, a list marker,
      exactly one non-terminator symbol, and a one-line body that does not start with a space. */
  predicate WellFormedParts(g: Grammar, p: CheckboxParts) {
    && (forall i | 0 <= i < |p.indentation| :: InClass(IndentClass(g), p.indentation[i]))
    && IsListMarker(g, p.listMarker)
    && |p.statusSymbol| == 1 && !IsLineTerminator(p.statusSymbol[0])
    && SingleLine(p.body)
    && (|p.body| == 0 || p.body[0] != ' ')
  }

  /** The declarative reading of the pattern: `line` begins with the rendering of
      well-formed groups, at least one space before `[`, and the body runs to the end of
      the line. */
  ghost predicate LineHasShape(g: Grammar, line: string, p: CheckboxParts) {
    && WellFormedParts(g, p)
    && exists k: nat, m: nat :: 1 <= k && EndsLineAt(Render(p, k, m), line)
  }

  /** Where each group sits in a rendering. */
  lemma RenderSegments(p: CheckboxParts, k: nat, m: nat)
    requires |p.statusSymbol| == 1
    ensures var a := |p.indentation|;
      var b := a + |p.listMarker|;
      var o := b + k;
      var r := Render(p, k, m);
      && |r| == o + 3 + m + |p.body|
      && r[..a] == p.indentation
      && r[a..b] == p.listMarker
      && r[b..o] == Spaces(k)
      && r[o] == '[' && r[o + 1..o + 2] == p.statusSymbol && r[o + 2] == ']'
      && r[o + 3..o + 3 + m] == Spaces(m)
      && r[o + 3 + m..] == p.body
  {
  }

  /** Groups read off consecutive slices of a line re-render that stretch of the line. */
  lemma RenderFromSlices(line: string, p: CheckboxParts, a: nat, b: nat, o: nat, m: nat, e: nat)
    requires a <= b <= o && o + 3 + m <= e <= |line|
    requires line[..a] == p.indentation && line[a..b] == p.listMarker
    requires line[b..o] == Spaces(o - b)
    requires line[o..o + 1] == "[" && line[o + 1..o + 2] == p.statusSymbol && line[o + 2..o + 3] == "]"
    requires line[o + 3..o + 3 + m] == Spaces(m)
    requires line[o + 3 + m..e] == p.body
    ensures line[..e] == Render(p, o - b, m)
  {
    PrefixConcat(line, a, b);
    assert line[..b] == p.indentation + p.listMarker;
    PrefixConcat(line, b, o);
    assert line[..o] == p.indentation + p.listMarker + Spaces(o - b);
    PrefixConcat(line, o, o + 1);
    assert line[..o + 1] == p.indentation + p.listMarker + Spaces(o - b) + "[";
    PrefixConcat(line, o + 1, o + 2);
    assert line[..o + 2] == p.indentation + p.listMarker + Spaces(o - b) + "[" + p.statusSymbol;
    PrefixConcat(line, o + 2, o + 3);
    assert line[..o + 3] == p.indentation + p.listMarker + Spaces(o - b) + "[" + p.statusSymbol + "]";
    PrefixConcat(line, o + 3, o + 3 + m);
    assert line[..o + 3 + m] == p.indentation + p.listMarker + Spaces(o - b) + "[" + p.statusSymbol + "]" + Spaces(m);
    PrefixConcat(line, o + 3 + m, e);
  }

  /** A run of spaces, as a slice. */
  lemma SpacesSlice(line: string, i: nat, j: nat)
    requires i <= j <= |line|
    requires forall q | i <= q < j :: line[q] == ' '
    ensures line[i..j] == Spaces(j - i)
  {
    assert forall q | 0 <= q < j - i :: line[i..j][q] == line[i + q];
  }

  /** A prefix is a shorter prefix followed by the slice between them. */
  lemma PrefixConcat(s: string, i: nat, j: nat)
    requires i <= j <= |s|
    ensures s[..j] == s[..i] + s[i..j]
  {
    assert s[..j] == s[..i] + s[i..j];
  }

  /** The groups at valid positions are groups a match can produce. */
  lemma GroupsWellFormed(g: Grammar, line: string, bd: Bounds)
    requires ValidBounds(g, line, bd)
    ensures WellFormedParts(g, Groups(line, bd))
  {
    var p := Groups(line, bd);
    assert forall j | 0 <= j < |p.indentation| :: p.indentation[j] == line[j];
    assert forall j | 0 <= j < |p.body| :: p.body[j] == line[bd.bodyFrom + j];
  }

  /** The groups at valid positions re-render the line up to its end. */
  lemma GroupsRender(g: Grammar, line: string, bd: Bounds)
    requires ValidBounds(g, line, bd)
    ensures EndsLineAt(Render(Groups(line, bd), bd.openAt - bd.markerEnd, bd.bodyFrom - bd.openAt - 3), line)
  {
    GroupsPrefix(line, bd);
  }

  /** The groups at the positions of a checkbox tail re-render the line up to the body's end. */
  lemma GroupsPrefix(line: string, bd: Bounds)
    requires bd.indentEnd <= bd.markerEnd && ValidTail(line, bd.markerEnd, bd.openAt, bd.bodyFrom, bd.bodyTo)
    ensures line[..bd.bodyTo] == Render(Groups(line, bd), bd.openAt - bd.markerEnd, bd.bodyFrom - bd.openAt - 3)
  {
    var p := Groups(line, bd);
    SpacesSlice(line, bd.markerEnd, bd.openAt);
    SpacesSlice(line, bd.openAt + 3, bd.bodyFrom);
    assert line[bd.openAt..bd.openAt + 1] == "[" && line[bd.openAt + 2..bd.openAt + 3] == "]";
    RenderFromSlices(line, p, bd.indentEnd, bd.markerEnd, bd.openAt, bd.bodyFrom - bd.openAt - 3, bd.bodyTo);
  }

  /** Every successful split is a match of the declarative shape. */
  lemma SplitSound(g: Grammar, line: string)
    requires Split(g, line).Ok?
    ensures LineHasShape(g, line, Split(g, line).value)
  {
    var bd := Locate(g, line).value;
    LocateSound(g, line);
    GroupsWellFormed(g, line, bd);
    GroupsRender(g, line, bd);
  }

  /** What a line that begins with a rendering holds at each position. */
  lemma LineSegments(line: string, p: CheckboxParts, k: nat, m: nat)
    requires |p.statusSymbol| == 1
    requires EndsLineAt(Render(p, k, m), line)
    ensures var a := |p.indentation|;
      var b := a + |p.listMarker|;
      var o := b + k;
      var e := o + 3 + m + |p.body|;
      && e <= |line|
      && (forall j | 0 <= j < a :: line[j] == p.indentation[j])
      && (forall j | a <= j < b :: line[j] == p.listMarker[j - a])
      && (forall j | b <= j < o :: line[j] == ' ')
      && line[o] == '[' && line[o + 1] == p.statusSymbol[0] && line[o + 2] == ']'
      && (forall j | o + 3 <= j < o + 3 + m :: line[j] == ' ')
      && (forall j | o + 3 + m <= j < e :: line[j] == p.body[j - (o + 3 + m)])
      && (e == |line| || IsLineTerminator(line[e]))
  {
    var r := Render(p, k, m);
    RenderSegments(p, k, m);
    assert forall j | 0 <= j < |r| :: line[j] == r[j];
  }

  /** A list marker at `a` is measured exactly. */
  lemma MarkerLengthExact(g: Grammar, line: string, a: nat, marker: string)
    requires IsListMarker(g, marker)
    requires a + |marker| <= |line|
    requires forall j | a <= j < a + |marker| :: line[j] == marker[j - a]
    ensures MarkerLength(g, line, a) == |marker|
  {
    if !(|marker| == 1 && IsBullet(marker[0])) {
      var d := |marker| - 1;
      assert forall j | a <= j < a + d :: IsDigit(line[j]) by {
        forall j | a <= j < a + d ensures IsDigit(line[j]) {
          assert marker[..d][j - a] == marker[j - a];
        }
      }
      assert line[a + d] == '.';
      SpanUnique(line, a, Digit, d);
      assert marker[..d][0] == marker[0];
    }
  }

  /** The tail scanner finds any positions that satisfy the tail of the pattern. */
  lemma LocateTailComplete(line: string, b: nat, o: nat, f: nat, e: nat)
    requires b <= |line| && ValidTail(line, b, o, f, e)
    ensures LocateTail(line, b) == Some((o, f, e))
  {
    SpanUnique(line, b, Space, o - b);
    SpanUnique(line, o + 3, Space, f - o - 3);
    SpanUnique(line, f, NotTerminator, e - f);
  }

  /** The indentation and marker scanners stop where valid positions say they end. */
  lemma LocateHeadComplete(g: Grammar, line: string, bd: Bounds)
    requires ValidBounds(g, line, bd)
    ensures Span(line, 0, IndentClass(g)) == bd.indentEnd
    ensures MarkerLength(g, line, bd.indentEnd) == bd.markerEnd - bd.indentEnd
  {
    var a := bd.indentEnd;
    var marker := line[a..bd.markerEnd];
    assert !InClass(IndentClass(g), line[a]) by {
      assert line[a] == marker[0];
    }
    SpanUnique(line, 0, IndentClass(g), a);
    assert forall j | a <= j < a + |marker| :: line[j] == marker[j - a];
    MarkerLengthExact(g, line, a, marker);
  }

  /** Whatever positions satisfy the pattern are the ones the scanner finds. */
  lemma LocateComplete(g: Grammar, line: string, bd: Bounds)
    requires ValidBounds(g, line, bd)
    ensures Locate(g, line) == Some(bd)
  {
    LocateHeadComplete(g, line, bd);
    LocateTailComplete(line, bd.markerEnd, bd.openAt, bd.bodyFrom, bd.bodyTo);
    LocateFromStages(g, line, bd);
  }

  /** Locate composes its stages. */
  lemma LocateFromStages(g: Grammar, line: string, bd: Bounds)
    requires bd.indentEnd < bd.markerEnd <= |line|
    requires Span(line, 0, IndentClass(g)) == bd.indentEnd
    requires MarkerLength(g, line, bd.indentEnd) == bd.markerEnd - bd.indentEnd
    requires LocateTail(line, bd.markerEnd) == Some((bd.openAt, bd.bodyFrom, bd.bodyTo))
    ensures Locate(g, line) == Some(bd)
  {
    AfterMarker(line, bd);
    AfterIndent(g, line, bd);
  }

  lemma AfterMarker(line: string, bd: Bounds)
    requires bd.indentEnd <= bd.markerEnd <= |line|
    requires LocateTail(line, bd.markerEnd) == Some((bd.openAt, bd.bodyFrom, bd.bodyTo))
    ensures LocateAfterMarker(line, bd.indentEnd, bd.markerEnd) == Some(bd)
  {
  }

  lemma AfterIndent(g: Grammar, line: string, bd: Bounds)
    requires bd.indentEnd < bd.markerEnd <= |line|
    requires MarkerLength(g, line, bd.indentEnd) == bd.markerEnd - bd.indentEnd
    requires LocateAfterMarker(line, bd.indentEnd, bd.markerEnd) == Some(bd)
    ensures LocateAfterIndent(g, line, bd.indentEnd) == Some(bd)
  {
  }

  /** Where the groups of a rendering with `k` and `m` spaces sit. */
  function RenderedBounds(p: CheckboxParts, k: nat, m: nat): Bounds {
    var b := |p.indentation| + |p.listMarker|;
    Bounds(|p.indentation|, b, b + k, b + k + 3 + m, b + k + 3 + m + |p.body|)
  }

  /** A line beginning with a rendering of well-formed groups has the rendering's positions
      as valid positions. */
  lemma RenderedBoundsValid(g: Grammar, line: string, p: CheckboxParts, k: nat, m: nat)
    requires WellFormedParts(g, p) && 1 <= k
    requires EndsLineAt(Render(p, k, m), line)
    ensures ValidBounds(g, line, RenderedBounds(p, k, m))
  {
    LineSegments(line, p, k, m);
    var bd := RenderedBounds(p, k, m);
    assert line[bd.indentEnd..bd.markerEnd] == p.listMarker;
    if |p.body| > 0 {
      assert line[bd.bodyFrom] == p.body[0];
    }
  }

  /** The groups read at a rendering's positions are the rendered groups. */
  lemma RenderedGroups(line: string, p: CheckboxParts, k: nat, m: nat)
    requires |p.statusSymbol| == 1
    requires EndsLineAt(Render(p, k, m), line)
    ensures var bd := RenderedBounds(p, k, m);
      && bd.bodyTo <= |line|
      && Groups(line, bd) == p
  {
    LineSegments(line, p, k, m);
    var bd := RenderedBounds(p, k, m);
    assert line[..bd.indentEnd] == p.indentation;
    assert line[bd.indentEnd..bd.markerEnd] == p.listMarker;
    assert line[bd.openAt + 1..bd.openAt + 2] == p.statusSymbol;
    assert line[bd.bodyFrom..bd.bodyTo] == p.body;
  }

  /** Every match of the declarative shape is what the split returns. */
  lemma SplitComplete(g: Grammar, line: string, p: CheckboxParts, k: nat, m: nat)
    requires WellFormedParts(g, p) && 1 <= k
    requires EndsLineAt(Render(p, k, m), line)
    ensures Split(g, line) == Ok(p)
  {
    RenderedBoundsValid(g, line, p, k, m);
    RenderedGroups(line, p, k, m);
    LocateComplete(g, line, RenderedBounds(p, k, m));
  }

  /** A line that is exactly a rendering with one space on each side of the checkbox. */
  lemma SplitRendered(g: Grammar, line: string, p: CheckboxParts)
    requires WellFormedParts(g, p) && line == Render(p, 1, 1)
    ensures Split(g, line) == Ok(p)
  {
    assert line[..|line|] == line;
    SplitComplete(g, line, p, 1, 1);
  }

  /** The split succeeds with `p` exactly when `line` has the shape with groups `p`. */
  lemma SplitCharacterized(g: Grammar, line: string)
    ensures Split(g, line).Ok? ==> LineHasShape(g, line, Split(g, line).value)
    ensures forall p :: LineHasShape(g, line, p) ==> Split(g, line) == Ok(p)
  {
    if Split(g, line).Ok? {
      SplitSound(g, line);
    }
    forall p | LineHasShape(g, line, p) ensures Split(g, line) == Ok(p) {
      var k: nat, m: nat :| 1 <= k && EndsLineAt(Render(p, k, m), line);
      SplitComplete(g, line, p, k, m);
    }
  }

  /** On a one-line input the groups, with the spacing the match skipped, re-join to the
      whole line: at least one space before `[`, any number after `]`. */
  lemma SplitRejoins(g: Grammar, line: string)
    requires SingleLine(line) && Split(g, line).Ok?
    ensures exists k: nat, m: nat :: 1 <= k && line == Render(Split(g, line).value, k, m)
  {
    SplitSound(g, line);
    var p := Split(g, line).value;
    var k: nat, m: nat :| 1 <= k && EndsLineAt(Render(p, k, m), line);
    assert |Render(p, k, m)| == |line|;
    assert line == Render(p, k, m);
  }
}
