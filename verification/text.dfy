/** The ECMAScript string primitives the task-line code relies on: the `\s` class,
    line terminators, `\d`, `trim`, and `split`/`join` on a one-character separator.
    A string is a sequence of code points. */
module Text {

  /** The characters `\s` matches; they are also exactly the ones `trim` removes. */
  predicate IsWhitespace(c: char) {
    || ('\t' <= c <= '\r') || c == ' '
    || ('\U{00A0}' <= c && IsWideWhitespace(c))
  }

  /** The `\s` characters beyond ASCII: no-break space, ogham space mark, the spaces
      U+2000 to U+200A, the line and paragraph separators, narrow no-break space, medium
      mathematical space, ideographic space and the byte order mark. */
  predicate IsWideWhitespace(c: char) {
    || c == '\U{00A0}' || c == '\U{1680}' || ('\U{2000}' <= c <= '\U{200A}')
    || c == '\U{2028}' || c == '\U{2029}' || c == '\U{202F}' || c == '\U{205F}'
    || c == '\U{3000}' || c == '\U{FEFF}'
  }

  /** The characters `.` refuses to match. */
  predicate IsLineTerminator(c: char) {
    c == '\n' || c == '\r' || c == '\U{2028}' || c == '\U{2029}'
  }

  predicate IsDigit(c: char) {
    '0' <= c <= '9'
  }

  /** A string that holds no line terminator: one line of a document. */
  predicate SingleLine(s: string) {
    forall i | 0 <= i < |s| :: !IsLineTerminator(s[i])
  }

  /** `prefix` starts `line` and is followed by nothing or by a line terminator. */
  predicate EndsLineAt(prefix: string, line: string) {
    && |prefix| <= |line|
    && line[..|prefix|] == prefix
    && (|prefix| == |line| || IsLineTerminator(line[|prefix|]))
  }

  predicate AllWhitespace(s: string) {
    forall i | 0 <= i < |s| :: IsWhitespace(s[i])
  }

  predicate AllDigits(s: string) {
    forall i | 0 <= i < |s| :: IsDigit(s[i])
  }

  /** The character classes that the scanners run over. */
  datatype CharClass =
    | Whitespace           // \s
    | WhitespaceOrQuote    // [\s\t>]
    | Space                // the literal ' '
    | Digit                // \d
    | NotTerminator        // .

  predicate InClass(k: CharClass, c: char) {
    match k
    case Whitespace => IsWhitespace(c)
    case WhitespaceOrQuote => IsWhitespace(c) || c == '>'
    case Space => c == ' '
    case Digit => IsDigit(c)
    case NotTerminator => !IsLineTerminator(c)
  }

  /** Length of the longest run of class `k` starting at `i`: what a greedy `k*` consumes. */
  function Span(s: string, i: nat, k: CharClass): (n: nat)
    requires i <= |s|
    ensures i + n <= |s|
    ensures i + n == |s| || !InClass(k, s[i + n])
    decreases |s| - i
  {
    if i < |s| && InClass(k, s[i]) then 1 + Span(s, i + 1, k) else 0
  }

  /** The members of a greedy run, stated for each position of the string. */
  lemma {:induction false} SpanMembers(s: string, i: nat, k: CharClass)
    requires i <= |s|
    ensures forall j | i <= j < i + Span(s, i, k) :: InClass(k, s[j])
    decreases |s| - i
  {
    if i < |s| && InClass(k, s[i]) {
      SpanMembers(s, i + 1, k);
    }
  }

  /** A greedy run is the only run of its class that is followed by a non-member. */
  lemma {:induction false} SpanUnique(s: string, i: nat, k: CharClass, n: nat)
    requires i + n <= |s|
    requires forall j | i <= j < i + n :: InClass(k, s[j])
    requires i + n == |s| || !InClass(k, s[i + n])
    ensures Span(s, i, k) == n
    decreases n
  {
    if n > 0 {
      SpanUnique(s, i + 1, k, n - 1);
    }
  }

  /** Length of the longest run of class `k` that ends just before `j`. */
  function SpanBack(s: string, j: nat, k: CharClass): (n: nat)
    requires j <= |s|
    ensures n <= j
    ensures forall i {:trigger InClass(k, s[i])} | j - n <= i < j :: InClass(k, s[i])
    ensures n == j || !InClass(k, s[j - n - 1])
  {
    if 0 < j && InClass(k, s[j - 1]) then 1 + SpanBack(s, j - 1, k) else 0
  }

  /** `n` spaces. */
  function Spaces(n: nat): (s: string)
    ensures |s| == n
    ensures forall i | 0 <= i < n :: s[i] == ' '
  {
    seq(n, _ => ' ')
  }

  /** String.prototype.trim: the slice between the leading and the trailing whitespace. */
  function Trim(s: string): (t: string)
    ensures |t| <= |s|
    ensures var a := Span(s, 0, Whitespace); a + |t| <= |s| && t == s[a..a + |t|]
    ensures |t| == 0 || (!IsWhitespace(t[0]) && !IsWhitespace(t[|t| - 1]))
  {
    var a := Span(s, 0, Whitespace);
    var b := |s| - SpanBack(s, |s|, Whitespace);
    if a < b then s[a..b] else ""
  }

  /** What trimming drops after the result is whitespace. */
  lemma TrimDropsWhitespace(s: string)
    ensures var a := Span(s, 0, Whitespace);
      forall j | a + |Trim(s)| <= j < |s| :: IsWhitespace(s[j])
  {
    var a := Span(s, 0, Whitespace);
    var n := SpanBack(s, |s|, Whitespace);
    SpanMembers(s, 0, Whitespace);
    assert forall j | |s| - n <= j < |s| :: InClass(Whitespace, s[j]);
  }

  /** Trimming keeps exactly the part between a whitespace prefix and a whitespace suffix
      when that part starts and ends with non-whitespace. */
  lemma TrimExact(s: string, a: nat, b: nat)
    requires a < b <= |s|
    requires forall j | 0 <= j < a :: IsWhitespace(s[j])
    requires forall j | b <= j < |s| :: IsWhitespace(s[j])
    requires !IsWhitespace(s[a]) && !IsWhitespace(s[b - 1])
    ensures Trim(s) == s[a..b]
  {
    SpanUnique(s, 0, Whitespace, a);
    var n := SpanBack(s, |s|, Whitespace);
    assert !InClass(Whitespace, s[b - 1]);
    assert n == |s| - b;
  }

  /** What is left after a greedy `\s*` at the start of `u`. */
  function DropSpace(u: string): (r: string)
    ensures |r| <= |u|
    ensures |r| == 0 || !IsWhitespace(r[0])
  {
    u[Span(u, 0, Whitespace)..]
  }

  /** The part `DropSpace` removes is whitespace. */
  lemma DropSpaceSplit(u: string)
    ensures var k := |u| - |DropSpace(u)|; AllWhitespace(u[..k]) && u == u[..k] + DropSpace(u)
  {
    assert u == u[..Span(u, 0, Whitespace)] + u[Span(u, 0, Whitespace)..];
    SpanMembers(u, 0, Whitespace);
  }

  /** A whitespace prefix followed by anything but whitespace is exactly what `DropSpace`
      removes. */
  lemma DropSpaceOf(w: string, r: string)
    requires AllWhitespace(w) && (|r| == 0 || !IsWhitespace(r[0]))
    ensures DropSpace(w + r) == r
  {
    var u := w + r;
    assert forall j | 0 <= j < |w| :: InClass(Whitespace, u[j]);
    if |r| > 0 {
      assert u[|w|] == r[0];
    }
    SpanUnique(u, 0, Whitespace, |w|);
    assert u[|w|..] == r;
  }

  lemma AllWhitespaceConcat(a: string, b: string)
    requires AllWhitespace(a) && AllWhitespace(b)
    ensures AllWhitespace(a + b)
  {
    assert forall i | 0 <= i < |a + b| :: (a + b)[i] == if i < |a| then a[i] else b[i - |a|];
  }

  /** Array.prototype.join with a one-character separator. */
  function JoinWith(parts: seq<string>, sep: char): string
  {
    if |parts| == 0 then ""
    else if |parts| == 1 then parts[0]
    else parts[0] + [sep] + JoinWith(parts[1..], sep)
  }

  /** Prepending a character to the first part prepends it to the joined string. */
  lemma JoinWithCons(c: char, parts: seq<string>, sep: char)
    requires |parts| >= 1
    ensures JoinWith([[c] + parts[0]] + parts[1..], sep) == [c] + JoinWith(parts, sep)
  {
    var ps := [[c] + parts[0]] + parts[1..];
    assert ps[1..] == parts[1..];
  }

  /** String.prototype.split with a one-character separator: never empty, no part holds the
      separator, and joining the parts gives the input back. */
  function SplitOn(s: string, sep: char): (parts: seq<string>)
    ensures |parts| >= 1
    ensures forall i | 0 <= i < |parts| :: sep !in parts[i]
    ensures JoinWith(parts, sep) == s
    decreases |s|
  {
    if |s| == 0 then [""]
    else
      var rest := SplitOn(s[1..], sep);
      if s[0] == sep then
        assert [s[0]] + s[1..] == s;
        [""] + rest
      else
        JoinWithCons(s[0], rest, sep);
        assert [s[0]] + s[1..] == s;
        [[s[0]] + rest[0]] + rest[1..]
  }

  /** The other direction: splitting a join of separator-free parts gives the parts back. */
  lemma {:induction false} SplitJoin(parts: seq<string>, sep: char)
    requires |parts| >= 1
    requires forall i | 0 <= i < |parts| :: sep !in parts[i]
    ensures SplitOn(JoinWith(parts, sep), sep) == parts
    decreases |parts|, |parts[0]|
  {
    var p0 := parts[0];
    if |p0| == 0 {
      if |parts| == 1 {
      } else {
        var rest := parts[1..];
        SplitJoin(rest, sep);
        var s := JoinWith(parts, sep);
        assert s == [sep] + JoinWith(rest, sep);
        assert s[1..] == JoinWith(rest, sep);
      }
    } else {
      var tail := [p0[1..]] + parts[1..];
      assert forall i | 0 <= i < |tail| :: sep !in tail[i] by {
        forall i | 0 <= i < |tail| ensures sep !in tail[i] {
          if i == 0 {
            assert forall c | c in p0[1..] :: c in p0;
          } else {
            assert tail[i] == parts[i];
          }
        }
      }
      SplitJoin(tail, sep);
      JoinWithCons(p0[0], tail, sep);
      assert [p0[0]] + p0[1..] == p0;
      assert tail[1..] == parts[1..];
      assert [[p0[0]] + tail[0]] + tail[1..] == parts;
      var s := JoinWith(parts, sep);
      assert s == [p0[0]] + JoinWith(tail, sep);
      assert s[0] == p0[0] && s[0] != sep;
      assert s[1..] == JoinWith(tail, sep);
    }
  }

  /** Joining a prefix and a non-empty suffix of the parts, with one separator between. */
  lemma {:induction false} JoinWithSplitAt(parts: seq<string>, k: nat, sep: char)
    requires 0 < k < |parts|
    ensures JoinWith(parts, sep) == JoinWith(parts[..k], sep) + [sep] + JoinWith(parts[k..], sep)
    decreases k
  {
    if k == 1 {
      assert parts[..1] == [parts[0]];
      assert parts[1..] == parts[k..];
    } else {
      JoinWithSplitAt(parts[1..], k - 1, sep);
      assert parts[1..][..k - 1] == parts[..k][1..];
      assert parts[1..][k - 1..] == parts[k..];
    }
  }
}
