/** The wider checkbox pattern of src/TaskRegularExpressions.ts, which also admits `>` in the
    indentation (block quotes and callouts) and numbered list markers such as `1.`. */
module TaskRegex {
  import opened Results
  import opened Text
  import opened CheckboxGrammar

  /** Groups the narrow pattern can produce, the wide one can produce too. */
  lemma NarrowPartsAreWide(p: CheckboxParts)
    requires WellFormedParts(Narrow, p)
    ensures WellFormedParts(Wide, p)
  {
    assert forall i | 0 <= i < |p.indentation| :: InClass(IndentClass(Narrow), p.indentation[i]);
  }

  /** Every line the narrow pattern accepts, the wide one accepts with the same groups. */
  lemma WideExtendsNarrow(line: string)
    requires Split(Narrow, line).Ok?
    ensures Split(Wide, line) == Split(Narrow, line)
  {
    var p := Split(Narrow, line).value;
    SplitSound(Narrow, line);
    NarrowPartsAreWide(p);
    var k: nat, m: nat :| 1 <= k && EndsLineAt(Render(p, k, m), line);
    SplitComplete(Wide, line, p, k, m);
  }

  lemma QuotedTaskShape(line: string)
    requires line == "> - [ ] x"
    ensures WellFormedParts(Wide, CheckboxParts("> ", "-", " ", "x"))
    ensures line == Render(CheckboxParts("> ", "-", " ", "x"), 1, 1)
    ensures |line| > 0 && !IsWhitespace(line[0]) && !IsBullet(line[0])
  {
    assert Spaces(1) == " ";
    assert InClass(WhitespaceOrQuote, '>') && InClass(WhitespaceOrQuote, ' ');
  }

  /** A task inside a block quote: the wide pattern reads it, the narrow one does not. */
  lemma QuotedTaskExample(line: string)
    requires line == "> - [ ] x"
    ensures Split(Wide, line) == Ok(CheckboxParts("> ", "-", " ", "x"))
    ensures Split(Narrow, line) == Err(NotATask)
  {
    QuotedTaskShape(line);
    SplitRendered(Wide, line, CheckboxParts("> ", "-", " ", "x"));
    NarrowNeedsBullet(line);
  }

  lemma NumberedTaskShape(line: string)
    requires line == "12. [x] y"
    ensures WellFormedParts(Wide, CheckboxParts("", "12.", "x", "y"))
    ensures line == Render(CheckboxParts("", "12.", "x", "y"), 1, 1)
    ensures |line| > 0 && !IsWhitespace(line[0]) && !IsBullet(line[0])
  {
    var p := CheckboxParts("", "12.", "x", "y");
    assert p.listMarker[..2] == "12";
    assert Spaces(1) == " ";
  }

  /** A task in a numbered list: the wide pattern reads it, the narrow one does not. */
  lemma NumberedTaskExample(line: string)
    requires line == "12. [x] y"
    ensures Split(Wide, line) == Ok(CheckboxParts("", "12.", "x", "y"))
    ensures Split(Narrow, line) == Err(NotATask)
  {
    NumberedTaskShape(line);
    SplitRendered(Wide, line, CheckboxParts("", "12.", "x", "y"));
    NarrowNeedsBullet(line);
  }
}
