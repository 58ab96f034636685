/** A checkbox line read into its groups, with the status its symbol names (src/Checkbox.ts).
    `parseCheckboxComponents` of src/TaskInput.ts and src/LineParser.ts is the same two-step
    reading (split the line, then look the symbol up) and returns the same five fields, so it
    is this function too. */
module CheckboxModel {
  import opened Results
  import opened Text
  import opened StatusModel
  import opened CheckboxGrammar

  datatype Checkbox = Checkbox(indentation: string, listMarker: string, statusSymbol: string, status: Status, body: string)

  /** The four groups a checkbox was read from. */
  function Parts(c: Checkbox): CheckboxParts {
    CheckboxParts(c.indentation, c.listMarker, c.statusSymbol, c.body)
  }

  /** Checkbox.fromLine: split the line with the narrow pattern, then derive the status from
      the symbol. A line without the pattern is NotATask; a line with it but with a symbol
      outside the four is UnknownStatusSymbol. */
  function FromLine(line: string): (r: Result<Checkbox>)
    ensures r.Ok? ==> LineHasShape(Narrow, line, Parts(r.value))
    ensures r.Ok? ==> r.value.statusSymbol in Symbols && r.value.status.symbol == r.value.statusSymbol
    ensures r.Ok? ==> Canonical(r.value.status) && FromSymbol(r.value.statusSymbol) == Ok(r.value.status)
    ensures r.Err? && r.error == NotATask <==> forall p :: !LineHasShape(Narrow, line, p)
    ensures r.Err? && r.error != NotATask ==>
      exists p :: LineHasShape(Narrow, line, p) && p.statusSymbol !in Symbols && r.error == UnknownStatusSymbol(p.statusSymbol)
  {
    SplitCharacterized(Narrow, line);
    var p :- Split(Narrow, line);
    var status :- FromSymbol(p.statusSymbol);
    Ok(Checkbox(p.indentation, p.listMarker, p.statusSymbol, status, p.body))
  }

  /** Any line of the checkbox shape with one of the four symbols is read back into exactly
      its groups: the converse of the contract of `FromLine`. */
  lemma FromLineComplete(line: string, p: CheckboxParts)
    requires LineHasShape(Narrow, line, p) && p.statusSymbol in Symbols
    ensures FromLine(line).Ok? && Parts(FromLine(line).value) == p
    ensures FromLine(line).value.status == FromSymbol(p.statusSymbol).value
  {
    SplitCharacterized(Narrow, line);
  }

  /** On a one-line input the fields of a checkbox re-join to the line, with at least one
      space before `[` and any number after `]`. */
  lemma FromLineRejoins(line: string)
    requires SingleLine(line) && FromLine(line).Ok?
    ensures exists k: nat, m: nat :: 1 <= k && line == Render(Parts(FromLine(line).value), k, m)
  {
    SplitRejoins(Narrow, line);
  }

  /** The groups of the first example are well formed. */
  lemma SplitExampleParts(body: string)
    requires body == "Example task"
    ensures WellFormedParts(Narrow, CheckboxParts("  ", "-", "x", body))
  {
    assert forall i | 0 <= i < |body| :: body[i] == 'E' || 'a' <= body[i] <= 'x' || body[i] == ' ';
  }

  /** The first example is the rendering of its groups. */
  lemma SplitExampleShape(line: string, body: string)
    requires line == "  - [x] Example task" && body == "Example task"
    ensures line == Render(CheckboxParts("  ", "-", "x", body), 1, 1)
  {
    assert Spaces(1) == " ";
    assert line == "  " + "-" + " " + "[" + "x" + "]" + " " + body;
  }

  /** The groups of the first example of the source's tests. */
  lemma SplitExample(line: string)
    requires line == "  - [x] Example task"
    ensures Split(Narrow, line) == Ok(CheckboxParts("  ", "-", "x", "Example task"))
  {
    SplitExampleParts("Example task");
    SplitExampleShape(line, "Example task");
    SplitRendered(Narrow, line, CheckboxParts("  ", "-", "x", "Example task"));
  }

  /** The first example of the source's tests: a done task with indentation. */
  lemma FromLineExample(line: string)
    requires line == "  - [x] Example task"
    ensures FromLine(line) == Ok(Checkbox("  ", "-", "x", MakeDone(), "Example task"))
  {
    SplitExample(line);
  }

  /** The second example of the source's tests: a sentence is not a task. */
  lemma NotATaskExample()
    ensures FromLine("This is not a valid task") == Err(NotATask)
    ensures Message(FromLine("This is not a valid task").error) == "Line does not match task regex"
  {
    NarrowNeedsBullet("This is not a valid task");
  }
}
