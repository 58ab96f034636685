/** The four task statuses, their one-character checkbox symbols, and the
    "next status" each one names (src/Status.ts). */
module StatusModel {
  import opened Results

  datatype StatusType = TODO | DOING | DONE | CANCELLED

  /** The StatusSymbol table. DOING is written `*`. */
  function StatusSymbol(t: StatusType): string {
    match t
    case TODO => " "
    case DOING => "*"
    case DONE => "x"
    case CANCELLED => "-"
  }

  /** The four symbols as a set: the domain of `FromSymbol`. */
  const Symbols: set<string> := {" ", "*", "x", "-"}

  datatype Status = Status(symbol: string, name: string, statusType: StatusType, nextStatusType: StatusType)

  function MakeTodo(): (s: Status)
    ensures s.statusType == TODO && s.symbol == StatusSymbol(TODO)
    ensures s.name == "Todo" && s.nextStatusType == DOING
  {
    Status(StatusSymbol(TODO), "Todo", TODO, DOING)
  }

  function MakeDoing(): (s: Status)
    ensures s.statusType == DOING && s.symbol == StatusSymbol(DOING)
    ensures s.name == "Doing" && s.nextStatusType == DONE
  {
    Status(StatusSymbol(DOING), "Doing", DOING, DONE)
  }

  function MakeDone(): (s: Status)
    ensures s.statusType == DONE && s.symbol == StatusSymbol(DONE)
    ensures s.name == "Done" && s.nextStatusType == TODO
  {
    Status(StatusSymbol(DONE), "Done", DONE, TODO)
  }

  function MakeCancelled(): (s: Status)
    ensures s.statusType == CANCELLED && s.symbol == StatusSymbol(CANCELLED)
    ensures s.name == "Cancelled" && s.nextStatusType == TODO
  {
    Status(StatusSymbol(CANCELLED), "Cancelled", CANCELLED, TODO)
  }

  /** The status of a given type. The source's `default` branch cannot be reached with a
      closed enumeration. */
  function FromType(t: StatusType): (s: Status)
    ensures s.statusType == t
    ensures s.symbol == StatusSymbol(t)
  {
    match t
    case TODO => MakeTodo()
    case DOING => MakeDoing()
    case DONE => MakeDone()
    case CANCELLED => MakeCancelled()
  }

  /** The status written as `symbol` in a checkbox; any string other than the four
      symbols (`/` and `X` included) is an unknown symbol. */
  function FromSymbol(symbol: string): (r: Result<Status>)
    ensures r.Ok? <==> symbol in Symbols
    ensures r.Ok? ==> r.value.symbol == symbol && r.value == FromType(r.value.statusType)
    ensures r.Err? ==> r.error == UnknownStatusSymbol(symbol)
  {
    if symbol == StatusSymbol(TODO) then Ok(MakeTodo())
    else if symbol == StatusSymbol(DOING) then Ok(MakeDoing())
    else if symbol == StatusSymbol(DONE) then Ok(MakeDone())
    else if symbol == StatusSymbol(CANCELLED) then Ok(MakeCancelled())
    else Err(UnknownStatusSymbol(symbol))
  }

  /** A status as the source builds it: the one `FromType` gives for its type. */
  predicate Canonical(s: Status) {
    s == FromType(s.statusType)
  }

  /** Symbols and types are in one-to-one correspondence: looking a type's symbol up gives
      the type back, and different types never share a symbol. */
  lemma SymbolBijection(t: StatusType, u: StatusType)
    ensures FromSymbol(StatusSymbol(t)) == Ok(FromType(t))
    ensures StatusSymbol(t) == StatusSymbol(u) ==> t == u
    ensures StatusSymbol(t) in Symbols
  {
  }

  /** The symbol of the status `FromSymbol` returns is the symbol it was given, and its type
      round-trips through `FromType`. */
  lemma FromSymbolRoundTrip(symbol: string)
    requires FromSymbol(symbol).Ok?
    ensures StatusSymbol(FromSymbol(symbol).value.statusType) == symbol
    ensures FromType(FromSymbol(symbol).value.statusType) == FromSymbol(symbol).value
  {
  }

  /** Following `nextStatusType` from TODO visits DOING and DONE and comes back to TODO;
      CANCELLED leads into that cycle at TODO. */
  lemma NextStatusCycle()
    ensures FromType(FromType(FromType(TODO).nextStatusType).nextStatusType).nextStatusType == TODO
    ensures FromType(TODO).nextStatusType == DOING
    ensures FromType(DOING).nextStatusType == DONE
    ensures FromType(CANCELLED).nextStatusType == TODO
  {
  }

  /** Two examples the source's users rely on: the legacy `/` and an upper-case `X` are not symbols. */
  lemma UnknownSymbolExamples()
    ensures FromSymbol("/") == Err(UnknownStatusSymbol("/"))
    ensures FromSymbol("X") == Err(UnknownStatusSymbol("X"))
    ensures Message(FromSymbol("/").error) == "Unknown status symbol: /"
  {
  }
}
