/** The shared shapes of the calculator: the pending binary operation and the
    history entry. `null` in the source is `None` here. */
module Types {

  datatype Option<+T> = None | Some(value: T)

  /** The four binary operations; the source's `null` operation is `Option.None`. */
  datatype Op = Add | Subtract | Multiply | Divide

  /** The one-character string the source stores for an operation and prints
      verbatim inside a history expression. */
  function Symbol(op: Op): (s: string)
    ensures |s| == 1
    ensures s != " "
  {
    match op
    case Add => "+"
    case Subtract => "-"
    case Multiply => "*"
    case Divide => "/"
  }

  /** Reads an operation back from its symbol; the inverse of `Symbol`. */
  function OpOfSymbol(s: string): (r: Option<Op>)
    ensures forall op :: r == Some(op) <==> Symbol(op) == s
  {
    if s == "+" then Some(Add)
    else if s == "-" then Some(Subtract)
    else if s == "*" then Some(Multiply)
    else if s == "/" then Some(Divide)
    else None
  }

  /** One completed calculation as the history panel keeps it. The id and the
      timestamp are produced outside the model and are opaque here. */
  datatype HistoryItem = HistoryItem(id: string, expression: string, result: string, timestamp: int)
}
