/** The keypad state machine of the `Calculator` component.

    Every handler reads one snapshot of the component state and issues a batch
    of state writes; React applies the batch in order once the handler
    returns, so for each field the last write wins and every read inside the
    handler (including the nested `calculate` of an operator press) sees the
    snapshot, not the writes before it. `Write` and `Commit` make that
    explicit.

    Floating-point parsing and formatting are not modelled: `Numerics`
    carries them as two arbitrary total functions, and arithmetic is done on
    `real`. */
module Calculator {
  import opened Types
  import opened Seqs

  /** `parseFloat` and `Number.prototype.toString`, left uninterpreted. */
  datatype Numerics = Numerics(parse: string -> real, show: real -> string)

  /** Results are cut to this many characters before they are shown. */
  const ResultWidth: nat := 12

  datatype State = State(
    display: string,
    previousValue: Option<string>,
    operation: Option<Op>,
    shouldResetDisplay: bool)

  /** The state at mount. */
  const Initial := State("0", None, None, false)

  /** One `setX(...)` call of a handler. */
  datatype Write =
    | SetDisplay(newDisplay: string)
    | SetPreviousValue(newPreviousValue: Option<string>)
    | SetOperation(newOperation: Option<Op>)
    | SetShouldResetDisplay(newFlag: bool)

  function Apply(s: State, w: Write): (t: State) {
    match w
    case SetDisplay(d) => s.(display := d)
    case SetPreviousValue(p) => s.(previousValue := p)
    case SetOperation(o) => s.(operation := o)
    case SetShouldResetDisplay(b) => s.(shouldResetDisplay := b)
  }

  /** React applying a handler's batch of writes, in the order they were issued. */
  function Commit(s: State, ws: seq<Write>): (t: State)
    decreases |ws|
  {
    if ws == [] then s else Commit(Apply(s, ws[0]), ws[1..])
  }

  lemma {:induction false} CommitCons(s: State, w: Write, ws: seq<Write>)
    ensures Commit(s, [w] + ws) == Commit(Apply(s, w), ws)
  {
  }

  /** A batch issued in two parts commits as the first part followed by the second. */
  lemma {:induction false} CommitAppend(s: State, xs: seq<Write>, ys: seq<Write>)
    ensures Commit(s, xs + ys) == Commit(Commit(s, xs), ys)
    decreases |xs|
  {
    if xs == [] {
      assert xs + ys == ys;
    } else {
      assert xs + ys == [xs[0]] + (xs[1..] + ys);
      assert xs == [xs[0]] + xs[1..];
      CommitCons(s, xs[0], xs[1..] + ys);
      CommitCons(s, xs[0], xs[1..]);
      CommitAppend(Apply(s, xs[0]), xs[1..], ys);
    }
  }

  lemma {:induction false} Commit1(s: State, a: Write)
    ensures Commit(s, [a]) == Apply(s, a)
  {
  }

  lemma {:induction false} Commit2(s: State, a: Write, b: Write)
    ensures Commit(s, [a, b]) == Apply(Apply(s, a), b)
  {
    assert [a, b] == [a] + [b];
    CommitCons(s, a, [b]);
    Commit1(Apply(s, a), b);
  }

  lemma {:induction false} Commit3(s: State, a: Write, b: Write, c: Write)
    ensures Commit(s, [a, b, c]) == Apply(Apply(Apply(s, a), b), c)
  {
    assert [a, b, c] == [a] + [b, c];
    CommitCons(s, a, [b, c]);
    Commit2(Apply(s, a), b, c);
  }

  lemma {:induction false} Commit4(s: State, a: Write, b: Write, c: Write, d: Write)
    ensures Commit(s, [a, b, c, d]) == Apply(Apply(Apply(Apply(s, a), b), c), d)
  {
    assert [a, b, c, d] == [a] + [b, c, d];
    CommitCons(s, a, [b, c, d]);
    Commit3(Apply(s, a), b, c, d);
  }

  // ---------------------------------------------------------------------------
  // Last write wins: an independent, per-field reading of a batch.

  function DisplayWrite(w: Write): (v: Option<string>) {
    if w.SetDisplay? then Some(w.newDisplay) else None
  }

  function PreviousValueWrite(w: Write): (v: Option<Option<string>>) {
    if w.SetPreviousValue? then Some(w.newPreviousValue) else None
  }

  function OperationWrite(w: Write): (v: Option<Option<Op>>) {
    if w.SetOperation? then Some(w.newOperation) else None
  }

  function FlagWrite(w: Write): (v: Option<bool>) {
    if w.SetShouldResetDisplay? then Some(w.newFlag) else None
  }

  /** The value of the last write in `ws` that `field` selects, if any. */
  function LastWrite<T>(ws: seq<Write>, field: Write -> Option<T>): (v: Option<T>)
    decreases |ws|
  {
    if ws == [] then None
    else
      match LastWrite(ws[1..], field)
      case Some(v) => Some(v)
      case None => field(ws[0])
  }

  function OrElse<T>(o: Option<T>, default: T): (v: T) {
    match o
    case Some(v) => v
    case None => default
  }

  /** Every field takes its last written value, or keeps its snapshot value. */
  function LastWriteWins(s: State, ws: seq<Write>): (t: State) {
    State(
      OrElse(LastWrite(ws, DisplayWrite), s.display),
      OrElse(LastWrite(ws, PreviousValueWrite), s.previousValue),
      OrElse(LastWrite(ws, OperationWrite), s.operation),
      OrElse(LastWrite(ws, FlagWrite), s.shouldResetDisplay))
  }

  /** Applying a batch in order is the same as letting each field's last
      write win. */
  lemma {:induction false} CommitIsLastWriteWins(s: State, ws: seq<Write>)
    ensures Commit(s, ws) == LastWriteWins(s, ws)
    decreases |ws|
  {
    if ws != [] {
      CommitIsLastWriteWins(Apply(s, ws[0]), ws[1..]);
    }
  }

  // ---------------------------------------------------------------------------
  // The arithmetic and the strings a calculation produces.

  /** The `switch` on the pending operation; division by zero yields 0. */
  function Evaluate(op: Op, prev: real, current: real): (r: real)
    ensures op == Add ==> r - current == prev
    ensures op == Subtract ==> r + current == prev
    ensures op == Multiply ==> r == prev * current
    ensures op == Divide && current != 0.0 ==> r * current == prev
    ensures op == Divide && current == 0.0 ==> r == 0.0
  {
    match op
    case Add => prev + current
    case Subtract => prev - current
    case Multiply => prev * current
    case Divide => if current != 0.0 then prev / current else 0.0
  }

  /** `result.toString().slice(0, 12)`: a prefix of the number's string form,
      at most twelve characters long, and the whole form when it fits. */
  function FormatResult(n: Numerics, x: real): (r: string)
    ensures |r| <= ResultWidth
    ensures r <= n.show(x)
    ensures |n.show(x)| <= ResultWidth ==> r == n.show(x)
    ensures |n.show(x)| > ResultWidth ==> |r| == ResultWidth
  {
    Take(n.show(x), ResultWidth)
  }

  /** The expression reported with a result: `${previousValue} ${operation} ${display}`. */
  function Expression(prev: string, op: Op, current: string): (e: string) {
    prev + " " + Symbol(op) + " " + current
  }

  /** Splits a string at every space. */
  function Fields(s: string): (r: seq<string>)
    ensures |r| >= 1
    decreases |s|
  {
    if s == [] then [[]]
    else if s[0] == ' ' then [[]] + Fields(s[1..])
    else
      var rest := Fields(s[1..]);
      [[s[0]] + rest[0]] + rest[1..]
  }

  /** Reads the operands and the operation back out of an expression string. */
  function ParseExpression(e: string): (r: Option<(string, Op, string)>) {
    var f := Fields(e);
    if |f| == 3 && OpOfSymbol(f[1]).Some? then Some((f[0], OpOfSymbol(f[1]).value, f[2]))
    else None
  }

  lemma {:induction false} FieldsOfWord(a: string)
    requires ' ' !in a
    ensures Fields(a) == [a]
    decreases |a|
  {
    if a != [] {
      FieldsOfWord(a[1..]);
      assert [a[0]] + a[1..] == a;
    }
  }

  lemma {:induction false} FieldsOfWordThenRest(a: string, rest: string)
    requires ' ' !in a
    ensures Fields(a + " " + rest) == [a] + Fields(rest)
    decreases |a|
  {
    if a == [] {
      assert a + " " + rest == [' '] + rest;
      assert ([' '] + rest)[1..] == rest;
    } else {
      var s := a + " " + rest;
      assert s[0] == a[0];
      assert s[1..] == a[1..] + " " + rest;
      FieldsOfWordThenRest(a[1..], rest);
      assert [a[0]] + a[1..] == a;
    }
  }

  /** The expression format is unambiguous as long as neither operand
      contains a space: it parses back into exactly what produced it. */
  lemma {:induction false} ExpressionRoundTrip(prev: string, op: Op, current: string)
    requires ' ' !in prev && ' ' !in current
    ensures ParseExpression(Expression(prev, op, current)) == Some((prev, op, current))
  {
    var sym := Symbol(op);
    assert ' ' !in sym by { assert sym[0] != ' '; }
    assert Expression(prev, op, current) == prev + " " + (sym + " " + current);
    FieldsOfWordThenRest(prev, sym + " " + current);
    FieldsOfWordThenRest(sym, current);
    FieldsOfWord(current);
  }

  // ---------------------------------------------------------------------------
  // The handlers.

  datatype Calculation = Calculation(expression: string, result: string)

  /** A handler's batch: the writes it issues and the `onCalculate` call it makes, if any. */
  datatype Batch = Batch(writes: seq<Write>, emitted: Option<Calculation>)

  /** The state after a handler and the calculation it reported, if any. */
  datatype Transition = Transition(next: State, emitted: Option<Calculation>)

  function NumberBatch(s: State, key: string): (b: Batch) {
    if s.display == "0" || s.shouldResetDisplay then
      Batch([SetDisplay(key), SetShouldResetDisplay(false)], None)
    else
      Batch([SetDisplay(s.display + key)], None)
  }

  /** Whether `calculate` does anything on this snapshot. */
  predicate Pending(s: State) {
    s.operation.Some? && s.previousValue.Some?
  }

  function CalculateBatch(n: Numerics, s: State): (b: Batch) {
    if !Pending(s) then Batch([], None)
    else
      var prev := n.parse(s.previousValue.value);
      var current := n.parse(s.display);
      var resultStr := FormatResult(n, Evaluate(s.operation.value, prev, current));
      var expression := Expression(s.previousValue.value, s.operation.value, s.display);
      Batch([SetDisplay(resultStr), SetPreviousValue(None), SetOperation(None), SetShouldResetDisplay(true)],
            Some(Calculation(expression, resultStr)))
  }

  /** Whether an operator press runs the nested `calculate` first. */
  predicate ChainsCalculation(s: State) {
    s.operation.Some? && !s.shouldResetDisplay
  }

  function OperationBatch(n: Numerics, s: State, op: Op): (b: Batch) {
    var nested := if ChainsCalculation(s) then CalculateBatch(n, s) else Batch([], None);
    Batch(nested.writes + [SetPreviousValue(Some(s.display)), SetOperation(Some(op)), SetShouldResetDisplay(true)],
          nested.emitted)
  }

  const ClearBatch := Batch([SetDisplay("0"), SetPreviousValue(None), SetOperation(None), SetShouldResetDisplay(false)], None)

  function PercentBatch(n: Numerics, s: State): (b: Batch) {
    Batch([SetDisplay(n.show(n.parse(s.display) / 100.0))], None)
  }

  function ToggleSignBatch(n: Numerics, s: State): (b: Batch) {
    Batch([SetDisplay(n.show(n.parse(s.display) * -1.0))], None)
  }

  /** The effect of `calculate`'s batch, when it fires and when it does not. */
  lemma {:induction false} CommitCalculate(n: Numerics, s: State)
    ensures !Pending(s) ==> Commit(s, CalculateBatch(n, s).writes) == s
    ensures Pending(s) ==>
      Commit(s, CalculateBatch(n, s).writes) == State(CalculateBatch(n, s).emitted.value.result, None, None, true)
  {
    if Pending(s) {
      var ws := CalculateBatch(n, s).writes;
      Commit4(s, ws[0], ws[1], ws[2], ws[3]);
    }
  }

  /** `handleNumber`: a digit or the decimal point replaces a display of "0"
      or a display awaiting reset, and is appended otherwise. A second "."
      is not refused. */
  function HandleNumber(s: State, key: string): (t: State)
    ensures s.display == "0" || s.shouldResetDisplay ==> t.display == key && !t.shouldResetDisplay
    ensures s.display != "0" && !s.shouldResetDisplay ==> t.display == s.display + key && !t.shouldResetDisplay
    ensures t.previousValue == s.previousValue && t.operation == s.operation
  {
    if s.display == "0" || s.shouldResetDisplay then
      Commit2(s, SetDisplay(key), SetShouldResetDisplay(false));
      Commit(s, NumberBatch(s, key).writes)
    else
      Commit1(s, SetDisplay(s.display + key));
      Commit(s, NumberBatch(s, key).writes)
  }

  /** `calculate` (the "=" key): does nothing without a pending operation and
      operand; otherwise reports `prev op display` with its truncated result,
      shows the result and forgets the operation. */
  function Calculate(n: Numerics, s: State): (t: Transition)
    ensures !Pending(s) ==> t.next == s && t.emitted.None?
    ensures Pending(s) ==>
      var prev := s.previousValue.value;
      var op := s.operation.value;
      var value := Evaluate(op, n.parse(prev), n.parse(s.display));
      && t.emitted == Some(Calculation(Expression(prev, op, s.display), t.next.display))
      && t.next.display == FormatResult(n, value)
      && t.next.previousValue.None?
      && t.next.operation.None?
      && t.next.shouldResetDisplay
  {
    var b := CalculateBatch(n, s);
    CommitCalculate(n, s);
    Transition(Commit(s, b.writes), b.emitted)
  }

  /** `handleOperation`: runs the nested `calculate` when an operation is
      pending and a second operand has been typed, and then records the
      PRE-PRESS display as the left operand. The nested calculation shows its
      result but its own operand and operation writes are overwritten. */
  function HandleOperation(n: Numerics, s: State, op: Op): (t: Transition)
    ensures t.next.previousValue == Some(s.display)
    ensures t.next.operation == Some(op)
    ensures t.next.shouldResetDisplay
    ensures ChainsCalculation(s) ==> t.next.display == Calculate(n, s).next.display && t.emitted == Calculate(n, s).emitted
    ensures !ChainsCalculation(s) ==> t.next.display == s.display && t.emitted.None?
  {
    var b := OperationBatch(n, s, op);
    var nested := if ChainsCalculation(s) then CalculateBatch(n, s) else Batch([], None);
    var tail := [SetPreviousValue(Some(s.display)), SetOperation(Some(op)), SetShouldResetDisplay(true)];
    CommitAppend(s, nested.writes, tail);
    CommitCalculate(n, s);
    Commit3(Commit(s, nested.writes), tail[0], tail[1], tail[2]);
    Transition(Commit(s, b.writes), b.emitted)
  }

  /** `clear` (the "AC" key): back to the state at mount, whatever came before. */
  function Clear(s: State): (t: State)
    ensures t == Initial
  {
    Commit4(s, SetDisplay("0"), SetPreviousValue(None), SetOperation(None), SetShouldResetDisplay(false));
    Commit(s, ClearBatch.writes)
  }

  /** `handlePercent`: the display divided by 100; nothing else changes. */
  function HandlePercent(n: Numerics, s: State): (t: State)
    ensures t.display == n.show(n.parse(s.display) / 100.0)
    ensures t.previousValue == s.previousValue && t.operation == s.operation
    ensures t.shouldResetDisplay == s.shouldResetDisplay
  {
    Commit1(s, PercentBatch(n, s).writes[0]);
    Commit(s, PercentBatch(n, s).writes)
  }

  /** `toggleSign` (the "+/-" key): the display negated; nothing else changes. */
  function ToggleSign(n: Numerics, s: State): (t: State)
    ensures t.display == n.show(-n.parse(s.display))
    ensures t.previousValue == s.previousValue && t.operation == s.operation
    ensures t.shouldResetDisplay == s.shouldResetDisplay
  {
    Commit1(s, ToggleSignBatch(n, s).writes[0]);
    Commit(s, ToggleSignBatch(n, s).writes)
  }

  // ---------------------------------------------------------------------------
  // Event sequences.

  /** The keypad: digits and ".", the four operators, "=", "AC", "%", "+/-". */
  datatype Event = Digit(key: string) | Operator(op: Op) | Equals | AllClear | Percent | Negate

  function Step(n: Numerics, s: State, e: Event): (t: Transition) {
    match e
    case Digit(k) => Transition(HandleNumber(s, k), None)
    case Operator(op) => HandleOperation(n, s, op)
    case Equals => Calculate(n, s)
    case AllClear => Transition(Clear(s), None)
    case Percent => Transition(HandlePercent(n, s), None)
    case Negate => Transition(ToggleSign(n, s), None)
  }

  function Emitted(o: Option<Calculation>): (cs: seq<Calculation>) {
    match o
    case Some(c) => [c]
    case None => []
  }

  datatype Trace = Trace(final: State, emitted: seq<Calculation>)

  /** The state after a sequence of key presses, with every calculation
      reported along the way, oldest first. */
  function Run(n: Numerics, s: State, es: seq<Event>): (tr: Trace)
    decreases |es|
  {
    if es == [] then Trace(s, [])
    else
      var t := Step(n, s, es[0]);
      var rest := Run(n, t.next, es[1..]);
      Trace(rest.final, Emitted(t.emitted) + rest.emitted)
  }
}
