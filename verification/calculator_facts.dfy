/** Properties of key-press sequences on the calculator. */
module CalculatorFacts {
  import opened Types
  import opened Calculator

  lemma {:induction false} RunCons(n: Numerics, s: State, e: Event, es: seq<Event>)
    ensures Run(n, s, [e] + es)
         == Trace(Run(n, Step(n, s, e).next, es).final,
                  Emitted(Step(n, s, e).emitted) + Run(n, Step(n, s, e).next, es).emitted)
  {
  }

  // ---------------------------------------------------------------------------
  // The pending operation and its left operand are set and cleared together.

  predicate Paired(s: State) {
    s.operation.Some? <==> s.previousValue.Some?
  }

  lemma {:induction false} StepKeepsPaired(n: Numerics, s: State, e: Event)
    requires Paired(s)
    ensures Paired(Step(n, s, e).next)
  {
  }

  /** In every state reachable from mount, an operation is pending exactly
      when a left operand is stored. */
  lemma {:induction false} RunKeepsPaired(n: Numerics, s: State, es: seq<Event>)
    requires Paired(s)
    ensures Paired(Run(n, s, es).final)
    decreases |es|
  {
    if es != [] {
      StepKeepsPaired(n, s, es[0]);
      RunKeepsPaired(n, Step(n, s, es[0]).next, es[1..]);
    }
  }

  /** So on a reachable state, an operator press after a typed second operand
      always reports a calculation, and the guard inside `calculate` never
      stops it. */
  lemma {:induction false} ChainedOperatorReports(n: Numerics, es: seq<Event>, op: Op)
    requires ChainsCalculation(Run(n, Initial, es).final)
    ensures HandleOperation(n, Run(n, Initial, es).final, op).emitted.Some?
  {
    RunKeepsPaired(n, Initial, es);
  }

  /** Two operators in a row: the second one reports nothing, keeps the
      display, and takes that display as its left operand. */
  lemma {:induction false} OperatorTwice(n: Numerics, s: State, a: Op, b: Op)
    ensures var t := HandleOperation(n, s, a).next;
      && HandleOperation(n, t, b).emitted.None?
      && HandleOperation(n, t, b).next == State(t.display, Some(t.display), Some(b), true)
  {
  }

  /** "AC" forgets everything before it: whatever state it is pressed in,
      the keys after it behave exactly as they would right after mount. */
  lemma {:induction false} ClearForgetsPast(n: Numerics, s: State, es: seq<Event>)
    ensures Run(n, s, [AllClear] + es) == Run(n, Initial, es)
  {
  }

  // ---------------------------------------------------------------------------
  // Typing a number.

  function Keys(ks: seq<string>): (es: seq<Event>)
    ensures |es| == |ks|
    ensures forall i :: 0 <= i < |ks| ==> es[i] == Digit(ks[i])
  {
    if ks == [] then [] else [Digit(ks[0])] + Keys(ks[1..])
  }

  function Concat(ks: seq<string>): (s: string) {
    if ks == [] then "" else ks[0] + Concat(ks[1..])
  }

  /** Keys typed onto a display that is neither "0" nor awaiting reset are
      appended one after the other; no key is refused, a second "." included. */
  lemma {:induction false} TypingAppends(n: Numerics, s: State, ks: seq<string>)
    requires !s.shouldResetDisplay && |s.display| >= 1 && s.display != "0"
    requires forall i :: 0 <= i < |ks| ==> |ks[i]| >= 1
    ensures Run(n, s, Keys(ks)) == Trace(s.(display := s.display + Concat(ks)), [])
    decreases |ks|
  {
    if ks != [] {
      var t := HandleNumber(s, ks[0]);
      assert Keys(ks) == [Digit(ks[0])] + Keys(ks[1..]);
      RunCons(n, s, Digit(ks[0]), Keys(ks[1..]));
      assert |t.display| >= 2;
      TypingAppends(n, t, ks[1..]);
      assert t.display + Concat(ks[1..]) == s.display + Concat(ks);
    }
  }

  /** In any state awaiting reset (after an operator, or after a "=" that
      reported a calculation), typing a number whose first key is not "0"
      shows exactly the typed keys, and reports nothing. */
  lemma {:induction false} TypingAfterReset(n: Numerics, s: State, ks: seq<string>)
    requires s.shouldResetDisplay
    requires |ks| >= 1 && ks[0] != "0"
    requires forall i :: 0 <= i < |ks| ==> |ks[i]| >= 1
    ensures Run(n, s, Keys(ks)) == Trace(s.(display := Concat(ks), shouldResetDisplay := false), [])
  {
    var t := HandleNumber(s, ks[0]);
    assert t == s.(display := ks[0], shouldResetDisplay := false);
    assert Keys(ks) == [Digit(ks[0])] + Keys(ks[1..]);
    RunCons(n, s, Digit(ks[0]), Keys(ks[1..]));
    TypingAppends(n, t, ks[1..]);
  }

  // ---------------------------------------------------------------------------
  // Every reported calculation is consistent with itself.

  predicate SpaceFree(s: string) {
    ' ' !in s
  }

  /** The display and the stored operand contain no space. */
  predicate Words(s: State) {
    SpaceFree(s.display) && (s.previousValue.Some? ==> SpaceFree(s.previousValue.value))
  }

  /** Number formatting never produces a space. */
  ghost predicate ShowsWords(n: Numerics) {
    forall x :: SpaceFree(n.show(x))
  }

  /** Only keys without a space are pressed. */
  predicate TypesWords(es: seq<Event>) {
    forall i :: 0 <= i < |es| ==> es[i].Digit? ==> SpaceFree(es[i].key)
  }

  /** A reported calculation whose expression reads back as `prev op current`
      and whose result is that expression's truncated value. */
  predicate Consistent(n: Numerics, c: Calculation) {
    match ParseExpression(c.expression)
    case Some((prev, op, current)) => c.result == FormatResult(n, Evaluate(op, n.parse(prev), n.parse(current)))
    case None => false
  }

  lemma {:induction false} PrefixKeepsSpaceFree(r: string, s: string)
    requires r <= s && SpaceFree(s)
    ensures SpaceFree(r)
  {
  }

  lemma {:induction false} CalculateIsConsistent(n: Numerics, s: State)
    requires Words(s) && ShowsWords(n)
    ensures Words(Calculate(n, s).next)
    ensures Calculate(n, s).emitted.Some? ==> Consistent(n, Calculate(n, s).emitted.value)
  {
    if Pending(s) {
      var prev := s.previousValue.value;
      var op := s.operation.value;
      var value := Evaluate(op, n.parse(prev), n.parse(s.display));
      PrefixKeepsSpaceFree(FormatResult(n, value), n.show(value));
      ExpressionRoundTrip(prev, op, s.display);
    }
  }

  lemma {:induction false} StepIsConsistent(n: Numerics, s: State, e: Event)
    requires Words(s) && ShowsWords(n)
    requires e.Digit? ==> SpaceFree(e.key)
    ensures Words(Step(n, s, e).next)
    ensures Step(n, s, e).emitted.Some? ==> Consistent(n, Step(n, s, e).emitted.value)
  {
    match e
    case Digit(k) =>
      assert SpaceFree(s.display + k);
    case Operator(op) =>
      CalculateIsConsistent(n, s);
    case Equals =>
      CalculateIsConsistent(n, s);
    case AllClear =>
    case Percent =>
    case Negate =>
  }

  /** As long as neither the keys nor number formatting introduce a space,
      every calculation a key sequence reports can be read back from its
      expression string, and its result is the truncated value of exactly
      that expression. */
  lemma {:induction false} RunReportsConsistently(n: Numerics, s: State, es: seq<Event>)
    requires Words(s) && ShowsWords(n) && TypesWords(es)
    ensures Words(Run(n, s, es).final)
    ensures forall c :: c in Run(n, s, es).emitted ==> Consistent(n, c)
    decreases |es|
  {
    if es != [] {
      var t := Step(n, s, es[0]);
      StepIsConsistent(n, s, es[0]);
      assert TypesWords(es[1..]) by {
        forall i | 0 <= i < |es[1..]| ensures es[1..][i].Digit? ==> SpaceFree(es[1..][i].key) {
          assert es[1..][i] == es[i + 1];
        }
      }
      RunReportsConsistently(n, t.next, es[1..]);
    }
  }

  /** Every reported result is at most twelve characters long. */
  lemma {:induction false} RunResultsFit(n: Numerics, s: State, es: seq<Event>)
    ensures forall c :: c in Run(n, s, es).emitted ==> |c.result| <= ResultWidth
    decreases |es|
  {
    if es != [] {
      RunResultsFit(n, Step(n, s, es[0]).next, es[1..]);
    }
  }

  // ---------------------------------------------------------------------------
  // Worked key sequences.

  /** `7 + 3 =` reports "7 + 3" and shows its result. */
  lemma {:induction false} SevenPlusThree(n: Numerics)
    ensures var r := FormatResult(n, n.parse("7") + n.parse("3"));
      Run(n, Initial, [Digit("7"), Operator(Add), Digit("3"), Equals])
        == Trace(State(r, None, None, true), [Calculation("7 + 3", r)])
  {
    var s1 := State("7", None, None, false);
    var s2 := State("7", Some("7"), Some(Add), true);
    var s3 := State("3", Some("7"), Some(Add), false);
    var r := FormatResult(n, n.parse("7") + n.parse("3"));
    assert Expression("7", Add, "3") == "7 + 3";
    RunCons(n, s3, Equals, []);
    RunCons(n, s2, Digit("3"), [Equals]);
    RunCons(n, s1, Operator(Add), [Digit("3"), Equals]);
    RunCons(n, Initial, Digit("7"), [Operator(Add), Digit("3"), Equals]);
  }

  /** `5 / 0 =` shows the formatted zero rather than an error. */
  lemma {:induction false} DivideByZero(n: Numerics)
    requires n.parse("0") == 0.0
    ensures var r := FormatResult(n, 0.0);
      Run(n, Initial, [Digit("5"), Operator(Divide), Digit("0"), Equals])
        == Trace(State(r, None, None, true), [Calculation("5 / 0", r)])
  {
    var s1 := State("5", None, None, false);
    var s2 := State("5", Some("5"), Some(Divide), true);
    var s3 := State("0", Some("5"), Some(Divide), false);
    assert Expression("5", Divide, "0") == "5 / 0";
    RunCons(n, s3, Equals, []);
    RunCons(n, s2, Digit("0"), [Equals]);
    RunCons(n, s1, Operator(Divide), [Digit("0"), Equals]);
    RunCons(n, Initial, Digit("5"), [Operator(Divide), Digit("0"), Equals]);
  }

  /** `2 + 3 * 4 =`: the "*" press reports and shows 2 + 3, but keeps "3"
      (the display the press saw) as its left operand, so "=" reports and
      shows 3 * 4, not (2 + 3) * 4. */
  lemma {:induction false} ChainUsesPrePressDisplay(n: Numerics)
    ensures var r1 := FormatResult(n, n.parse("2") + n.parse("3"));
      var r2 := FormatResult(n, n.parse("3") * n.parse("4"));
      Run(n, Initial, [Digit("2"), Operator(Add), Digit("3"), Operator(Multiply), Digit("4"), Equals])
        == Trace(State(r2, None, None, true), [Calculation("2 + 3", r1), Calculation("3 * 4", r2)])
  {
    var s1 := State("2", None, None, false);
    var s2 := State("2", Some("2"), Some(Add), true);
    var s3 := State("3", Some("2"), Some(Add), false);
    var tail := [Operator(Multiply), Digit("4"), Equals];
    assert Step(n, Initial, Digit("2")) == Transition(s1, None);
    assert Step(n, s1, Operator(Add)) == Transition(s2, None);
    assert Step(n, s2, Digit("3")) == Transition(s3, None);
    ChainTail(n);
    RunCons(n, s2, Digit("3"), tail);
    assert [Operator(Add), Digit("3")] + tail == [Operator(Add)] + ([Digit("3")] + tail);
    RunCons(n, s1, Operator(Add), [Digit("3")] + tail);
    assert [Digit("2"), Operator(Add), Digit("3")] + tail == [Digit("2")] + ([Operator(Add), Digit("3")] + tail);
    RunCons(n, Initial, Digit("2"), [Operator(Add), Digit("3")] + tail);
  }

  /** The last three keys of `2 + 3 * 4 =`. */
  lemma {:induction false} ChainTail(n: Numerics)
    ensures var r1 := FormatResult(n, n.parse("2") + n.parse("3"));
      var r2 := FormatResult(n, n.parse("3") * n.parse("4"));
      Run(n, State("3", Some("2"), Some(Add), false), [Operator(Multiply), Digit("4"), Equals])
        == Trace(State(r2, None, None, true), [Calculation("2 + 3", r1), Calculation("3 * 4", r2)])
  {
    var r1 := FormatResult(n, n.parse("2") + n.parse("3"));
    var r2 := FormatResult(n, n.parse("3") * n.parse("4"));
    var s3 := State("3", Some("2"), Some(Add), false);
    var s4 := State(r1, Some("3"), Some(Multiply), true);
    var s5 := State("4", Some("3"), Some(Multiply), false);
    assert Expression("2", Add, "3") == "2 + 3";
    assert Expression("3", Multiply, "4") == "3 * 4";
    assert Step(n, s3, Operator(Multiply)) == Transition(s4, Some(Calculation("2 + 3", r1))) by {
      assert Calculate(n, s3).emitted == Some(Calculation("2 + 3", r1));
    }
    assert Step(n, s4, Digit("4")) == Transition(s5, None);
    assert Step(n, s5, Equals) == Transition(State(r2, None, None, true), Some(Calculation("3 * 4", r2)));
    RunCons(n, s5, Equals, []);
    RunCons(n, s4, Digit("4"), [Equals]);
    RunCons(n, s3, Operator(Multiply), [Digit("4"), Equals]);
  }
}
