/** The `App` component's calculation history: newest first, at most fifty
    entries, fed by the calculator's `onCalculate` callback. Ids and
    timestamps come from a random generator and the clock; here they are
    opaque inputs. */
module App {
  import opened Types
  import opened Seqs
  import opened Calculator
  import CalculatorFacts

  /** The history keeps at most this many entries. */
  const HistoryLimit: nat := 50

  /** `addToHistory`: the new entry goes in front and the list is cut to its
      first fifty entries, so the oldest entry is the one evicted. */
  function AddToHistory(h: seq<HistoryItem>, id: string, expression: string, result: string, timestamp: int)
    : (r: seq<HistoryItem>)
    ensures |r| == Min(|h| + 1, HistoryLimit)
    ensures r[0] == HistoryItem(id, expression, result, timestamp)
    ensures r[1..] == h[..|r| - 1]
  {
    Take([HistoryItem(id, expression, result, timestamp)] + h, HistoryLimit)
  }

  /** Entries already in the history are only ever moved back one place or
      dropped; none is altered, and every entry that stays keeps its order. */
  lemma {:induction false} AddKeepsEntries(h: seq<HistoryItem>, id: string, expression: string, result: string, timestamp: int)
    ensures var r := AddToHistory(h, id, expression, result, timestamp);
      && (forall i :: 1 <= i < |r| ==> r[i] == h[i - 1])
      && (forall x :: x in r ==> x == r[0] || x in h)
      && (|h| < HistoryLimit ==> r[1..] == h)
  {
  }

  /** `clearHistory`: the empty list, whatever was there. */
  function ClearHistory(h: seq<HistoryItem>): (r: seq<HistoryItem>)
    ensures |r| == 0
  {
    []
  }

  datatype HistoryEvent =
    | Added(id: string, expression: string, result: string, timestamp: int)
    | Cleared

  function Record(h: seq<HistoryItem>, e: HistoryEvent): (r: seq<HistoryItem>) {
    match e
    case Added(id, expression, result, timestamp) => AddToHistory(h, id, expression, result, timestamp)
    case Cleared => ClearHistory(h)
  }

  function Replay(h: seq<HistoryItem>, es: seq<HistoryEvent>): (r: seq<HistoryItem>)
    decreases |es|
  {
    if es == [] then h else Replay(Record(h, es[0]), es[1..])
  }

  /** Starting from the empty history at mount, no mix of additions and
      clears ever makes it longer than fifty entries. */
  lemma {:induction false} ReplayBounded(h: seq<HistoryItem>, es: seq<HistoryEvent>)
    requires |h| <= HistoryLimit
    ensures |Replay(h, es)| <= HistoryLimit
    decreases |es|
  {
    if es != [] {
      ReplayBounded(Record(h, es[0]), es[1..]);
    }
  }

  function Adds(items: seq<HistoryItem>): (es: seq<HistoryEvent>)
    ensures |es| == |items|
  {
    if items == [] then []
    else
      var x := items[0];
      [Added(x.id, x.expression, x.result, x.timestamp)] + Adds(items[1..])
  }

  /** After adding `items` one by one to a history `h` (itself within the
      limit), the history holds the
      items newest first, followed by the old entries, cut to fifty. */
  lemma {:induction false} ReplayAdds(h: seq<HistoryItem>, items: seq<HistoryItem>)
    requires |h| <= HistoryLimit
    ensures Replay(h, Adds(items)) == Take(Reverse(items) + h, HistoryLimit)
    decreases |items|
  {
    if items != [] {
      var x := items[0];
      var h1 := AddToHistory(h, x.id, x.expression, x.result, x.timestamp);
      var es := Adds(items);
      assert es == [Added(x.id, x.expression, x.result, x.timestamp)] + Adds(items[1..]);
      assert es[0] == Added(x.id, x.expression, x.result, x.timestamp);
      assert es[1..] == Adds(items[1..]);
      assert Record(h, es[0]) == h1;
      assert Replay(h, es) == Replay(h1, es[1..]);
      assert h1 == Take([x] + h, HistoryLimit);
      ReplayAdds(h1, items[1..]);
      assert Reverse(items) == Reverse(items[1..]) + [x];
      TakeOfTaken(Reverse(items[1..]), [x] + h);
      assert Reverse(items[1..]) + ([x] + h) == Reverse(items) + h;
    }
  }

  /** Cutting the tail early does not change the first fifty elements. */
  lemma {:induction false} TakeOfTaken(front: seq<HistoryItem>, back: seq<HistoryItem>)
    ensures Take(front + Take(back, HistoryLimit), HistoryLimit) == Take(front + back, HistoryLimit)
  {
  }

  /** After more than fifty additions to an empty history, the first item
      added is gone, provided the items are told apart (their ids differ). */
  lemma {:induction false} OldestEvicted(items: seq<HistoryItem>)
    requires |items| > HistoryLimit
    requires forall i, j :: 0 <= i < j < |items| ==> items[i].id != items[j].id
    ensures items[0] !in Replay([], Adds(items))
    ensures forall k :: |items| - HistoryLimit <= k < |items| ==> items[k] in Replay([], Adds(items))
  {
    ReplayAdds([], items);
    var r := Replay([], Adds(items));
    assert Reverse(items) + [] == Reverse(items);
    assert r == Reverse(items)[..HistoryLimit];
    forall i | 0 <= i < |r| ensures r[i] != items[0] {
      assert r[i] == items[|items| - 1 - i];
    }
    forall k | |items| - HistoryLimit <= k < |items| ensures items[k] in r {
      assert r[|items| - 1 - k] == items[k];
    }
  }

  // ---------------------------------------------------------------------------
  // The calculator and the history together.

  datatype Session = Session(calculator: State, history: seq<HistoryItem>)

  const Mounted := Session(Initial, [])

  /** One user action. A key press carries the id and timestamp the history
      entry would get should the press report a calculation. */
  datatype Action = Press(event: Event, id: string, timestamp: int) | ClearHistoryPressed

  /** `<Calculator onCalculate={addToHistory} />`: a key press moves the
      calculator by its handler, and a calculation the handler reports is
      added to the history in the same update. */
  function Act(n: Numerics, s: Session, a: Action): (r: Session)
    ensures a.Press? ==> r.calculator == Step(n, s.calculator, a.event).next
    ensures a.ClearHistoryPressed? ==> r == Session(s.calculator, [])
    ensures a.Press? && Step(n, s.calculator, a.event).emitted.None? ==> r.history == s.history
    ensures a.Press? && Step(n, s.calculator, a.event).emitted.Some? ==>
      var c := Step(n, s.calculator, a.event).emitted.value;
      && |r.history| == Min(|s.history| + 1, HistoryLimit)
      && r.history[0] == HistoryItem(a.id, c.expression, c.result, a.timestamp)
      && r.history[0].result == r.calculator.display
      && r.history[1..] == s.history[..|r.history| - 1]
  {
    match a
    case ClearHistoryPressed => Session(s.calculator, ClearHistory(s.history))
    case Press(e, id, timestamp) =>
      var t := Step(n, s.calculator, e);
      match t.emitted
      case None => Session(t.next, s.history)
      case Some(c) => Session(t.next, AddToHistory(s.history, id, c.expression, c.result, timestamp))
  }

  function RunSession(n: Numerics, s: Session, actions: seq<Action>): (r: Session)
    decreases |actions|
  {
    if actions == [] then s else RunSession(n, Act(n, s, actions[0]), actions[1..])
  }

  /** What holds of every session from mount on: the history has at most
      fifty entries, each result at most twelve characters, and the
      calculator's operation and left operand are set together. */
  predicate Healthy(s: Session) {
    && |s.history| <= HistoryLimit
    && (forall i :: 0 <= i < |s.history| ==> |s.history[i].result| <= ResultWidth)
    && CalculatorFacts.Paired(s.calculator)
  }

  lemma {:induction false} ActKeepsHealthy(n: Numerics, s: Session, a: Action)
    requires Healthy(s)
    ensures Healthy(Act(n, s, a))
  {
  }

  lemma {:induction false} SessionStaysHealthy(n: Numerics, s: Session, actions: seq<Action>)
    requires Healthy(s)
    ensures Healthy(RunSession(n, s, actions))
    decreases |actions|
  {
    if actions != [] {
      ActKeepsHealthy(n, s, actions[0]);
      SessionStaysHealthy(n, Act(n, s, actions[0]), actions[1..]);
    }
  }

  lemma {:induction false} MountedIsHealthy(n: Numerics, actions: seq<Action>)
    ensures Healthy(RunSession(n, Mounted, actions))
  {
    SessionStaysHealthy(n, Mounted, actions);
  }
}
