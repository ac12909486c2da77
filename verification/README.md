# Calculator with history — a Dafny model

This project models the logic of a browser calculator written in React:

- the keypad state machine of the `Calculator` component (`display`, `previousValue`, `operation`, `shouldResetDisplay`), with its handlers for a digit or ".", an operator, "=", "AC", "%" and "+/-", and the `(expression, result)` pair that "=" reports through `onCalculate`;
- the `App` component's history log, which puts each reported calculation at the front and keeps at most 50 entries;
- the wiring between the two (`onCalculate={addToHistory}`).

Files:

- `types.dfy` (module `Types`): the operation type, its symbol, and the history entry.
- `seqs.dfy` (module `Seqs`): `Take`, which is JavaScript's `slice(0, n)`, and `Reverse`.
- `calculator.dfy` (module `Calculator`): the state, the handlers, and the React write batches.
- `calculator_facts.dfy` (module `CalculatorFacts`): properties of key sequences, including worked examples.
- `history.dfy` (module `App`): `addToHistory`, `clearHistory`, and the calculator and history running together.

**React state updates.** Each handler reads one snapshot of the state and issues `setX` calls. React applies them in order after the handler returns, so the last write to each field wins. The model represents a handler's output as a `seq<Write>`. `Commit` applies that sequence in order. `CommitIsLastWriteWins` proves this equals taking, field by field, the last value written. The nested `calculate()` inside `handleOperation` reads the same snapshot. Its writes to `previousValue` and `operation` are overwritten by the writes that follow it. Only its `display` write and its `onCalculate` report survive.

**Numbers.** `parseFloat` and `Number.prototype.toString` are the two arbitrary total functions of a `Numerics` value. They are never given a definition, so every result holds for any choice of them, with two exceptions: `DivideByZero` assumes `parseFloat("0")` is 0, and `RunReportsConsistently` assumes `toString` never produces a space. Arithmetic is done on `real`. Division by zero gives 0, as in the source.

**Chained operators.** Chained operators do not evaluate left to right. When "*" is pressed after `2 + 3`, the code reports and shows the result of `2 + 3`. But it keeps the display the handler saw, "3", as the new left operand. So "=" then reports `3 * 4`, not `(2 + 3) * 4`. `ChainUsesPrePressDisplay` proves this sequence of reports.

## Model

| member | source | states |
|---|---|---|
| Types.Symbol | types.ts:2 | each operation is stored and printed as one non-space character |
| Types.OpOfSymbol | types.ts:2 | reading a symbol back gives an operation exactly when that operation's symbol is the string, so symbols identify operations |
| Seqs.Take | components/Calculator.tsx:52 | `slice(0, n)` keeps `min(n, length)` elements, and they are a prefix of the input |
| Calculator.CommitIsLastWriteWins | components/Calculator.tsx:28-36 | applying a handler's `setX` calls in order equals letting each field take its last written value, or keep the snapshot value if it was not written |
| Calculator.Evaluate | components/Calculator.tsx:43-50 | add, subtract and multiply give the usual result; division by a nonzero operand gives the quotient; division by zero gives 0 |
| Calculator.FormatResult | components/Calculator.tsx:52 | the shown result is a prefix of the number's string form, at most 12 characters; it is the whole form when that fits and exactly 12 characters otherwise |
| Calculator.ExpressionRoundTrip | components/Calculator.tsx:53 | the reported expression `prev op display` parses back into exactly its operands and operation when neither operand contains a space |
| Calculator.HandleNumber | components/Calculator.tsx:18-26 | a key replaces a display of "0" or one awaiting reset and clears the flag; otherwise the key is appended, with no check for a second "."; the operand and operation never change |
| Calculator.Calculate | components/Calculator.tsx:38-60 | with no pending operation or operand, nothing changes and nothing is reported; otherwise exactly one calculation is reported, `prev op display` with its truncated result; the display shows that result, the operand and operation are cleared, and the reset flag is set |
| Calculator.HandleOperation | components/Calculator.tsx:28-36 | an operator press always ends with the pre-press display as operand, the pressed operation pending, and the reset flag set; the nested calculation runs, and reports and shows its result, only when an operation is pending and the flag is clear |
| Calculator.Clear | components/Calculator.tsx:62-68 | "AC" returns to the state at mount from any state |
| Calculator.HandlePercent | components/Calculator.tsx:70-73 | "%" shows the display's value divided by 100 and changes nothing else |
| Calculator.ToggleSign | components/Calculator.tsx:75-77 | "+/-" shows the display's value negated and changes nothing else |
| CalculatorFacts.RunKeepsPaired | components/Calculator.tsx:28-68 | in every state reached from mount, an operation is pending exactly when a left operand is stored |
| CalculatorFacts.ChainedOperatorReports | components/Calculator.tsx:29-39 | on a reachable state, an operator pressed after a typed second operand always reports a calculation; the guard inside `calculate` never stops it |
| CalculatorFacts.OperatorTwice | components/Calculator.tsx:28-36 | a second operator right after a first reports nothing, keeps the display, and takes that display as its operand |
| CalculatorFacts.ClearForgetsPast | components/Calculator.tsx:62-68 | after "AC", every later key behaves exactly as it would right after mount |
| CalculatorFacts.TypingAppends | components/Calculator.tsx:18-24 | keys typed onto a display that is neither "0" nor awaiting reset are appended in order, none refused, and nothing is reported |
| CalculatorFacts.TypingAfterReset | components/Calculator.tsx:18-24 | from any state awaiting reset (after an operator, or after a "=" that reported a calculation), a number whose first key is not "0" appears exactly as typed, the reset flag clears, and nothing is reported |
| CalculatorFacts.RunReportsConsistently | components/Calculator.tsx:38-60 | if keys and number formatting contain no spaces, every reported expression parses back, and its result is the truncated value of that same expression |
| CalculatorFacts.RunResultsFit | components/Calculator.tsx:52 | every result reported along any key sequence is at most 12 characters long |
| CalculatorFacts.SevenPlusThree | components/Calculator.tsx:18-60 | `7 + 3 =` reports "7 + 3" and shows its result |
| CalculatorFacts.DivideByZero | components/Calculator.tsx:49 | `5 / 0 =` reports "5 / 0" and shows the formatted 0 rather than an error |
| CalculatorFacts.ChainUsesPrePressDisplay | components/Calculator.tsx:28-60 | `2 + 3 * 4 =` reports "2 + 3" and then "3 * 4", and ends showing the result of 3 * 4 |
| App.AddToHistory | App.tsx:11-19 | the new entry comes first with the given fields; the length is `min(old + 1, 50)`; the remaining entries are the old list's first ones, in order |
| App.AddKeepsEntries | App.tsx:18 | existing entries are moved back one place or dropped, never altered; below the limit none is dropped |
| App.ClearHistory | App.tsx:21 | clearing leaves an empty history, whatever it held |
| App.ReplayBounded | App.tsx:8-21 | from a history of at most 50 entries, any mix of additions and clears keeps it at most 50 |
| App.ReplayAdds | App.tsx:18 | adding items one by one gives the items newest first, followed by the old entries, cut to 50 |
| App.OldestEvicted | App.tsx:18 | after more than 50 additions with distinct ids to an empty history, the first item is gone and the last 50 remain |
| App.Act | App.tsx:41 | a key press moves the calculator to the state its handler produces; a press that reports a calculation adds it to the front of the history, and its result is what the display shows; other presses leave the history unchanged; "clear history" empties it and leaves the calculator alone |
| App.MountedIsHealthy | App.tsx:8-21 | from mount, after any actions, the history has at most 50 entries, each result is at most 12 characters, and the calculator's operation and operand are set together |

## Left out

- Floating point: `parseFloat`, `toString`, NaN, the infinities and -0 are not modelled. Parsing and formatting are arbitrary functions. Arithmetic is on `real`.
- Calculator.Evaluate: computes on `real`, so NaN operands and IEEE rounding are not modelled. A NaN divisor passes the source's `current !== 0` test; that case is absent here.
- Calculator.HandlePercent and Calculator.ToggleSign: state only which number is formatted. No round trip through parsing is claimed, since the formatting functions are arbitrary.
- CalculatorFacts.RunReportsConsistently: assumes number formatting never produces a space. Without that, the expression string could be ambiguous.
- The explanation feature (`askAI`, `isExplaining`, `aiResponse`) is not modelled. It is an asynchronous call to a remote language-model service. It touches the keypad state in two ways. Digit, operator and "AC" presses hide a shown explanation; "=", "%" and "+/-" do not. The explanation request reads the current display, left operand and operation.
- `services/geminiService.ts` is not part of this model: it is network I/O and a third-party SDK.
- `components/HistorySidebar.tsx` is not part of this model: it only renders the list.
- Layout, styling and opening or closing the sidebar in `App.tsx` are presentation and are not modelled.
- History ids and timestamps come from `Math.random` and `Date.now`. Here each key press carries them as opaque inputs.
- `useCallback` memoisation is not modelled. It does not change what `calculate` computes, because every value it reads is among its dependencies.
