# Calculator element state machine, in Dafny

A model of the four-function calculator web component `calc-element`
(`lit-element.js`). The component keeps three reactive fields —
`currentOperand`, `previousOperand` and `operation` — and five operations
change them: `appendNumber`, `chooseOperation`, `compute`, `delete` and
`clear`. The model writes each operation as a pure function from the old
fields to the new ones and proves what the operations promise, alone and
over whole sequences of button presses.

Modules:

- `Wrappers` (`wrappers.dfy`): `Option` and `Result`.
- `Numerics` (`numerics.dfy`): the operators `+ - * ÷`, the `switch` that
  selects them, the `Operand` type (`Text(s)` while typing, `Num(v)` once a
  result is stored), and an abstract numeric layer `Arith<V>` holding
  `parse` (`parseFloat`), `format` (a number's `toString`) and `apply` (the
  four floating-point operations) as function values over any value type `V`.
- `Calculator` (`calculator.dfy`): the state, the constructor's state, the
  five operations, the state invariant, and lemmas about single operations.
- `Sessions` (`sessions.dfy`): sequences of calls, the invariant over every
  reachable state, and runs of digit entry.
- `Chains` (`chains.dfy`): chained entry evaluates strictly left to right;
  concrete sessions such as `2 + 3 * 4 =`.

Modelling decisions:

- The fields are dynamically typed in the source. `currentOperand` holds a
  number after a successful `compute`, `chooseOperation` can copy that
  number into `previousOperand`, and `delete` and `appendNumber` turn it back
  into text through `toString`. `Operand = Text(s) | Num(v)` keeps this
  distinction, and `TextOf` is `toString`.
- `x === ""` is `IsBlank`: only the empty text; a number is never strictly
  equal to the empty string.
- `parseFloat` stringifies its argument, so a number operand is parsed from
  its formatted text. The empty string always parses to NaN, so `Parse`
  answers `None` for it without asking the abstract parser.
- `appendNumber(".")` on a number operand calls `includes` on a number and
  throws a `TypeError`. `AppendNumber` returns `Failure(TypeError)` there.
  In a session the throw only aborts that click's handler, so the fields
  stay as they were and later clicks carry on (`Sessions.After`).
- The number buttons pass JavaScript numbers 0-9 and the string `"."`;
  `Token = Digit(d) | Point` and `TokenText` is their `toString`.
- `chooseOperation` accepts any string; only `+ - * ÷` get past the
  `switch` in `compute`, every other string (and `null`) takes its
  `default` branch, which leaves the state alone.

Facts about the code that the model proves:

- `.` typed twice on an empty operand gives `"."`, with no leading zero
  (`Chains.PointTwiceFromEmpty`).
- `.` typed right after a result throws a `TypeError`
  (`Chains.PointAfterResultThrows`).
- `compute` stores the number itself in `currentOperand`, not text; it
  becomes text only when `appendNumber` or `delete` stringifies it
  (`Calculator.Compute`).
- `previousOperand === ""` exactly when `operation === null` in every
  reachable state (`Sessions.ReachableInv`).

## Model

| member | source | states |
|---|---|---|
| `Numerics.OperatorOf` | lit-element.js:131-146 | the `switch` selects an operator only for one of the four symbols `+ - * ÷`, and each selected operator is the one that symbol denotes; `null` and every other string fall to `default` |
| `Numerics.SymbolRoundTrip` | lit-element.js:131-143 | each operator's button symbol selects that very operator in the `switch` |
| `Numerics.Parse` | lit-element.js:128-129 | parsing an empty operand fails, and any other operand is parsed from its `toString` text |
| `Calculator.TokenText` | lit-element.js:111 | a button token's text is one character: `.` exactly for the decimal-point button, and the decimal digit `d` for the number `d` |
| `Calculator.Init` | lit-element.js:101-106 | both operands are the empty text and no operation is pending |
| `Calculator.AppendNumber` | lit-element.js:109-112 | throws exactly when `.` meets a number operand; a second `.` in a text operand changes nothing; otherwise the operand's text form gains the token's text; the previous operand and operation never change; the invariant and the one-decimal-point property are kept |
| `Calculator.Compute` | lit-element.js:126-150 | if either operand fails to parse or the operation is not one of the four symbols nothing changes; otherwise the current operand becomes the number obtained by applying the operation to (previous, current), the previous operand is emptied and nothing is pending; the invariant is kept |
| `Calculator.ChooseOperation` | lit-element.js:115-123 | with an empty current operand nothing changes; otherwise the new operation is pending, the current operand is empty, and the previous operand is the old current one, or the result of the folded `compute` when an operation was pending; the invariant and the one-decimal-point property are kept |
| `Calculator.Delete` | lit-element.js:153-155 | the current operand becomes its old text form minus exactly its last character (empty stays empty); the previous operand and operation are untouched |
| `Calculator.Clear` | lit-element.js:158-162 | both operands are emptied and no operation is pending, from any state |
| `Calculator.InitInv` | lit-element.js:103-105 | the constructor's state satisfies the invariant (previous empty exactly when no operation, a number only when nothing is pending) and has no decimal point |
| `Calculator.ClearResets` | lit-element.js:158-162 | `clear` yields the constructor's state from any state, is idempotent, and re-establishes the invariant |
| `Calculator.ComputeNoOpIff` | lit-element.js:128-149 | `compute` leaves the state unchanged if and only if one of its guards (operand parse, operator `switch`) fails |
| `Calculator.ComputeIdempotent` | lit-element.js:126-150 | pressing `=` twice has the effect of pressing it once |
| `Calculator.ChooseOnBlankIsNoOp` | lit-element.js:116 | `chooseOperation` on an empty current operand leaves the state unchanged for every operator string |
| `Calculator.ChooseFoldsLeft` | lit-element.js:117-122 | with a computable pending operation, choosing an operator stores the pending operation's result as the previous operand under the new operator, and empties the current operand |
| `Calculator.ChooseDiscardsFailedFold` | lit-element.js:117-122 | when the folded `compute` fails, `chooseOperation` still completes: the old previous operand and operator are discarded and the current operand becomes the previous one |
| `Calculator.DeleteUndoesAppend` | lit-element.js:109-155 | on a text operand, `delete` exactly undoes an accepted `appendNumber` |
| `Sessions.Step` | lit-element.js:109-162 | a single call throws exactly for `.` on a number operand, and every call that returns keeps the invariant |
| `Sessions.After` | lit-element.js:109-162 | a call that throws leaves every field as it was (the throw aborts the click handler before any assignment); a call that returns yields its new state; the invariant is kept either way |
| `Sessions.RunConcat` | lit-element.js:101-162 | running two sequences of calls one after the other is running their concatenation |
| `Sessions.RunKeepsInv` | lit-element.js:109-162 | every sequence of calls, thrown ones included, preserves the invariant |
| `Sessions.ReachableInv` | lit-element.js:101-162 | in every state reachable from the constructor, `previousOperand === ""` exactly when `operation === null` |
| `Sessions.RunKeepsOneDot` | lit-element.js:109-155 | if number formatting never writes two decimal points, no sequence of calls puts two decimal points in the current operand |
| `Sessions.AcceptedShape` | lit-element.js:110 | the tokens an operand keeps are all the digits in order, plus one decimal point exactly when one was typed and none was there before |
| `Sessions.SpellDots` | lit-element.js:111 | the text of a token sequence holds as many decimal points as the sequence has decimal-point tokens |
| `Sessions.AppendRun` | lit-element.js:109-112 | from a text operand, a run of `appendNumber` calls leaves the old text followed by the accepted tokens, with nothing else changed |
| `Sessions.AppendRunNeverThrows` | lit-element.js:109-112 | from a text operand, no call in a run of `appendNumber` calls throws |
| `Sessions.AppendRunOneDot` | lit-element.js:110-111 | from a text operand with at most one decimal point, a run of digit entry keeps every typed digit and still holds at most one decimal point |
| `Chains.DigitsAllAccepted` | lit-element.js:110-111 | digit tokens are never rejected |
| `Chains.TermStep` | lit-element.js:115-123 | an operator press after a computable pending operation followed by digits leaves the folded result as previous operand and the digits as current operand |
| `Chains.ChainFoldsLeft` | lit-element.js:115-150 | entering operators and operands then `=` leaves the strict left fold of all operands in the current operand with nothing pending: no precedence |
| `Chains.EnterPair` | lit-element.js:109-123 | digit, operator, digit from the constructor's state leaves the operation pending on the two one-digit operands |
| `Chains.FivePlusThree` | lit-element.js:126-150 | `5 + 3 =` leaves the number 5+3 in the current operand, with the previous operand empty and no operation |
| `Chains.TwoPlusThreeTimesFour` | lit-element.js:115-150 | `2 + 3 * 4 =` computes `(2 + 3) * 4`, not `2 + (3 * 4)` |
| `Chains.PointTwiceFromEmpty` | lit-element.js:110-111 | `.` pressed twice on an empty operand leaves the single text `.` |
| `Chains.PointAfterResultThrows` | lit-element.js:110 | `.` pressed right after `5 + 3 =` throws a `TypeError` |
| `Chains.DeleteExamples` | lit-element.js:154 | `delete` turns `12` into `1` and leaves the empty operand empty |

## Left out

- Styling (`static get styles`), the `render` template and its click
  wiring, the reactive `static get properties`, the `LitElement` base
  class and `customElements.define`: presentation and framework glue. The
  template only fixes the token alphabet (digits 0-9 and `.`) and the four
  operator symbols, which the model uses.
- Floating-point numerics: what `parseFloat` accepts, the results of
  `+ - * /` (including division by zero giving Infinity or NaN) and how a
  number is formatted by `toString` stay abstract in `Arith<V>`. No
  property here depends on the numeric values.
- Re-rendering after a field changes and the console report of the thrown
  `TypeError`: side effects outside the fields.
- Sessions.RunKeepsOneDot: assumes number formatting never writes two
  decimal points, which JavaScript's `toString` guarantees but the abstract
  `format` does not.
- Chains.ChainFoldsLeft: assumes every intermediate result survives
  `toString` followed by `parseFloat` (true of finite JavaScript numbers,
  false of NaN, on which the code's `compute` silently stops), and that each
  operand is a non-empty run of digits that parses.
- Chains.TwoPlusThreeTimesFour: assumes the same round trip for `2 + 3`.
