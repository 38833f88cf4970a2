# price-calculator: the pricing pipeline, modelled in Dafny

This project models the three computing functions of `index.js` in the
price-calculator package:

- `compute` walks an ordered list of price lines and folds them into a
  running price.
  - One evaluation context (`ctx`) is threaded through the lines.
  - `ctx.value` is the accumulator, seeded with `context.value || 0`.
  - For each line the loop writes `ctx.line` and `ctx.result`. It evaluates
    the line's `computeValue` with mathjs, or keeps the accumulator when the
    line has none, and passes the result through the `beforeSave` hook. It
    evaluates `computeDisplay` for the side figure `displayValue`, or gives
    `null` when the line has none. Only then does it move the accumulator
    (`ctx.value = ctx.result`) and push a copy of the line with
    `displayValue` and `value`.
  - A line whose evaluation throws is dropped and leaves the accumulator
    where it was.
  - The final accumulator is returned as `_totalPrice`.
- `computeDisplays` keeps the visible lines and adds to each a
  `displayTitle` rendered with mustache from its `displayTemplate`, or `''`
  when there is no template. A render failure drops only that line.
- `getOptionsPrice` sums `selected * price` over the options that are not
  included.

How the model represents the program:

- JavaScript values are a datatype (`Js.Value`). Objects are maps from
  property names to values, so "every field of the line is copied" and "the
  spread overwrote these keys and nothing else" are exact statements
  (`Js.Extends`, `Js.Overwrites`).
- The two engines are parameters. mathjs `math.eval` is an `Evaluator` and
  mustache `render` is a `Renderer`; each returns `Ok(value)` or `Thrown`.
  The `beforeSave` hook is a parameter too.
- The whole context map is threaded from line to line. A later expression
  can therefore read what earlier lines left in `ctx`, such as the stale
  `result` of an earlier line (also one that failed after `result` was
  written). `line` itself is always rebound before any expression of the
  current line is evaluated.
- `compute` and `computeDisplays` are methods with the source's loops. Each
  is proved equal to a fold function (`Compute.Computed`,
  `Displays.Displayed`), and the properties are lemmas about those folds.
  `getOptionsPrice` is a pure left fold proved equal to a reference sum.
- Where the doc comment and the code disagree, the model follows the code.
  The comment on `computeDisplay` (index.js:8-9) says the value is mirrored
  into `displayValue` when `computeDisplay` is missing. The code
  (index.js:38) stores `null`, and the package's tests expect `null` too.

## Model

| member | source | states |
|---|---|---|
| Compute.Seed | index.js:26 | the seed is the context's `value` or 0; it is truthy exactly when the context's `value` is, and otherwise it is 0 |
| Compute.InitialContext | index.js:26 | the starting context is `context` with every entry kept and `value` added; the accumulator is `context.value` when truthy, else 0 |
| Compute.LineScope | index.js:35 | the scope has every entry of the running context, `line` bound to the current line, and the accumulator unchanged |
| Compute.RawResult | index.js:36 | with `computeValue` the figure is its evaluation in the scope, without it the running accumulator; only an evaluated expression can throw |
| Compute.DisplayResult | index.js:38 | without `computeDisplay` the figure is `null` and nothing throws; with it, a throwing evaluation throws and a successful one gives exactly what `beforeSave` gives for its value |
| Compute.StepLine | index.js:34-48 | a dropped line leaves the accumulator alone; an emitted entry is the line with all its fields plus `displayValue` and `value`, and its `value` is the new accumulator |
| Compute.StepKeepsAmbientEntries | index.js:35-39 | of the shared context only `line`, `result` and `value` are written, whether the line fails or not, and `line` is the current line |
| Compute.EmittedUnlessThrown | index.js:34-48 | a line is emitted if and only if neither `computeValue`, `beforeSave` nor `computeDisplay` threw |
| Compute.ValueIsSavedResult | index.js:36-39 | an emitted `value` is `beforeSave` of `computeValue` evaluated with the previous accumulator and the line in scope; without `computeValue` it is `beforeSave` of the previous accumulator |
| Compute.DisplaySeesPreviousAccumulator | index.js:38 | `computeDisplay` is evaluated while `value` is still the previous accumulator, with `line` and the new `result` bound; `displayValue` is `beforeSave` of it, or `null` without `computeDisplay` |
| Compute.Run | index.js:28-49 | the fold only appends to `results`, at most one entry per line |
| Compute.Computed | index.js:25-53 | `compute`'s result has at most one entry per line, and `_totalPrice` is the `value` of the last entry, or the seed when nothing was emitted |
| Compute.ComputeLine | index.js:34-45 | the `try` body, with its writes to `ctx` in source order, produces the new context and entry that `StepLine` specifies |
| Compute.Compute | index.js:25-53 | the loop returns exactly the fold `Computed`: its results and the final accumulator as `_totalPrice` |
| Compute.LoopStep | index.js:28-49 | one turn of the loop keeps the fold over the processed prefix equal to the running context and `results` |
| Compute.ComputedIsSubsequence | index.js:41-45 | `compute`'s output is an order-preserving subsequence of the lines, each entry the line with all its fields plus `displayValue` and `value`, and nothing else |
| Compute.OutputIsSubsequence | index.js:41-45 | every pushed entry is its input line plus `displayValue` and `value`, in input order |
| Compute.TotalIsLastValue | index.js:51 | the final accumulator is the `value` of the last emitted entry, or the starting accumulator when none was emitted |
| Compute.RunAppend | index.js:28-49 | folding a concatenation is folding the second part from the state the first part left |
| Compute.RunSnoc | index.js:28-49 | one more line is one more step on the state the earlier lines left |
| Compute.TwoLines | index.js:28-49 | the fold over two lines, step by step |
| Compute.ThreeLines | index.js:28-49 | the fold over three lines, step by step |
| Compute.BothEmitted | index.js:28-51 | two lines that both succeed give their two entries in order, and `_totalPrice` is the accumulator the second one left |
| Compute.MiddleDropped | index.js:28-51 | of three lines whose middle one throws, the other two entries remain in order, and `_totalPrice` is the accumulator the third one left |
| Compute.FailingLineIsSkipped | index.js:46-48 | a line that throws adds nothing to `results` and leaves the accumulator as its predecessors left it |
| Compute.PassThroughKeepsAccumulator | index.js:36-39 | with no `computeValue` anywhere and a `beforeSave` that leaves the accumulator as it is, the accumulator never moves and every emitted `value` is the starting accumulator |
| Compute.TotalWithoutExpressions | index.js:26-39 | under the same conditions `_totalPrice` and every emitted `value` equal the seed |
| TestScenarios.HTStep | tests/index.test.js:70-75 | the offer's `HT` line emits the whole line with the offer price as both figures, and moves the accumulator to it |
| TestScenarios.MarginStep | tests/index.test.js:16-21 | the offer's `margin` line, which reads the missing `offer.margin`, is dropped |
| TestScenarios.NewHTStep | tests/index.test.js:76-85 | the `newht` line emits the whole line with the accumulator it received as both figures |
| TestScenarios.MarginLineDropped | tests/index.test.js:69-87 | for any offer price and any context with a falsy `value`, the result is exactly the whole `HT` and `newht` lines, each with the price as both figures, and `_totalPrice` is the price |
| TestScenarios.QuoteHTStep | tests/index.test.js:171-176 | seeded with 120, the quote's `HT` line emits `value` 120 and `displayValue` `null` |
| TestScenarios.QuoteMarginStep | tests/index.test.js:177-184 | from 120, the quote's `margin` line emits `displayValue` 18 (15% of the previous accumulator) and `value` 138 |
| TestScenarios.QuoteMarginSeesPreviousValue | tests/index.test.js:170-184 | `compute` over `HT` and `margin` with `value: 120` in the context gives the entries (`null`, 120) and (18, 138), with total 138 |
| Displays.RenderScope | index.js:71 | the render view is the context with every entry kept and `line` bound to the line |
| Displays.Title | index.js:77 | with a `displayTemplate` the title is the template rendered with the line's view, without one it is `''`; only a rendered template can throw |
| Displays.DisplayLine | index.js:73-78 | a line is pushed if and only if it is visible and its title rendered; the entry is the line plus `displayTitle`, which is `''` without a template |
| Displays.Displayed | index.js:64-84 | the results are never more than the lines |
| Displays.ComputeDisplays | index.js:63-85 | the `forEach` loop returns exactly the fold `Displayed` |
| Displays.VisibleLines | index.js:74 | the reference filter keeps only lines with a truthy `visible` |
| Displays.DisplayedAppend | index.js:66-82 | each line is handled on its own: the result for a concatenation is the concatenation of the results |
| Displays.DisplayedAreVisibleLines | index.js:66-82 | the result is an order-preserving subsequence of the lines, each entry the line plus `displayTitle`, and every entry is visible |
| Displays.EveryVisibleLineShown | index.js:66-82 | when no visible line fails to render, the result has exactly the visible lines in order, each with its rendered title |
| Displays.OfferDisplay | tests/index.test.js:89-111 | of the offer's computed lines only the visible `newht` is kept, titled `HT` |
| Js.InOrderSubsequenceLength | index.js:41-45 | a sanity check on the subsequence predicate that `ComputedIsSubsequence` and `DisplayedAreVisibleLines` use: a subsequence is never longer than its source |
| OptionsPrice.Add | index.js:172-174 | an included option, or one with a falsy `price` or `selected`, leaves the accumulator as it is; any other adds `selected * price` |
| OptionsPrice.Reduce | index.js:171-175 | the `reduce` adds the reference contribution of every option to its starting accumulator |
| OptionsPrice.GetOptionsPrice | index.js:171-175 | the options price is the reference sum of contributions, and 0 for no options |
| OptionsPrice.SumAppend | index.js:171-175 | the reference sum is additive over concatenation |
| OptionsPrice.OptionsPriceAppend | index.js:171-175 | the options price of a concatenation is the sum of the two prices |
| OptionsPrice.SingleOption | index.js:172-174 | no options cost 0; one option costs `selected * price`, or 0 when it is included or has a falsy `price` or `selected` |
| OptionsPrice.SkippedOptionsAddNothing | index.js:172 | inserting a skipped option anywhere leaves the price unchanged |
| OptionsPrice.OptionsPriceNonNegative | index.js:171-175 | with no negative prices or quantities the price is never negative |
| OptionsPrice.SumNonNegative | index.js:171-175 | the reference sum of non-negative contributions is non-negative |
| OptionsPrice.TestedPrices | tests/getOptionsPrice.test.js:18-41 | the package's six cases: 0, 1, 0, 1, 2 and 10 |

## Left out

- `getConfigTag` and `getAllConfigTags` (index.js:113-161): asynchronous endpoint lookups through an injected fetcher. This is I/O, not computation.
- The internals of mathjs `math.eval` and mustache `render`: they are parameters returning a value or `Thrown`. The test scenarios fix them to small evaluators that know only the expressions those tests use.
- Scope writes done by mathjs itself (an assignment expression inside `computeValue` adding keys to `ctx`): the evaluator returns a value and cannot change the context.
- Aliasing of `line`: `ctx.line` is the very line object in the source; here it is a copy, so a change made to it through the scope is not modelled.
- `correct` and the `toFixed(5)` hook of the tests (index.js:178): numbers are exact reals with no NaN, no infinities and no rounding. `beforeSave` is an arbitrary parameter, and the scenarios use the identity.
- `console.warn` in both `catch` blocks: logging only.
- Property order of the spread copies: objects are maps, which have no key order.
- `_totalPrice` as a property on the results array: it is the `totalPrice` field of `Compute.PricedLines`.
- Lines that are not objects, and a `lines` that is not an array: the model takes a sequence of objects, so none of these cases is modelled. In the source:
  - a `null` or `undefined` line throws at the destructuring outside the `try` (index.js:29-32, 67-70);
  - a number or boolean line goes through and contributes no fields to its entry;
  - a string line contributes its characters as the fields `"0"`, `"1"`, …;
  - a string `lines` is walked character by character by `compute`'s `for…of` (index.js:28), but makes `computeDisplays` throw, because a string has no `forEach` (index.js:66);
  - a `Set` is walked by both functions, since it is iterable and has its own `forEach`.
- The defaults of the options object: `context` and `beforeSave` are always passed explicitly.
- OptionsPrice.PriceOption: a missing `price` or `selected` is written as 0, which is just as falsy. `included` is a boolean rather than any truthy value. The `Number()` coercion of a string `selected` and the multiplication of a string `price` are not modelled.
- OptionsPrice.GetOptionsPrice: its error paths are not modelled. A `null` or `undefined` option makes the reducer's destructuring throw (index.js:171), and an `options` that is not an array throws at `.reduce`. The model takes a sequence of well-formed options, so `getOptionsPrice` never throws in it.
- The key-indexed variant expected by the root `index.test.js` (results keyed by `key`, a `hidden` flag, a `contexts` option, a mirrored `displayValue`) is not implemented by `index.js`, and it is not modelled.
