// `compute`: a strict left fold over the price lines. One mutable evaluation
// context is walked forward; its `value` entry is the running accumulator, and
// `line` and `result` are overwritten for every line. A line whose evaluation
// throws is dropped and leaves the accumulator alone.

module Compute {
  import opened Js

  /** `math.eval(expression, scope)`; `Thrown` is an exception from the engine. */
  type Evaluator = (Value, Object) -> Outcome<Value>

  /** The `beforeSave` normalisation hook (identity by default); it may throw too. */
  type Hook = Value -> Outcome<Value>

  /** The running accumulator: `ctx.value`. */
  function Accumulator(ctx: Object): Value {
    Get(ctx, "value")
  }

  /** The accumulator the fold starts from: the context's own `value` when
      it is truthy, otherwise the number 0. */
  function Seed(context: Object): (v: Value)
    ensures v == Get(context, "value") || v == Num(0.0)
    ensures Truthy(v) <==> Truthy(Get(context, "value"))
    ensures !Truthy(v) ==> v == Num(0.0)
  {
    if Truthy(Get(context, "value")) then Get(context, "value") else Num(0.0)
  }

  /** The starting context: a copy of the caller's context whose `value` is
      the seed. */
  function InitialContext(context: Object): (ctx: Object)
    ensures Extends(ctx, context, {"value"})
    ensures Truthy(Get(context, "value")) ==> Accumulator(ctx) == context["value"]
    ensures !Truthy(Get(context, "value")) ==> Accumulator(ctx) == Num(0.0)
  {
    context["value" := Seed(context)]
  }

  /** The scope `computeValue` is evaluated in: the running context with
      `line` bound to the current line. */
  function LineScope(ctx: Object, line: Object): (scope: Object)
    ensures Extends(scope, ctx, {"line"})
    ensures Get(scope, "line") == Obj(line)
    ensures Accumulator(scope) == Accumulator(ctx)
  {
    ctx["line" := Obj(line)]
  }

  /** The line's new figure before `beforeSave`: its `computeValue`
      expression evaluated in the scope, or the running accumulator when the
      line has no expression. */
  function RawResult(scope: Object, line: Object, eval: Evaluator): (r: Outcome<Value>)
    // only an evaluated expression can throw
    ensures r.Thrown? ==> Truthy(Get(line, "computeValue"))
    ensures Truthy(Get(line, "computeValue")) ==> r == eval(Get(line, "computeValue"), scope)
    ensures !Truthy(Get(line, "computeValue")) ==> r == Ok(Accumulator(scope))
  {
    if Truthy(Get(line, "computeValue")) then eval(Get(line, "computeValue"), scope)
    else Ok(Accumulator(scope))
  }

  /** The line's side figure: its `computeDisplay` expression evaluated in
      the scope and passed through `beforeSave`, or `null` when the line has
      no such expression. */
  function DisplayResult(scope: Object, line: Object, eval: Evaluator, beforeSave: Hook): (r: Outcome<Value>)
    // without an expression nothing is evaluated and nothing can throw
    ensures !Truthy(Get(line, "computeDisplay")) ==> r == Ok(Null)
    // with one, the figure is the hook applied to a successful evaluation
    ensures Truthy(Get(line, "computeDisplay")) && r.Ok? ==>
      eval(Get(line, "computeDisplay"), scope).Ok? &&
      beforeSave(eval(Get(line, "computeDisplay"), scope).value) == r
    ensures Truthy(Get(line, "computeDisplay")) && eval(Get(line, "computeDisplay"), scope).Thrown? ==> r.Thrown?
    ensures Truthy(Get(line, "computeDisplay")) && eval(Get(line, "computeDisplay"), scope).Ok? ==>
      r == beforeSave(eval(Get(line, "computeDisplay"), scope).value)
  {
    if Truthy(Get(line, "computeDisplay")) then
      match eval(Get(line, "computeDisplay"), scope)
      case Thrown => Thrown
      case Ok(d) => beforeSave(d)
    else Ok(Null)
  }

  /** The context after one line, and the entry it pushed, if any. */
  datatype Step = Step(ctx: Object, emitted: Option<Object>)

  /** One iteration of the `for` loop body, inside its `try`. */
  function StepLine(ctx: Object, line: Object, eval: Evaluator, beforeSave: Hook): (st: Step)
    // a dropped line leaves the accumulator alone
    ensures st.emitted.None? ==> Accumulator(st.ctx) == Accumulator(ctx)
    // an emitted entry is the line plus `displayValue` and `value`, and its
    // `value` is the new accumulator
    ensures st.emitted.Some? ==>
      Extends(st.emitted.value, line, {"displayValue", "value"}) &&
      Accumulator(st.ctx) == Get(st.emitted.value, "value")
  {
    var scope := LineScope(ctx, line);
    match RawResult(scope, line, eval)
    case Thrown => Step(scope, None)
    case Ok(raw) =>
      match beforeSave(raw)
      case Thrown => Step(scope["result" := raw], None)
      case Ok(saved) =>
        // `ctx.result` is written twice; only the saved figure remains
        var withSaved := scope["result" := saved];
        match DisplayResult(withSaved, line, eval, beforeSave)
        case Thrown => Step(withSaved, None)
        case Ok(displayValue) =>
          Step(withSaved["value" := saved], Some(line["displayValue" := displayValue]["value" := saved]))
  }

  /** Of the shared context only `line`, `result` and `value` are ever
      written: every ambient entry survives each line, failed or not. */
  lemma StepKeepsAmbientEntries(ctx: Object, line: Object, eval: Evaluator, beforeSave: Hook)
    ensures var next := StepLine(ctx, line, eval, beforeSave).ctx;
      Overwrites(next, ctx, {"line", "result", "value"}) && Get(next, "line") == Obj(line)
  {
  }

  /** Error containment: a line is emitted exactly when neither
      `computeValue`, nor `beforeSave`, nor `computeDisplay` threw. */
  lemma EmittedUnlessThrown(ctx: Object, line: Object, eval: Evaluator, beforeSave: Hook)
    ensures StepLine(ctx, line, eval, beforeSave).emitted.Some? <==>
      var raw := RawResult(LineScope(ctx, line), line, eval);
      raw.Ok? && beforeSave(raw.value).Ok? &&
      DisplayResult(LineScope(ctx, line)["result" := beforeSave(raw.value).value], line, eval, beforeSave).Ok?
  {
  }

  /** The `value` of an emitted line is `beforeSave` of `computeValue`
      evaluated with the previous accumulator and the line in scope; without
      `computeValue`, of the previous accumulator itself. */
  lemma ValueIsSavedResult(ctx: Object, line: Object, eval: Evaluator, beforeSave: Hook)
    requires StepLine(ctx, line, eval, beforeSave).emitted.Some?
    ensures var out := StepLine(ctx, line, eval, beforeSave).emitted.value;
      var scope := LineScope(ctx, line);
      Accumulator(scope) == Accumulator(ctx) && Get(scope, "line") == Obj(line) &&
      (Truthy(Get(line, "computeValue")) ==>
        eval(Get(line, "computeValue"), scope).Ok? &&
        beforeSave(eval(Get(line, "computeValue"), scope).value) == Ok(Get(out, "value"))) &&
      (!Truthy(Get(line, "computeValue")) ==> beforeSave(Accumulator(ctx)) == Ok(Get(out, "value")))
  {
  }

  /** `computeDisplay` is evaluated while `value` still holds the previous
      accumulator (with `line` and the new `result` bound); the emitted
      `displayValue` is `beforeSave` of it, and `null` without `computeDisplay`. */
  lemma DisplaySeesPreviousAccumulator(ctx: Object, line: Object, eval: Evaluator, beforeSave: Hook)
    requires StepLine(ctx, line, eval, beforeSave).emitted.Some?
    ensures var out := StepLine(ctx, line, eval, beforeSave).emitted.value;
      var scope := LineScope(ctx, line)["result" := Get(out, "value")];
      Accumulator(scope) == Accumulator(ctx) && Get(scope, "line") == Obj(line) &&
      (Truthy(Get(line, "computeDisplay")) ==>
        eval(Get(line, "computeDisplay"), scope).Ok? &&
        beforeSave(eval(Get(line, "computeDisplay"), scope).value) == Ok(Get(out, "displayValue"))) &&
      (!Truthy(Get(line, "computeDisplay")) ==> Get(out, "displayValue") == Null)
  {
  }

  /** The entries a step pushed onto `results`. */
  function Pushed(st: Step): seq<Object> {
    match st.emitted
    case None => []
    case Some(out) => [out]
  }

  /** The running context and the `results` array built so far. */
  datatype State = State(ctx: Object, results: seq<Object>)

  /** The fold over `lines` from `start`, one `StepLine` per line, in list order. */
  function Run(lines: seq<Object>, start: State, eval: Evaluator, beforeSave: Hook): (st: State)
    ensures start.results <= st.results
    ensures |st.results| <= |start.results| + |lines|
    decreases |lines|
  {
    if lines == [] then start
    else
      var before := Run(lines[..|lines| - 1], start, eval, beforeSave);
      var step := StepLine(before.ctx, lines[|lines| - 1], eval, beforeSave);
      State(step.ctx, before.results + Pushed(step))
  }

  /** The array `compute` returns, with its `_totalPrice` property. */
  datatype PricedLines = PricedLines(lines: seq<Object>, totalPrice: Value)

  /** What `compute` returns for these lines, context and `beforeSave`: at
      most one entry per line, and `_totalPrice` the `value` of the last
      entry, or the seed when no line succeeded. */
  function Computed(lines: seq<Object>, context: Object, eval: Evaluator, beforeSave: Hook): (r: PricedLines)
    ensures |r.lines| <= |lines|
    ensures r.totalPrice == if r.lines == [] then Seed(context) else Get(r.lines[|r.lines| - 1], "value")
  {
    TotalIsLastValue(lines, State(InitialContext(context), []), eval, beforeSave);
    var st := Run(lines, State(InitialContext(context), []), eval, beforeSave);
    PricedLines(st.results, Accumulator(st.ctx))
  }

  /** The body of the `try` block for one line: writes `line`, `result` and
      `value` of the running context in the source's order and returns the
      entry to push, if nothing threw. */
  method ComputeLine(ctx: Object, line: Object, eval: Evaluator, beforeSave: Hook)
    returns (next: Object, pushed: Option<Object>)
    ensures Step(next, pushed) == StepLine(ctx, line, eval, beforeSave)
  {
    next := ctx["line" := Obj(line)];
    var result := RawResult(next, line, eval);
    pushed := None;
    if result.Ok? {
      next := next["result" := result.value];
      var saved := beforeSave(result.value);
      if saved.Ok? {
        next := next["result" := saved.value];
        assert next == LineScope(ctx, line)["result" := saved.value];
        var displayValue := DisplayResult(next, line, eval, beforeSave);
        if displayValue.Ok? {
          next := next["value" := next["result"]];
          pushed := Some(line["displayValue" := displayValue.value]["value" := next["value"]]);
        }
      }
    }
  }

  /** `compute`: the `for` loop over the lines, then `_totalPrice`. */
  method Compute(lines: seq<Object>, context: Object, eval: Evaluator, beforeSave: Hook) returns (r: PricedLines)
    ensures r == Computed(lines, context, eval, beforeSave)
  {
    var ctx := InitialContext(context);
    var results: seq<Object> := [];
    ghost var start := State(ctx, results);
    var i := 0;
    while i < |lines|
      invariant i <= |lines|
      invariant Run(lines[..i], start, eval, beforeSave) == State(ctx, results)
    {
      var pushed;
      ghost var before := ctx;
      ctx, pushed := ComputeLine(ctx, lines[i], eval, beforeSave);
      ghost var pre := results;
      if pushed.Some? {
        results := results + [pushed.value];
      }
      LoopStep(lines, i, start, before, pre, ctx, pushed, eval, beforeSave);
      i := i + 1;
    }
    assert lines[..i] == lines;
    r := PricedLines(results, Get(ctx, "value"));
  }

  /** One turn of `compute`'s loop keeps the fold's state in step with the
      running context and `results`. */
  lemma LoopStep(lines: seq<Object>, i: nat, start: State, ctx: Object, results: seq<Object>,
                 next: Object, pushed: Option<Object>, eval: Evaluator, beforeSave: Hook)
    requires i < |lines|
    requires Run(lines[..i], start, eval, beforeSave) == State(ctx, results)
    requires Step(next, pushed) == StepLine(ctx, lines[i], eval, beforeSave)
    ensures Run(lines[..i + 1], start, eval, beforeSave) ==
            State(next, if pushed.Some? then results + [pushed.value] else results)
  {
    assert lines[..i + 1][..i] == lines[..i];
  }

  /** What `compute` returns is an order-preserving subsequence of the
      lines, each entry the input line plus `displayValue` and `value`. */
  lemma ComputedIsSubsequence(lines: seq<Object>, context: Object, eval: Evaluator, beforeSave: Hook)
    ensures InOrderSubsequence(Computed(lines, context, eval, beforeSave).lines, lines, {"displayValue", "value"})
  {
    OutputIsSubsequence(lines, State(InitialContext(context), []), eval, beforeSave);
  }

  /** The output of the fold is an order-preserving subsequence of its input,
      each entry being the input line plus `displayValue` and `value`. */
  lemma {:induction false} OutputIsSubsequence(lines: seq<Object>, start: State, eval: Evaluator, beforeSave: Hook)
    requires start.results == []
    ensures InOrderSubsequence(Run(lines, start, eval, beforeSave).results, lines, {"displayValue", "value"})
    decreases |lines|
  {
    if lines != [] {
      var prefix := lines[..|lines| - 1];
      OutputIsSubsequence(prefix, start, eval, beforeSave);
      var before := Run(prefix, start, eval, beforeSave);
      var step := StepLine(before.ctx, lines[|lines| - 1], eval, beforeSave);
      var out := before.results + Pushed(step);
      if step.emitted.Some? {
        assert out[..|out| - 1] == before.results;
      } else if out != [] {
        assert out == before.results;
      }
    }
  }

  /** The accumulator after the fold is the `value` of the last emitted entry,
      or the starting accumulator when no line succeeded. */
  lemma {:induction false} TotalIsLastValue(lines: seq<Object>, start: State, eval: Evaluator, beforeSave: Hook)
    requires start.results == []
    ensures var st := Run(lines, start, eval, beforeSave);
      Accumulator(st.ctx) ==
        if st.results == [] then Accumulator(start.ctx) else Get(st.results[|st.results| - 1], "value")
    decreases |lines|
  {
    if lines != [] {
      TotalIsLastValue(lines[..|lines| - 1], start, eval, beforeSave);
    }
  }

  /** Folding a concatenation is folding the second part from the state the
      first part left: each line sees exactly what its predecessors left. */
  lemma {:induction false} RunAppend(a: seq<Object>, b: seq<Object>, start: State, eval: Evaluator, beforeSave: Hook)
    ensures Run(a + b, start, eval, beforeSave) == Run(b, Run(a, start, eval, beforeSave), eval, beforeSave)
    decreases |b|
  {
    if b == [] {
      assert a + b == a;
    } else {
      var b' := b[..|b| - 1];
      assert (a + b)[..|a + b| - 1] == a + b';
      RunAppend(a, b', start, eval, beforeSave);
    }
  }

  /** One more line: the fold over `prefix + [line]` is one `StepLine` on
      the state the fold over `prefix` left. */
  lemma RunSnoc(prefix: seq<Object>, line: Object, start: State, eval: Evaluator, beforeSave: Hook)
    ensures var before := Run(prefix, start, eval, beforeSave);
      var step := StepLine(before.ctx, line, eval, beforeSave);
      Run(prefix + [line], start, eval, beforeSave) == State(step.ctx, before.results + Pushed(step))
  {
  }

  /** The fold over two lines, step by step. */
  lemma TwoLines(a: Object, b: Object, start: State, eval: Evaluator, beforeSave: Hook)
    ensures var s1 := StepLine(start.ctx, a, eval, beforeSave);
      var s2 := StepLine(s1.ctx, b, eval, beforeSave);
      Run([a, b], start, eval, beforeSave) == State(s2.ctx, start.results + Pushed(s1) + Pushed(s2))
  {
    assert [] + [a] == [a] && [a] + [b] == [a, b];
    RunSnoc([], a, start, eval, beforeSave);
    RunSnoc([a], b, start, eval, beforeSave);
  }

  /** The fold over three lines, step by step. */
  lemma ThreeLines(a: Object, b: Object, c: Object, start: State, eval: Evaluator, beforeSave: Hook)
    ensures var s1 := StepLine(start.ctx, a, eval, beforeSave);
      var s2 := StepLine(s1.ctx, b, eval, beforeSave);
      var s3 := StepLine(s2.ctx, c, eval, beforeSave);
      Run([a, b, c], start, eval, beforeSave) ==
        State(s3.ctx, start.results + Pushed(s1) + Pushed(s2) + Pushed(s3))
  {
    assert [] + [a] == [a] && [a] + [b] == [a, b] && [a, b] + [c] == [a, b, c];
    RunSnoc([], a, start, eval, beforeSave);
    RunSnoc([a], b, start, eval, beforeSave);
    RunSnoc([a, b], c, start, eval, beforeSave);
  }

  /** The entries two emitting steps push, in order. */
  lemma PushedBoth(s1: Step, s2: Step)
    requires s1.emitted.Some? && s2.emitted.Some?
    ensures [] + Pushed(s1) + Pushed(s2) == [s1.emitted.value, s2.emitted.value]
  {
  }

  /** The entries pushed by three steps of which the middle one emits nothing. */
  lemma PushedOuter(s1: Step, s2: Step, s3: Step)
    requires s1.emitted.Some? && s2.emitted.None? && s3.emitted.Some?
    ensures [] + Pushed(s1) + Pushed(s2) + Pushed(s3) == [s1.emitted.value, s3.emitted.value]
  {
  }

  /** Two lines that both emit: the results are their two entries, in order,
      and the accumulator is the one the second left. */
  lemma BothEmitted(a: Object, b: Object, context: Object, eval: Evaluator, beforeSave: Hook)
    requires var s1 := StepLine(InitialContext(context), a, eval, beforeSave);
      s1.emitted.Some? && StepLine(s1.ctx, b, eval, beforeSave).emitted.Some?
    ensures var s1 := StepLine(InitialContext(context), a, eval, beforeSave);
      var s2 := StepLine(s1.ctx, b, eval, beforeSave);
      Computed([a, b], context, eval, beforeSave) ==
        PricedLines([s1.emitted.value, s2.emitted.value], Accumulator(s2.ctx))
  {
    var start := State(InitialContext(context), []);
    TwoLines(a, b, start, eval, beforeSave);
    var s1 := StepLine(start.ctx, a, eval, beforeSave);
    PushedBoth(s1, StepLine(s1.ctx, b, eval, beforeSave));
  }

  /** Three lines of which the middle one throws: the results are the other
      two entries, in order, and the accumulator is the one the third left. */
  lemma MiddleDropped(a: Object, b: Object, c: Object, context: Object, eval: Evaluator, beforeSave: Hook)
    requires var s1 := StepLine(InitialContext(context), a, eval, beforeSave);
      var s2 := StepLine(s1.ctx, b, eval, beforeSave);
      s1.emitted.Some? && s2.emitted.None? && StepLine(s2.ctx, c, eval, beforeSave).emitted.Some?
    ensures var s1 := StepLine(InitialContext(context), a, eval, beforeSave);
      var s2 := StepLine(s1.ctx, b, eval, beforeSave);
      var s3 := StepLine(s2.ctx, c, eval, beforeSave);
      Computed([a, b, c], context, eval, beforeSave) ==
        PricedLines([s1.emitted.value, s3.emitted.value], Accumulator(s3.ctx))
  {
    var start := State(InitialContext(context), []);
    ThreeLines(a, b, c, start, eval, beforeSave);
    var s1 := StepLine(start.ctx, a, eval, beforeSave);
    var s2 := StepLine(s1.ctx, b, eval, beforeSave);
    PushedOuter(s1, s2, StepLine(s2.ctx, c, eval, beforeSave));
  }

  /** A line that throws in the context its predecessors left is skipped:
      the results and the accumulator are those before it. */
  lemma FailingLineIsSkipped(prefix: seq<Object>, line: Object, start: State, eval: Evaluator, beforeSave: Hook)
    requires StepLine(Run(prefix, start, eval, beforeSave).ctx, line, eval, beforeSave).emitted.None?
    ensures Run(prefix + [line], start, eval, beforeSave).results == Run(prefix, start, eval, beforeSave).results
    ensures Accumulator(Run(prefix + [line], start, eval, beforeSave).ctx) ==
            Accumulator(Run(prefix, start, eval, beforeSave).ctx)
  {
  }

  /** With no `computeValue` anywhere and a `beforeSave` that leaves the
      starting accumulator as it is (the default identity does), the
      accumulator never moves: every emitted `value` and the total are the
      starting accumulator. */
  lemma {:induction false} PassThroughKeepsAccumulator(lines: seq<Object>, start: State, eval: Evaluator, beforeSave: Hook)
    requires forall k :: 0 <= k < |lines| ==> !Truthy(Get(lines[k], "computeValue"))
    requires beforeSave(Accumulator(start.ctx)) == Ok(Accumulator(start.ctx))
    ensures var st := Run(lines, start, eval, beforeSave);
      Accumulator(st.ctx) == Accumulator(start.ctx) &&
      forall k :: |start.results| <= k < |st.results| ==> Get(st.results[k], "value") == Accumulator(start.ctx)
    decreases |lines|
  {
    if lines != [] {
      var prefix := lines[..|lines| - 1];
      PassThroughKeepsAccumulator(prefix, start, eval, beforeSave);
      var before := Run(prefix, start, eval, beforeSave);
      var step := StepLine(before.ctx, lines[|lines| - 1], eval, beforeSave);
      assert !Truthy(Get(lines[|lines| - 1], "computeValue"));
    }
  }

  /** `compute` with identity-like `beforeSave` over lines without
      `computeValue` returns `_totalPrice` equal to the seed. */
  lemma TotalWithoutExpressions(lines: seq<Object>, context: Object, eval: Evaluator, beforeSave: Hook)
    requires forall k :: 0 <= k < |lines| ==> !Truthy(Get(lines[k], "computeValue"))
    requires beforeSave(Seed(context)) == Ok(Seed(context))
    ensures Computed(lines, context, eval, beforeSave).totalPrice == Seed(context)
    ensures forall e :: e in Computed(lines, context, eval, beforeSave).lines ==> Get(e, "value") == Seed(context)
  {
    PassThroughKeepsAccumulator(lines, State(InitialContext(context), []), eval, beforeSave);
  }
}

module TestScenarios {
  import opened Js
  import opened Compute

  /** The default `beforeSave`, `value => value`. */
  function Identity(v: Value): Outcome<Value> {
    Ok(v)
  }

  /** An emitted entry with these two figures. */
  predicate Figures(entry: Object, displayValue: Value, value: Value) {
    Get(entry, "displayValue") == displayValue && Get(entry, "value") == value
  }

  /** An evaluator that knows the offer's price and no margin: it reads
      `offer.price` and `value`, and throws on anything else (as mathjs does
      on `offer.margin` when the offer has no margin). */
  function OfferEval(price: real): Evaluator {
    (e: Value, scope: Object) =>
      if e == Str("offer.price") then Ok(Num(price))
      else if e == Str("value") then Ok(Get(scope, "value"))
      else Thrown
  }

  /** The `HT` line of the offer test: value and display are the offer price. */
  predicate IsHT(line: Object) {
    Get(line, "computeValue") == Str("offer.price") && Get(line, "computeDisplay") == Str("offer.price")
  }

  /** The `margin` line of the offer test: its value reads `offer.margin`. */
  predicate IsMargin(line: Object) {
    Get(line, "computeValue") == Str("(offer.margin / 100 + 1) * value")
  }

  /** The `newht` line of the offer test: value and display are `value`. */
  predicate IsNewHT(line: Object) {
    Get(line, "computeValue") == Str("value") && Get(line, "computeDisplay") == Str("value")
  }

  lemma HTStep(ctx: Object, line: Object, price: real)
    requires IsHT(line)
    ensures var st := StepLine(ctx, line, OfferEval(price), Identity);
      st.emitted == Some(line["displayValue" := Num(price)]["value" := Num(price)]) &&
      Accumulator(st.ctx) == Num(price)
  {
  }

  lemma MarginStep(ctx: Object, line: Object, price: real)
    requires IsMargin(line)
    ensures StepLine(ctx, line, OfferEval(price), Identity).emitted == None
  {
  }

  lemma NewHTStep(ctx: Object, line: Object, price: real)
    requires IsNewHT(line)
    ensures var st := StepLine(ctx, line, OfferEval(price), Identity);
      st.emitted == Some(line["displayValue" := Accumulator(ctx)]["value" := Accumulator(ctx)]) &&
      Accumulator(st.ctx) == Accumulator(ctx)
  {
    var scope := LineScope(ctx, line);
    assert Accumulator(scope["result" := Accumulator(ctx)]) == Accumulator(ctx);
  }

  /** Whatever the offer's price, and whatever the context holds besides a
      falsy `value`, the failing `margin` line is dropped, `newht` continues
      from the accumulator `HT` left, and the total is the price (10600 in
      the test). The two entries are the whole `HT` and `newht` lines with
      the price as both figures. */
  lemma MarginLineDropped(ht: Object, margin: Object, newht: Object, context: Object, price: real)
    requires IsHT(ht) && IsMargin(margin) && IsNewHT(newht)
    requires !Truthy(Get(context, "value"))
    ensures var r := Computed([ht, margin, newht], context, OfferEval(price), Identity);
      r.lines == [ht["displayValue" := Num(price)]["value" := Num(price)],
                  newht["displayValue" := Num(price)]["value" := Num(price)]] &&
      r.totalPrice == Num(price)
  {
    var ctx := InitialContext(context);
    HTStep(ctx, ht, price);
    var s1 := StepLine(ctx, ht, OfferEval(price), Identity);
    MarginStep(s1.ctx, margin, price);
    var s2 := StepLine(s1.ctx, margin, OfferEval(price), Identity);
    NewHTStep(s2.ctx, newht, price);
    MiddleDropped(ht, margin, newht, context, OfferEval(price), Identity);
  }

  /** An evaluator for the quote of the test (margin 15): it knows `value`
      and the two margin expressions, and throws on anything else. */
  function QuoteEval(e: Value, scope: Object): Outcome<Value> {
    match Get(scope, "value")
    case Num(v) =>
      if e == Str("value") then Ok(Num(v))
      else if e == Str("(quote.margin / 100 + 1) * value") then Ok(Num((15.0 / 100.0 + 1.0) * v))
      else if e == Str("(quote.margin / 100) * value") then Ok(Num(15.0 / 100.0 * v))
      else Thrown
    case _ => Thrown
  }

  /** The `HT` line of the quote test: `value` and no `computeDisplay`. */
  predicate IsQuoteHT(line: Object) {
    Get(line, "computeValue") == Str("value") && !Truthy(Get(line, "computeDisplay"))
  }

  /** The `margin` line of the quote test. */
  predicate IsQuoteMargin(line: Object) {
    Get(line, "computeValue") == Str("(quote.margin / 100 + 1) * value") &&
    Get(line, "computeDisplay") == Str("(quote.margin / 100) * value")
  }

  lemma QuoteHTStep(ctx: Object, line: Object)
    requires IsQuoteHT(line) && Accumulator(ctx) == Num(120.0)
    ensures var st := StepLine(ctx, line, QuoteEval, Identity);
      st.emitted.Some? && Figures(st.emitted.value, Null, Num(120.0)) && Accumulator(st.ctx) == Num(120.0)
  {
  }

  lemma QuoteMarginStep(ctx: Object, line: Object)
    requires IsQuoteMargin(line) && Accumulator(ctx) == Num(120.0)
    ensures var st := StepLine(ctx, line, QuoteEval, Identity);
      st.emitted.Some? && Figures(st.emitted.value, Num(18.0), Num(138.0)) && Accumulator(st.ctx) == Num(138.0)
  {
  }

  /** Seeded with `value: 120`, `HT` keeps 120 with a `null` display figure,
      and `margin` shows 18 (15% of the previous accumulator 120, not of the
      new one) and moves the accumulator to 138. */
  lemma QuoteMarginSeesPreviousValue(ht: Object, margin: Object, context: Object)
    requires IsQuoteHT(ht) && IsQuoteMargin(margin) && Get(context, "value") == Num(120.0)
    ensures var r := Computed([ht, margin], context, QuoteEval, Identity);
      |r.lines| == 2 &&
      Figures(r.lines[0], Null, Num(120.0)) && Figures(r.lines[1], Num(18.0), Num(138.0)) &&
      r.totalPrice == Num(138.0)
  {
    var ctx := InitialContext(context);
    assert Accumulator(ctx) == Num(120.0);
    QuoteHTStep(ctx, ht);
    var s1 := StepLine(ctx, ht, QuoteEval, Identity);
    QuoteMarginStep(s1.ctx, margin);
    BothEmitted(ht, margin, context, QuoteEval, Identity);
  }
}
