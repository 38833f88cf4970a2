// `computeDisplays`: keeps the visible lines, in input order, and adds to each
// a `displayTitle` rendered from its `displayTemplate` with the mustache
// engine. A render failure drops only that line.

module Displays {
  import opened Js

  /** `mustache.render(template, view)`; `Thrown` is an exception from the engine. */
  type Renderer = (Value, Object) -> Outcome<string>

  /** The view a line's template is rendered with: a copy of the context
      with `line` bound to the line. */
  function RenderScope(context: Object, line: Object): (scope: Object)
    ensures Extends(scope, context, {"line"})
    ensures Get(scope, "line") == Obj(line)
  {
    context["line" := Obj(line)]
  }

  /** The line's title: its `displayTemplate` rendered with the line's view,
      or the empty string when the line has no template. */
  function Title(line: Object, context: Object, render: Renderer): (r: Outcome<string>)
    // only a rendered template can throw
    ensures r.Thrown? ==> Truthy(Get(line, "displayTemplate"))
    ensures Truthy(Get(line, "displayTemplate")) ==>
      r == render(Get(line, "displayTemplate"), RenderScope(context, line))
    ensures !Truthy(Get(line, "displayTemplate")) ==> r == Ok("")
  {
    if Truthy(Get(line, "displayTemplate")) then render(Get(line, "displayTemplate"), RenderScope(context, line))
    else Ok("")
  }

  /** One `forEach` callback: the entry it pushes, if any. */
  function DisplayLine(line: Object, context: Object, render: Renderer): (r: Option<Object>)
    // pushed exactly when the line is visible and its title rendered
    ensures r.Some? <==> Truthy(Get(line, "visible")) && Title(line, context, render).Ok?
    // the entry is the line plus `displayTitle`, nothing else
    ensures r.Some? ==>
      Extends(r.value, line, {"displayTitle"}) &&
      Get(r.value, "displayTitle") == Str(Title(line, context, render).value)
    ensures r.Some? && !Truthy(Get(line, "displayTemplate")) ==> Get(r.value, "displayTitle") == Str("")
  {
    if !Truthy(Get(line, "visible")) then None
    else
      match Title(line, context, render)
      case Thrown => None
      case Ok(title) => Some(line["displayTitle" := Str(title)])
  }

  /** The `results` array after the callback ran on every line, in order. */
  function Displayed(lines: seq<Object>, context: Object, render: Renderer): (results: seq<Object>)
    ensures |results| <= |lines|
    decreases |lines|
  {
    if lines == [] then []
    else
      Displayed(lines[..|lines| - 1], context, render) +
      match DisplayLine(lines[|lines| - 1], context, render)
      case None => []
      case Some(entry) => [entry]
  }

  /** `computeDisplays`, with the `forEach` as a loop. */
  method ComputeDisplays(lines: seq<Object>, context: Object, render: Renderer) returns (results: seq<Object>)
    ensures results == Displayed(lines, context, render)
  {
    results := [];
    var i := 0;
    while i < |lines|
      invariant i <= |lines|
      invariant results == Displayed(lines[..i], context, render)
    {
      assert lines[..i + 1][..i] == lines[..i];
      var line := lines[i];
      var ctx := RenderScope(context, line);
      if Truthy(Get(line, "visible")) {
        var title := if Truthy(Get(line, "displayTemplate")) then render(Get(line, "displayTemplate"), ctx)
                     else Ok("");
        if title.Ok? {
          results := results + [line["displayTitle" := Str(title.value)]];
        }
      }
      i := i + 1;
    }
    assert lines[..i] == lines;
  }

  /** The lines with a truthy `visible`, in input order. */
  function VisibleLines(lines: seq<Object>): (visible: seq<Object>)
    ensures |visible| <= |lines|
    ensures forall k :: 0 <= k < |visible| ==> Truthy(Get(visible[k], "visible"))
    decreases |lines|
  {
    if lines == [] then []
    else
      VisibleLines(lines[..|lines| - 1]) +
      if Truthy(Get(lines[|lines| - 1], "visible")) then [lines[|lines| - 1]] else []
  }

  /** Each line is handled on its own: the result for a concatenation is the
      concatenation of the results, so a failure drops only its own line. */
  lemma {:induction false} DisplayedAppend(a: seq<Object>, b: seq<Object>, context: Object, render: Renderer)
    ensures Displayed(a + b, context, render) == Displayed(a, context, render) + Displayed(b, context, render)
    decreases |b|
  {
    if b == [] {
      assert a + b == a;
    } else {
      var b' := b[..|b| - 1];
      assert (a + b)[..|a + b| - 1] == a + b';
      assert (a + b)[|a + b| - 1] == b[|b| - 1];
      DisplayedAppend(a, b', context, render);
    }
  }

  /** The result is an order-preserving subsequence of the lines, each entry
      the line plus `displayTitle`, and every entry is a visible line. */
  lemma {:induction false} DisplayedAreVisibleLines(lines: seq<Object>, context: Object, render: Renderer)
    ensures var results := Displayed(lines, context, render);
      InOrderSubsequence(results, lines, {"displayTitle"}) &&
      forall k :: 0 <= k < |results| ==> Truthy(Get(results[k], "visible"))
    decreases |lines|
  {
    if lines != [] {
      var prefix := lines[..|lines| - 1];
      DisplayedAreVisibleLines(prefix, context, render);
      var before := Displayed(prefix, context, render);
      var results := Displayed(lines, context, render);
      match DisplayLine(lines[|lines| - 1], context, render)
      case None =>
        assert results == before;
      case Some(entry) =>
        assert results[..|results| - 1] == before;
        assert Get(entry, "visible") == Get(lines[|lines| - 1], "visible");
    }
  }

  /** When no visible line's template fails to render, the result holds
      exactly the visible lines, in order, each with its title added. */
  lemma {:induction false} EveryVisibleLineShown(lines: seq<Object>, context: Object, render: Renderer)
    requires forall k :: 0 <= k < |lines| && Truthy(Get(lines[k], "visible")) ==> Title(lines[k], context, render).Ok?
    ensures var results := Displayed(lines, context, render);
      var visible := VisibleLines(lines);
      |results| == |visible| &&
      forall k :: 0 <= k < |results| ==> DisplayLine(visible[k], context, render) == Some(results[k])
    decreases |lines|
  {
    if lines != [] {
      var prefix := lines[..|lines| - 1];
      EveryVisibleLineShown(prefix, context, render);
    }
  }

  /** The offer test: of `HT` (not visible) and `newht` (visible, template
      `HT`, which renders to itself), only `newht` is kept, titled `HT`. */
  lemma OfferDisplay(ht: Object, newht: Object, context: Object, render: Renderer)
    requires !Truthy(Get(ht, "visible"))
    requires Truthy(Get(newht, "visible")) && Get(newht, "displayTemplate") == Str("HT")
    requires render(Str("HT"), RenderScope(context, newht)) == Ok("HT")
    ensures Displayed([ht, newht], context, render) == [newht["displayTitle" := Str("HT")]]
  {
  }
}
