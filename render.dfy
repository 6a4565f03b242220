/** The template rendering engine (src/renderVelocityTemplateObject.js): walks a
    template document, renders every string leaf through the Velocity engine and
    re-types the rendered text. The Velocity engine and `JSON.parse` are foreign
    code and enter as function parameters. */
module Render {
  import opened JsValues

  /** The Velocity engine (parse, compile, render in silent and non-escaping
      mode) applied to one string against the context the caller fixed: the
      rendered text, or the error it throws. */
  type Velocity = string -> Result<string, JsError>

  /** `JSON.parse(x)`: the parsed value, or None when it throws. JavaScript
      converts a non-string argument to a string first, so the parser is taken
      on any value. */
  type JsonParse = JsValue -> Option<JsValue>

  /** `tryToParseJSON`: the parsed value when the parse succeeds with a truthy
      value, otherwise the argument itself. */
  function TryToParseJSON(x: JsValue, parse: JsonParse): (r: JsValue)
    ensures r == x || (parse(x) == Some(r) && Truthy(r))
    ensures parse(x).Some? && Truthy(parse(x).value) ==> r == parse(x).value
    ensures !Truthy(r) ==> r == x
    ensures Truthy(x) ==> Truthy(r)
  {
    match parse(x)
    case Some(p) => if Truthy(p) then p else x
    case None => x
  }

  /** The `switch` on the rendered text in `renderVelocityString`. */
  function RetypeRendered(text: string, parse: JsonParse): (r: JsValue)
    ensures r == Undefined <==> text == "undefined"
    ensures r == Null <==> text == "null"
    ensures r == Bool(false) <==> text == "false"
    ensures text == "true" ==> r == Bool(true)
    ensures text !in {"undefined", "null", "true", "false"} ==>
              r == TryToParseJSON(Str(text), parse)
  {
    match text
    case "undefined" => Undefined
    case "null" => Null
    case "true" => Bool(true)
    case "false" => Bool(false)
    case _ => TryToParseJSON(Str(text), parse)
  }

  /** `renderVelocityString`: an error of the Velocity engine is not caught. */
  function RenderVelocityString(s: string, velocity: Velocity, parse: JsonParse): (r: Result<JsValue, JsError>)
    ensures r.Err? <==> velocity(s).Err?
    ensures r.Err? ==> r.error == velocity(s).error
    ensures r.Ok? ==> r.value == RetypeRendered(velocity(s).value, parse)
  {
    match velocity(s)
    case Err(e) => Err(e)
    case Ok(text) => Ok(RetypeRendered(text, parse))
  }

  /** What the engine produces for a whole template. */
  function RenderTemplate(t: JsValue, velocity: Velocity, parse: JsonParse): Result<JsValue, JsError>
    decreases if t.Str? then 1 else 0, t, 1
  {
    if t.Str? then RenderProcessed(TryToParseJSON(t, parse), velocity, parse)
    else RenderProcessed(t, velocity, parse)
  }

  /** The part of `RenderTemplate` after the first parse attempt. */
  function RenderProcessed(p: JsValue, velocity: Velocity, parse: JsonParse): Result<JsValue, JsError>
    decreases 0, p, 0
  {
    if p.Obj? then
      match RenderObject(p.fields, velocity, parse)
      case Ok(rs) => Ok(Obj(rs))
      case Err(e) => Err(e)
    else if p.Str? then
      match RenderVelocityString(p.s, velocity, parse)
      case Err(e) => Err(e)
      case Ok(rendered) =>
        var alternative := TryToParseJSON(rendered, parse);
        Ok(if alternative.Obj? then alternative else Obj([]))
    else Ok(Obj([]))
  }

  /** The rule for one property value: strings are rendered, plain objects are
      rendered recursively, anything else is copied. */
  function RenderField(v: JsValue, velocity: Velocity, parse: JsonParse): Result<JsValue, JsError>
    decreases 0, v, 2
  {
    if v.Str? then RenderVelocityString(v.s, velocity, parse)
    else if v.Obj? then RenderTemplate(v, velocity, parse)
    else Ok(v)
  }

  /** The `for...in` loop over a plain object's properties, in order; the first
      error ends it. */
  function RenderObject(es: seq<Entry>, velocity: Velocity, parse: JsonParse): Result<seq<Entry>, JsError>
    decreases 0, es, 3
  {
    if es == [] then Ok([])
    else
      match RenderObject(es[..|es| - 1], velocity, parse)
      case Err(e) => Err(e)
      case Ok(front) =>
        match RenderField(es[|es| - 1].value, velocity, parse)
        case Err(e) => Err(e)
        case Ok(v) => Ok(front + [Entry(es[|es| - 1].key, v)])
  }

  /** `renderVelocityTemplateObject`, building the result object key by key. */
  method RenderVelocityTemplateObject(templateObject: JsValue, velocity: Velocity, parse: JsonParse)
    returns (r: Result<JsValue, JsError>)
    ensures r == RenderTemplate(templateObject, velocity, parse)
    decreases if templateObject.Str? then 1 else 0, templateObject
  {
    var toProcess := templateObject;
    if toProcess.Str? {
      toProcess := TryToParseJSON(toProcess, parse);
    }
    if toProcess.Obj? {
      var fields := toProcess.fields;
      var result: seq<Entry> := [];
      var i := 0;
      while i < |fields|
        invariant 0 <= i <= |fields|
        invariant RenderObject(fields[..i], velocity, parse) == Ok(result)
      {
        var key, value := fields[i].key, fields[i].value;
        var rendered: Result<JsValue, JsError>;
        if value.Str? {
          rendered := RenderVelocityString(value.s, velocity, parse);
        } else if value.Obj? {
          rendered := RenderVelocityTemplateObject(value, velocity, parse);
        } else {
          rendered := Ok(value);
        }
        assert fields[..i + 1][..i] == fields[..i];
        if rendered.Err? {
          ObjectErrorPersists(fields, i + 1, velocity, parse);
          return Err(rendered.error);
        }
        result := result + [Entry(key, rendered.value)];
        i := i + 1;
      }
      assert fields[..i] == fields;
      return Ok(Obj(result));
    } else if toProcess.Str? {
      var rendered := RenderVelocityString(toProcess.s, velocity, parse);
      if rendered.Err? {
        return Err(rendered.error);
      }
      var alternativeResult := TryToParseJSON(rendered.value, parse);
      return Ok(if alternativeResult.Obj? then alternativeResult else Obj([]));
    }
    return Ok(Obj([]));
  }

  /** Once a prefix of the properties fails, the whole object fails the same way. */
  lemma {:induction false} ObjectErrorPersists(es: seq<Entry>, n: nat, velocity: Velocity, parse: JsonParse)
    requires n <= |es|
    requires RenderObject(es[..n], velocity, parse).Err?
    ensures RenderObject(es, velocity, parse) == RenderObject(es[..n], velocity, parse)
  {
    if n < |es| {
      var front := es[..|es| - 1];
      assert front[..n] == es[..n];
      ObjectErrorPersists(front, n, velocity, parse);
    } else {
      assert es[..n] == es;
    }
  }

  /** Appending one rendered property to a rendering of `front` that matches
      it name by name gives a rendering of `front + [e]` that matches it. */
  lemma AppendRendered(front: seq<Entry>, fs: seq<Entry>, e: Entry, v: JsValue,
                       render: JsValue -> Result<JsValue, JsError>)
    requires Keys(fs) == Keys(front)
    requires forall i :: 0 <= i < |front| ==> render(front[i].value) == Ok(fs[i].value)
    requires render(e.value) == Ok(v)
    ensures Keys(fs + [Entry(e.key, v)]) == Keys(front + [e])
    ensures forall i :: 0 <= i < |front| + 1 ==>
              render((front + [e])[i].value) == Ok((fs + [Entry(e.key, v)])[i].value)
  {
    KeysAppend(fs, Entry(e.key, v));
    KeysAppend(front, e);
  }

  /** A rendered object has exactly the template's keys, in the same order, and
      each value is what the property rule gives for the template's value. */
  lemma {:induction false} RenderObjectShape(es: seq<Entry>, velocity: Velocity, parse: JsonParse)
    requires RenderObject(es, velocity, parse).Ok?
    ensures var rs := RenderObject(es, velocity, parse).value;
            && Keys(rs) == Keys(es)
            && forall i :: 0 <= i < |es| ==> RenderField(es[i].value, velocity, parse) == Ok(rs[i].value)
  {
    if es != [] {
      var n := |es| - 1;
      var front := es[..n];
      var frontR := RenderObject(front, velocity, parse);
      var lastR := RenderField(es[n].value, velocity, parse);
      assert frontR.Ok? && lastR.Ok?;
      RenderObjectShape(front, velocity, parse);
      var rs := frontR.value + [Entry(es[n].key, lastR.value)];
      assert RenderObject(es, velocity, parse).value == rs;
      var render := x => RenderField(x, velocity, parse);
      AppendRendered(front, frontR.value, es[n], lastR.value, render);
      assert es == front + [es[n]];
      forall i | 0 <= i < |es|
        ensures RenderField(es[i].value, velocity, parse) == Ok(rs[i].value)
      {
        assert render(es[i].value) == Ok(rs[i].value);
      }
    }
  }

  /** An object fails exactly when one of its properties fails, and the error is
      that of the first property that fails. */
  lemma {:induction false} RenderObjectError(es: seq<Entry>, velocity: Velocity, parse: JsonParse)
    ensures RenderObject(es, velocity, parse).Err? <==>
              exists i :: 0 <= i < |es| && RenderField(es[i].value, velocity, parse).Err?
    ensures RenderObject(es, velocity, parse).Err? ==>
              exists i :: && 0 <= i < |es|
                          && RenderField(es[i].value, velocity, parse) == Err(RenderObject(es, velocity, parse).error)
                          && forall j :: 0 <= j < i ==> RenderField(es[j].value, velocity, parse).Ok?
  {
    if es != [] {
      var front := es[..|es| - 1];
      RenderObjectError(front, velocity, parse);
      assert forall i :: 0 <= i < |front| ==> front[i] == es[i];
      if RenderObject(front, velocity, parse).Err? {
        var i :| && 0 <= i < |front|
                 && RenderField(front[i].value, velocity, parse) == Err(RenderObject(front, velocity, parse).error)
                 && forall j :: 0 <= j < i ==> RenderField(front[j].value, velocity, parse).Ok?;
        assert RenderField(es[i].value, velocity, parse).Err?;
      }
    }
  }

  /** When the Velocity engine never throws, neither does the rendering engine:
      it adds no error of its own. */
  lemma {:induction false} NoThrowTemplate(t: JsValue, velocity: Velocity, parse: JsonParse)
    requires forall s :: velocity(s).Ok?
    ensures RenderTemplate(t, velocity, parse).Ok?
    decreases if t.Str? then 1 else 0, t, 1
  {
    var p := if t.Str? then TryToParseJSON(t, parse) else t;
    if p.Obj? {
      NoThrowObject(p.fields, velocity, parse);
    }
  }

  lemma {:induction false} NoThrowObject(es: seq<Entry>, velocity: Velocity, parse: JsonParse)
    requires forall s :: velocity(s).Ok?
    ensures RenderObject(es, velocity, parse).Ok?
    decreases 0, es, 3
  {
    if es != [] {
      NoThrowObject(es[..|es| - 1], velocity, parse);
      var v := es[|es| - 1].value;
      if v.Obj? {
        NoThrowTemplate(v, velocity, parse);
      }
    }
  }

  /** Whatever the template, a successful render is a plain object. */
  lemma RenderTemplateIsObject(t: JsValue, velocity: Velocity, parse: JsonParse)
    requires RenderTemplate(t, velocity, parse).Ok?
    ensures RenderTemplate(t, velocity, parse).value.Obj?
  {
  }

  /** A template given as a string is parsed first. A plain object is processed
      like that object; a string is rendered whole and re-parsed, keeping the
      outcome only when it is a plain object; anything else gives `{}`. */
  lemma StringTemplate(s: string, velocity: Velocity, parse: JsonParse)
    ensures var p := TryToParseJSON(Str(s), parse);
            && (p.Obj? ==> RenderTemplate(Str(s), velocity, parse) == RenderTemplate(p, velocity, parse))
            && (p.Str? ==>
                  RenderTemplate(Str(s), velocity, parse) ==
                  (match velocity(p.s)
                   case Err(e) => Err(e)
                   case Ok(text) =>
                     var a := TryToParseJSON(RetypeRendered(text, parse), parse);
                     Ok(if a.Obj? then a else Obj([]))))
            && (!p.Obj? && !p.Str? ==> RenderTemplate(Str(s), velocity, parse) == Ok(Obj([])))
  {
  }

  /** What `JSON.parse` does with the non-string values the engine hands it:
      they are converted to a string first, so a plain object (`[object
      Object]`) and `undefined` throw, while `null` and the booleans read back
      as themselves. */
  ghost predicate JsonLike(parse: JsonParse) {
    && (forall fs :: parse(Obj(fs)) == None)
    && parse(Undefined) == None
    && parse(Null) == Some(Null)
    && (forall b :: parse(Bool(b)) == Some(Bool(b)))
  }

  /** A bare string template (one that does not parse to a plain object) is
      rendered whole: an engine error reaches the caller, a rendering whose
      text reads as a plain object gives that object, and a rendering that
      reads as `undefined`, `null` or a boolean gives `{}`. */
  lemma BareStringOutcome(s: string, velocity: Velocity, parse: JsonParse)
    requires JsonLike(parse)
    requires TryToParseJSON(Str(s), parse).Str?
    ensures var p := TryToParseJSON(Str(s), parse);
            var out := RenderTemplate(Str(s), velocity, parse);
            && (velocity(p.s).Err? ==> out == Err(velocity(p.s).error))
            && (velocity(p.s).Ok? ==>
                  var r := RetypeRendered(velocity(p.s).value, parse);
                  && (r.Obj? ==> out == Ok(r))
                  && (r.Undefined? || r.Null? || r.Bool? ==> out == Ok(Obj([]))))
  {
    StringTemplate(s, velocity, parse);
  }

  /** A template that is neither a string nor a plain object gives `{}`. */
  lemma OtherTemplate(t: JsValue, velocity: Velocity, parse: JsonParse)
    requires !t.Str? && !t.Obj?
    ensures RenderTemplate(t, velocity, parse) == Ok(Obj([]))
  {
  }

  /** A Velocity engine whose templates are plain text: it returns its input. */
  function Echo(s: string): Result<string, JsError> {
    Ok(s)
  }

  /** Rendering one more property appends its rendered value. */
  lemma RenderObjectAppend(front: seq<Entry>, e: Entry, velocity: Velocity, parse: JsonParse)
    requires RenderObject(front, velocity, parse).Ok?
    requires RenderField(e.value, velocity, parse).Ok?
    ensures RenderObject(front + [e], velocity, parse) ==
              Ok(RenderObject(front, velocity, parse).value + [Entry(e.key, RenderField(e.value, velocity, parse).value)])
  {
    assert (front + [e])[..|front|] == front;
  }

  /** An object with a single property renders to the object holding that
      property's rendered value, or fails with its error. */
  lemma RenderSingleProperty(k: string, v: JsValue, velocity: Velocity, parse: JsonParse)
    ensures RenderTemplate(Obj([Entry(k, v)]), velocity, parse) ==
            match RenderField(v, velocity, parse)
            case Ok(x) => Ok(Obj([Entry(k, x)]))
            case Err(e) => Err(e)
  {
    var e := Entry(k, v);
    var rf := RenderField(v, velocity, parse);
    if rf.Ok? {
      SinglePropertyOk(e, velocity, parse);
    } else {
      assert [e][..0] == [];
      assert RenderObject([e], velocity, parse) == Err(rf.error);
    }
  }

  lemma SinglePropertyOk(e: Entry, velocity: Velocity, parse: JsonParse)
    requires RenderField(e.value, velocity, parse).Ok?
    ensures RenderObject([e], velocity, parse) == Ok([Entry(e.key, RenderField(e.value, velocity, parse).value)])
  {
    assert RenderObject([], velocity, parse) == Ok([]);
    assert [] + [e] == [e];
    RenderObjectAppend([], e, velocity, parse);
    var x := RenderField(e.value, velocity, parse).value;
    assert [] + [Entry(e.key, x)] == [Entry(e.key, x)];
  }

  /** With the echoing engine, `{a: "true", b: {c: "null"}}` renders to
      `{a: true, b: {c: null}}`, whatever the JSON parser. */
  lemma IdentityRender(parse: JsonParse)
    ensures RenderTemplate(
              Obj([Entry("a", Str("true")), Entry("b", Obj([Entry("c", Str("null"))]))]),
              Echo, parse)
            == Ok(Obj([Entry("a", Bool(true)), Entry("b", Obj([Entry("c", Null)]))]))
  {
    var c := Entry("c", Str("null"));
    var a := Entry("a", Str("true"));
    assert RetypeRendered("null", parse) == Null;
    assert RenderField(c.value, Echo, parse) == Ok(Null);
    assert RenderObject([], Echo, parse) == Ok([]);
    RenderObjectAppend([], c, Echo, parse);
    assert [] + [c] == [c];
    assert [] + [Entry("c", Null)] == [Entry("c", Null)];
    var b := Entry("b", Obj([c]));
    assert RenderObject([c], Echo, parse) == Ok([Entry("c", Null)]);
    assert RenderProcessed(b.value, Echo, parse) == Ok(Obj([Entry("c", Null)]));
    assert RenderField(b.value, Echo, parse) == Ok(Obj([Entry("c", Null)]));
    assert RenderField(a.value, Echo, parse) == Ok(Bool(true));
    RenderObjectAppend([], a, Echo, parse);
    assert [] + [a] == [a];
    assert [] + [Entry("a", Bool(true))] == [Entry("a", Bool(true))];
    assert RenderObject([a], Echo, parse) == Ok([Entry("a", Bool(true))]);
    RenderObjectAppend([a], b, Echo, parse);
    assert [a] + [b] == [a, b];
    var rendered := [Entry("a", Bool(true)), Entry("b", Obj([Entry("c", Null)]))];
    assert [Entry("a", Bool(true))] + [Entry("b", Obj([Entry("c", Null)]))] == rendered;
    assert RenderObject([a, b], Echo, parse) == Ok(rendered);
    assert RenderProcessed(Obj([a, b]), Echo, parse) == Ok(Obj(rendered));
  }
}
