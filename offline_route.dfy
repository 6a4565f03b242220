/** One request through an offline route (src/index.js, the route handler and
    the two reply helpers): the request side builds the event, the response side
    turns the handler's completion into the held HTTP response, and a timer
    guards that only one reply is sent. */
module Offline {
  import opened JsValues
  import opened Strings
  import opened Render
  import opened VelocityContext
  import opened OfflineRules

  /** The foreign code a route calls: the Velocity engine rendering a string
      against a context, `JSON.parse`, `JSON.stringify` (None for `undefined`),
      `jsonPath`, the regular-expression engine behind `String.match`, and the
      string coercion `process.env` applies on assignment. */
  datatype Foreign = Foreign(
    velocity: (Context, string) -> Result<string, JsError>,
    parse: JsonParse,
    stringify: JsValue -> Option<string>,
    jsonPath: (JsValue, string) -> JsValue,
    matches: RegexMatch,
    envString: JsValue -> string)

  /** The Velocity engine bound to one context. */
  function Renderer(f: Foreign, ctx: Context): Velocity {
    s => f.velocity(ctx, s)
  }

  /** What a route keeps of its endpoint. */
  datatype Endpoint = Endpoint(requestTemplates: JsValue, responses: seq<NamedResponse>)

  /** What a route keeps of its function: its name, its timeout in whole
      seconds (0 when unset), its populated `environment`, and the endpoint. */
  datatype Route = Route(funName: string, timeoutSeconds: nat, environment: JsValue, endpoint: Endpoint)

  const OfflineInfo := "If you believe this is an issue with the plugin please submit it, thanks. https://github.com/dherault/serverless-offline/issues"

  /** The body `_reply500` sends. */
  function Reply500Body(message: string, err: JsError): JsValue {
    Obj(ErrorFields(message, err) + [Entry("offlineInfo", Str(OfflineInfo))])
  }

  /** The body `_reply500` sends holds, in this order, `errorMessage`,
      `errorType`, `stackTrace` and `offlineInfo`. */
  lemma Reply500BodyKeys(message: string, err: JsError)
    ensures Reply500Body(message, err).Obj?
    ensures Keys(Reply500Body(message, err).fields) == ["errorMessage", "errorType", "stackTrace", "offlineInfo"]
  {
    var info := Entry("offlineInfo", Str(OfflineInfo));
    ErrorFieldsShape(message, err);
    KeysAppend(ErrorFields(message, err), info);
  }

  /** The body `_reply500` sends carries the given message, the error's
      constructor name and stack trace, and the plugin's issue-tracker note. */
  lemma Reply500BodyFields(message: string, err: JsError)
    ensures var r := Reply500Body(message, err);
            && Field(r, "errorMessage") == Str(message)
            && Field(r, "errorType") == Str(err.typeName)
            && Field(r, "stackTrace") == StackTrace(err)
            && Field(r, "offlineInfo") == Str(OfflineInfo)
  {
    var front := ErrorFields(message, err);
    var info := Entry("offlineInfo", Str(OfflineInfo));
    ErrorFieldsShape(message, err);
    AppendedProperty(front, info);
  }

  /** The text `_replyTimeout` sends. */
  function TimeoutMessage(funName: string, timeoutMs: nat): string {
    "[Serverless-offline] Your \U{03BB} handler " + funName + " timed out after " + NatToString(timeoutMs) + "ms."
  }

  /** The timeout text names the function and the limit, the limit written in
      decimal digits that read back as the number of milliseconds. */
  lemma TimeoutMessageNamesLimit(funName: string, timeoutMs: nat)
    ensures exists digits :: && TimeoutMessage(funName, timeoutMs)
                                 == "[Serverless-offline] Your \U{03BB} handler " + funName + " timed out after " + digits + "ms."
                             && |digits| >= 1
                             && (forall i :: 0 <= i < |digits| ==> '0' <= digits[i] <= '9')
                             && (|digits| == 1 || digits[0] != '0')
                             && DigitsValue(digits) == timeoutMs
  {
    NatToStringValue(timeoutMs);
    var digits := NatToString(timeoutMs);
    assert DigitsValue(digits) == timeoutMs;
  }

  // ---------------------------------------------------------------------------
  // The request side

  /** Why the request side replied with `_reply500` instead of calling the
      handler. */
  datatype Failure = Failure(message: string, error: JsError)

  /** `request.mime || 'application/json'`, with "" for a missing mime type. */
  function RequestContentType(mime: string): string {
    if mime != "" then mime else DefaultContentType
  }

  /** `event.isOffline = true` on a plain-object event. */
  function MarkOffline(fields: seq<Entry>): JsValue {
    Obj(Put(fields, "isOffline", Bool(true)))
  }

  /** The event handed to the handler, or the failure replied instead: a load
      failure, or a request template whose rendering threw. `o` is the context
      options as they were before this request. */
  function RequestOutcome(route: Route, request: Request, o: OptionValues, payload: JsValue, mime: string,
                          loadError: Option<JsError>, randomDigits: string, f: Foreign): Result<JsValue, Failure>
  {
    if loadError.Some? then Err(Failure("Error while loading " + route.funName, loadError.value))
    else
      var contentType := RequestContentType(mime);
      var template := Field(route.endpoint.requestTemplates, contentType);
      if !Truthy(template) then Ok(MarkOffline([]))
      else
        var ctx := BuildContext(request, o, Or(payload, Obj([])), randomDigits);
        match RenderTemplate(template, Renderer(f, ctx), f.parse)
        case Err(e) => Err(Failure("Error while parsing template \"" + contentType + "\" for " + route.funName, e))
        case Ok(ev) =>
          RenderTemplateIsObject(template, Renderer(f, ctx), f.parse);
          Ok(MarkOffline(ev.fields))
  }

  /** Flagging the event keeps the template's property order: `isOffline`
      keeps its place when the template produced it, and is appended last
      otherwise. */
  lemma EventKeyOrder(fields: seq<Entry>)
    ensures var event := MarkOffline(fields);
            && event.Obj?
            && ("isOffline" in Keys(fields) ==> Keys(event.fields) == Keys(fields))
            && ("isOffline" !in Keys(fields) ==> Keys(event.fields) == Keys(fields) + ["isOffline"])
  {
    PutKeys(fields, "isOffline", Bool(true));
  }

  /** Every event the handler sees is a plain object flagged `isOffline`, and
      keeps every other property the template produced; without a template for
      the content type it is `{isOffline: true}`. */
  lemma RequestEventFlagged(route: Route, request: Request, o: OptionValues, payload: JsValue, mime: string,
                            loadError: Option<JsError>, randomDigits: string, f: Foreign)
    ensures var out := RequestOutcome(route, request, o, payload, mime, loadError, randomDigits, f);
            && (out.Ok? ==> out.value.Obj? && Field(out.value, "isOffline") == Bool(true))
            && ((out.Ok? && !Truthy(Field(route.endpoint.requestTemplates, RequestContentType(mime))))
                  ==> out.value == Obj([Entry("isOffline", Bool(true))]))
            && (out.Ok? && Truthy(Field(route.endpoint.requestTemplates, RequestContentType(mime))) ==>
                  var ctx := BuildContext(request, o, Or(payload, Obj([])), randomDigits);
                  var rendered := RenderTemplate(Field(route.endpoint.requestTemplates, RequestContentType(mime)),
                                                 Renderer(f, ctx), f.parse);
                  && rendered.Ok? && rendered.value.Obj?
                  && forall k :: k != "isOffline" ==> Field(out.value, k) == Field(rendered.value, k))
  {
    var out := RequestOutcome(route, request, o, payload, mime, loadError, randomDigits, f);
    var template := Field(route.endpoint.requestTemplates, RequestContentType(mime));
    if out.Ok? && Truthy(template) {
      var ctx := BuildContext(request, o, Or(payload, Obj([])), randomDigits);
      var rendered := RenderTemplate(template, Renderer(f, ctx), f.parse);
      RenderTemplateIsObject(template, Renderer(f, ctx), f.parse);
      forall k | k != "isOffline"
        ensures Field(out.value, k) == Field(rendered.value, k)
      {
        PutOther(rendered.value.fields, "isOffline", Bool(true), k);
      }
    }
  }

  /** The request side fails exactly on a load failure, with `Error while
      loading <name>`, or on a truthy request template whose rendering throws,
      with that error. */
  lemma RequestFailures(route: Route, request: Request, o: OptionValues, payload: JsValue, mime: string,
                        loadError: Option<JsError>, randomDigits: string, f: Foreign)
    ensures var out := RequestOutcome(route, request, o, payload, mime, loadError, randomDigits, f);
            var template := Field(route.endpoint.requestTemplates, RequestContentType(mime));
            var ctx := BuildContext(request, o, Or(payload, Obj([])), randomDigits);
            && (loadError.Some? ==> out == Err(Failure("Error while loading " + route.funName, loadError.value)))
            && (loadError.None? ==>
                  (out.Err? <==> Truthy(template) && RenderTemplate(template, Renderer(f, ctx), f.parse).Err?))
            && (loadError.None? && out.Err? ==>
                  out.error.error == RenderTemplate(template, Renderer(f, ctx), f.parse).error)
  {
    var out := RequestOutcome(route, request, o, payload, mime, loadError, randomDigits, f);
    if loadError.None? {
      var template := Field(route.endpoint.requestTemplates, RequestContentType(mime));
      if Truthy(template) {
        var ctx := BuildContext(request, o, Or(payload, Obj([])), randomDigits);
        var r := RenderTemplate(template, Renderer(f, ctx), f.parse);
        assert out.Err? <==> r.Err?;
      } else {
        assert out.Ok?;
      }
    }
  }

  // ---------------------------------------------------------------------------
  // The response side

  /** The response the handler's completion selects: `default` on success, the
      first matching one on failure. */
  function ChosenName(err: Option<JsError>, responses: seq<NamedResponse>, f: Foreign): string {
    if err.Some? then SelectedName(responses, ErrorMessage(err.value), f.matches) else "default"
  }

  function ChosenVariant(err: Option<JsError>, responses: seq<NamedResponse>, f: Foreign): ResponseVariant
    requires "default" in Names(responses)
  {
    if err.Some? then
      SelectedNameDeclared(responses, ErrorMessage(err.value), f.matches);
      FindResponse(responses, ChosenName(err, responses, f)).value
    else FindResponse(responses, "default").value
  }

  /** `result` before any response template: the data, or the failure body. */
  function ResultOf(err: Option<JsError>, data: JsValue): JsValue {
    if err.Some? then FailureBody(err.value) else data
  }

  /** Applying a truthy response template: render `{root: template}` and take
      `root`; a rendering error leaves the result as it was. */
  function ApplyResponseTemplate(result: JsValue, template: JsValue, velocity: Velocity, parse: JsonParse): JsValue {
    match RenderTemplate(Obj([Entry("root", template)]), velocity, parse)
    case Ok(v) => Field(v, "root")
    case Err(_) => result
  }

  /** The template is rendered as a property value would be; when that throws,
      the result is kept unchanged. */
  lemma ResponseTemplateOutcome(result: JsValue, template: JsValue, velocity: Velocity, parse: JsonParse)
    ensures var rendered := RenderField(template, velocity, parse);
            && (rendered.Err? ==> ApplyResponseTemplate(result, template, velocity, parse) == result)
            && (rendered.Ok? ==> ApplyResponseTemplate(result, template, velocity, parse) == rendered.value)
  {
    RenderSingleProperty("root", template, velocity, parse);
    var rf := RenderField(template, velocity, parse);
    if rf.Ok? {
      assert Get([Entry("root", rf.value)], "root") == rf.value;
    }
  }

  /** The headers after the response parameters and the content type. */
  function ReplyHeaders(h0: map<string, Option<string>>, v: ResponseVariant, result: JsValue, f: Foreign)
    : map<string, Option<string>>
  {
    ParamsApplied(h0, v.responseParameters, result, f)["Content-Type" := Some(ResponseContentType(v.responseTemplates))]
  }

  /** The headers after the response parameters, when they are a plain object. */
  function ParamsApplied(h0: map<string, Option<string>>, params: Option<seq<Param>>, result: JsValue, f: Foreign)
    : map<string, Option<string>>
  {
    match params
    case None => h0
    case Some(ps) => HeadersAfter(h0, ps, result, f.jsonPath, f.stringify)
  }

  function ReplyBody(result: JsValue, v: ResponseVariant, request: Request, o: OptionValues,
                     randomDigits: string, f: Foreign): JsValue
  {
    match TemplateToApply(v.responseTemplates)
    case None => result
    case Some(t) => ApplyResponseTemplate(result, t, Renderer(f, BuildContext(request, o, result, randomDigits)), f.parse)
  }

  /** The status, headers and body of the reply. */
  datatype Reply = Reply(status: JsValue, headers: map<string, Option<string>>, body: JsValue)

  /** The reply to a completion `(err, data)`, given the headers already on the
      response and the context options as they were. */
  function ReplyFor(err: Option<JsError>, data: JsValue, endpoint: Endpoint, request: Request, o: OptionValues,
                    randomDigits: string, f: Foreign, h0: map<string, Option<string>>): (reply: Reply)
    requires "default" in Names(endpoint.responses)
    ensures reply.status == StatusCode(ChosenVariant(err, endpoint.responses, f)) && Truthy(reply.status)
    ensures "Content-Type" in reply.headers
    ensures reply.headers["Content-Type"] ==
              Some(ResponseContentType(ChosenVariant(err, endpoint.responses, f).responseTemplates))
  {
    var v := ChosenVariant(err, endpoint.responses, f);
    var result := ResultOf(err, data);
    Reply(StatusCode(v), ReplyHeaders(h0, v, result, f), ReplyBody(result, v, request, o, randomDigits, f))
  }

  /** In a list with distinct names, looking a declared name up finds its
      entry. */
  lemma {:induction false} FindResponseAt(responses: seq<NamedResponse>, i: nat)
    requires i < |responses|
    requires forall a, b :: 0 <= a < b < |responses| ==> responses[a].name != responses[b].name
    ensures FindResponse(responses, responses[i].name) == Some(responses[i].variant)
  {
    if i > 0 {
      assert responses[0].name != responses[i].name;
      FindResponseAt(responses[1..], i - 1);
    }
  }

  /** Which response answers a completion: `default` on success and when no
      pattern matches the failure message, otherwise the first non-default response in
      enumeration order whose `SelectionRegex` matches. */
  lemma ChosenResponse(err: Option<JsError>, responses: seq<NamedResponse>, f: Foreign)
    requires "default" in Names(responses)
    requires forall a, b :: 0 <= a < b < |responses| ==> responses[a].name != responses[b].name
    ensures var v := ChosenVariant(err, responses, f);
            || (&& (err.None? || forall i :: 0 <= i < |responses| ==>
                                   !Selects(responses[i], ErrorMessage(err.value), f.matches))
                && v == FindResponse(responses, "default").value)
            || (exists i :: && 0 <= i < |responses|
                            && err.Some?
                            && Selects(responses[i], ErrorMessage(err.value), f.matches)
                            && (forall j :: 0 <= j < i ==> !Selects(responses[j], ErrorMessage(err.value), f.matches))
                            && v == responses[i].variant)
  {
    if err.Some? {
      var message := ErrorMessage(err.value);
      SelectedNameFirstMatch(responses, message, f.matches);
      var name := SelectedName(responses, message, f.matches);
      if exists i :: && 0 <= i < |responses| && name == responses[i].name
                     && Selects(responses[i], message, f.matches)
                     && forall j :: 0 <= j < i ==> !Selects(responses[j], message, f.matches) {
        var i :| && 0 <= i < |responses| && name == responses[i].name
                 && Selects(responses[i], message, f.matches)
                 && forall j :: 0 <= j < i ==> !Selects(responses[j], message, f.matches);
        FindResponseAt(responses, i);
      }
    }
  }

  /** The reply's body is the failure body or the data, unless the chosen
      response has a truthy first template: then it is that template rendered
      as a property value, or the unchanged result when rendering throws. */
  lemma ReplyBodyRendered(err: Option<JsError>, data: JsValue, endpoint: Endpoint, request: Request,
                          o: OptionValues, randomDigits: string, f: Foreign, h0: map<string, Option<string>>)
    requires "default" in Names(endpoint.responses)
    ensures var body := ReplyFor(err, data, endpoint, request, o, randomDigits, f, h0).body;
            var v := ChosenVariant(err, endpoint.responses, f);
            var result := ResultOf(err, data);
            var t := TemplateToApply(v.responseTemplates);
            && (t.None? ==> body == result)
            && (t.Some? ==>
                  var rendered := RenderField(t.value, Renderer(f, BuildContext(request, o, result, randomDigits)),
                                              f.parse);
                  body == (if rendered.Ok? then rendered.value else result))
  {
    var v := ChosenVariant(err, endpoint.responses, f);
    var result := ResultOf(err, data);
    var t := TemplateToApply(v.responseTemplates);
    assert ReplyFor(err, data, endpoint, request, o, randomDigits, f, h0).body
           == ReplyBody(result, v, request, o, randomDigits, f);
    if t.Some? {
      ResponseTemplateOutcome(result, t.value, Renderer(f, BuildContext(request, o, result, randomDigits)), f.parse);
    }
  }

  /** A header that no response parameter of the chosen response names keeps
      its value, and the content type is always set. */
  lemma ReplyHeadersKept(err: Option<JsError>, data: JsValue, endpoint: Endpoint, request: Request,
                         o: OptionValues, randomDigits: string, f: Foreign,
                         h0: map<string, Option<string>>, name: string)
    requires "default" in Names(endpoint.responses)
    requires name != "Content-Type" && name in h0
    requires var v := ChosenVariant(err, endpoint.responses, f);
             v.responseParameters.None? ||
             forall i :: 0 <= i < |v.responseParameters.value| ==>
               var h := HeaderRule(v.responseParameters.value[i].key, v.responseParameters.value[i].value,
                                   ResultOf(err, data), f.jsonPath, f.stringify);
               h.None? || h.value.name != name
    ensures var headers := ReplyFor(err, data, endpoint, request, o, randomDigits, f, h0).headers;
            && name in headers && headers[name] == h0[name]
            && headers["Content-Type"] ==
                 Some(ResponseContentType(ChosenVariant(err, endpoint.responses, f).responseTemplates))
  {
    var v := ChosenVariant(err, endpoint.responses, f);
    if v.responseParameters.Some? {
      HeadersAfterKeeps(h0, v.responseParameters.value, ResultOf(err, data), f.jsonPath, f.stringify, name);
    }
  }

  /** src/index.js:452-459: render `{root: template}` against a context built for
      the result and take `root`; a rendering error keeps the result. */
  method RenderResponseTemplate(result: JsValue, template: JsValue, request: Request, options: ContextOptions,
                                randomDigits: string, f: Foreign)
    returns (r: JsValue)
    modifies options
    ensures r == ApplyResponseTemplate(result, template,
                                       Renderer(f, BuildContext(request, old(options.Values()), result, randomDigits)),
                                       f.parse)
    ensures options.Values() == Defaulted(old(options.Values()))
  {
    var ctx := CreateVelocityContext(request, options, result, randomDigits);
    var rendered := RenderVelocityTemplateObject(Obj([Entry("root", template)]), Renderer(f, ctx), f.parse);
    r := if rendered.Ok? then Field(rendered.value, "root") else result;
  }

  /** src/index.js:433-462: the first key of the chosen response's templates is the
      content type, and a truthy first template is applied to the result. */
  method ResponseTemplating(chosen: ResponseVariant, result: JsValue, request: Request, options: ContextOptions,
                            randomDigits: string, f: Foreign)
    returns (body: JsValue, responseContentType: string)
    modifies options
    ensures body == ReplyBody(result, chosen, request, old(options.Values()), randomDigits, f)
    ensures responseContentType == ResponseContentType(chosen.responseTemplates)
    ensures options.Values() == old(options.Values()) || options.Values() == Defaulted(old(options.Values()))
  {
    body := result;
    responseContentType := DefaultContentType;
    var responseTemplates := chosen.responseTemplates;
    if responseTemplates.Obj? && |responseTemplates.fields| > 0 {
      var templateName := responseTemplates.fields[0].key;
      var responseTemplate := responseTemplates.fields[0].value;
      responseContentType := templateName;
      if Truthy(responseTemplate) {
        body := RenderResponseTemplate(result, responseTemplate, request, options, randomDigits, f);
      }
    }
  }

  // ---------------------------------------------------------------------------
  // The held response and its timer

  /** Everything a reply can change at once. */
  datatype Held = Held(status: JsValue, headers: map<string, Option<string>>, body: JsValue, sends: nat)

  /** The response held by the route handler (`reply.response().hold()`), with
      the number of times it was sent, and the handler's timeout timer: whether
      it was armed, whether it fired (Node's `_called`), and whether it was
      cleared. */
  class Exchange {
    var statusCode: JsValue
    var headers: map<string, Option<string>>
    var source: JsValue
    var sends: nat
    var timerArmed: bool
    var timerCalled: bool
    var timerCleared: bool

    /** A fresh held response: status 200, no headers, a null source. */
    constructor ()
      ensures Response() == Held(Num(200.0), map[], Null, 0)
      ensures !timerArmed && !timerCalled && !timerCleared
    {
      statusCode, headers, source, sends := Num(200.0), map[], Null, 0;
      timerArmed, timerCalled, timerCleared := false, false, false;
    }

    function Response(): Held
      reads this
    {
      Held(statusCode, headers, source, sends)
    }

    /** The timer is armed and has neither fired nor been cleared. */
    predicate Pending()
      reads this
    {
      timerArmed && !timerCalled && !timerCleared
    }

    /** `_reply500`: status 200, the error body, sent. */
    method Reply500(message: string, err: JsError)
      modifies this
      ensures Response() == Held(Num(200.0), old(headers), Reply500Body(message, err), old(sends) + 1)
      ensures timerArmed == old(timerArmed) && timerCalled == old(timerCalled) && timerCleared == old(timerCleared)
    {
      statusCode := Num(200.0);
      source := Reply500Body(message, err);
      sends := sends + 1;
    }

    /** `_replyTimeout`: status 503, the timeout text, sent. */
    method ReplyTimeout(funName: string, timeoutMs: nat)
      modifies this
      ensures Response() == Held(Num(503.0), old(headers), Str(TimeoutMessage(funName, timeoutMs)), old(sends) + 1)
      ensures timerArmed == old(timerArmed) && timerCalled == old(timerCalled) && timerCleared == old(timerCleared)
    {
      statusCode := Num(503.0);
      source := Str(TimeoutMessage(funName, timeoutMs));
      sends := sends + 1;
    }

    /** `setTimeout(this._replyTimeout..., funTimeout)` (src/index.js:494). */
    method ArmTimer()
      requires !timerArmed
      modifies this
      ensures Response() == old(Response())
      ensures Pending()
    {
      timerArmed, timerCalled, timerCleared := true, false, false;
    }

    /** The timer's delay elapses: a pending timer is marked called and replies
        with the timeout; a cleared or unarmed one does nothing. */
    method TimerExpires(funName: string, timeoutMs: nat)
      modifies this
      ensures old(Pending()) ==>
                && Response() == Held(Num(503.0), old(headers), Str(TimeoutMessage(funName, timeoutMs)), old(sends) + 1)
                && timerArmed && timerCalled && !timerCleared
      ensures !old(Pending()) ==> Response() == old(Response()) && timerCalled == old(timerCalled)
      ensures timerArmed == old(timerArmed) && timerCleared == old(timerCleared)
    {
      if Pending() {
        timerCalled := true;
        ReplyTimeout(funName, timeoutMs);
      }
    }

    /** The `forEach` over the response parameters (src/index.js:384-427). */
    method ApplyResponseParameters(params: seq<Param>, result: JsValue, f: Foreign)
      modifies this
      ensures headers == HeadersAfter(old(headers), params, result, f.jsonPath, f.stringify)
      ensures statusCode == old(statusCode) && source == old(source) && sends == old(sends)
      ensures timerArmed == old(timerArmed) && timerCalled == old(timerCalled) && timerCleared == old(timerCleared)
    {
      var i := 0;
      while i < |params|
        invariant 0 <= i <= |params|
        invariant headers == HeadersAfter(old(headers), params[..i], result, f.jsonPath, f.stringify)
        invariant statusCode == old(statusCode) && source == old(source) && sends == old(sends)
        invariant timerArmed == old(timerArmed) && timerCalled == old(timerCalled)
        invariant timerCleared == old(timerCleared)
      {
        assert params[..i + 1][..i] == params[..i] && params[..i + 1][i] == params[i];
        // A left-hand side that is not a header only logs a warning.
        var rule := HeaderRule(params[i].key, params[i].value, result, f.jsonPath, f.stringify);
        if rule.Some? {
          headers := headers[rule.value.name := rule.value.value];
        }
        i := i + 1;
      }
      assert params[..i] == params;
    }

    /** The completion callback after its guard (src/index.js:338-491): select the
        response (`default` on success, the first matching one on failure) and
        reply with it. */
    method Respond(err: Option<JsError>, data: JsValue, endpoint: Endpoint, request: Request,
                   options: ContextOptions, randomDigits: string, f: Foreign)
      requires "default" in Names(endpoint.responses)
      modifies this, options
      ensures var reply := ReplyFor(err, data, endpoint, request, old(options.Values()), randomDigits, f, old(headers));
              Response() == Held(reply.status, reply.headers, reply.body, old(sends) + 1)
      ensures timerArmed == old(timerArmed) && timerCalled == old(timerCalled) && timerCleared == old(timerCleared)
      ensures options.Values() == old(options.Values()) || options.Values() == Defaulted(old(options.Values()))
    {
      var result := data;
      var responseName := "default";
      if err.Some? {
        var errorMessage := ErrorMessage(err.value);
        result := FailureBody(err.value);
        responseName := SelectResponseName(endpoint.responses, errorMessage, f.matches);
        SelectedNameDeclared(endpoint.responses, errorMessage, f.matches);
      }
      var chosen := FindResponse(endpoint.responses, responseName).value;
      assert chosen == ChosenVariant(err, endpoint.responses, f);
      ReplyWith(chosen, result, request, options, randomDigits, f);
    }

    /** src/index.js:375-491 for the chosen response: rewrite headers from its
        parameters, apply its first template, set the status, content type and
        body, and send. */
    method ReplyWith(chosen: ResponseVariant, result: JsValue, request: Request, options: ContextOptions,
                     randomDigits: string, f: Foreign)
      modifies this, options
      ensures statusCode == StatusCode(chosen)
      ensures headers == ReplyHeaders(old(headers), chosen, result, f)
      ensures source == ReplyBody(result, chosen, request, old(options.Values()), randomDigits, f)
      ensures sends == old(sends) + 1
      ensures timerArmed == old(timerArmed) && timerCalled == old(timerCalled) && timerCleared == old(timerCleared)
      ensures options.Values() == old(options.Values()) || options.Values() == Defaulted(old(options.Values()))
    {
      ghost var h0 := headers;
      ghost var o := options.Values();
      if chosen.responseParameters.Some? {
        ApplyResponseParameters(chosen.responseParameters.value, result, f);
      }
      assert headers == ParamsApplied(h0, chosen.responseParameters, result, f);
      assert options.Values() == o;
      var body, responseContentType := ResponseTemplating(chosen, result, request, options, randomDigits, f);
      assert headers == ParamsApplied(h0, chosen.responseParameters, result, f);
      assert body == ReplyBody(result, chosen, request, o, randomDigits, f);
      headers := headers["Content-Type" := Some(responseContentType)];
      statusCode := StatusCode(chosen);
      source := body;
      sends := sends + 1;
    }

    /** The completion callback as written (src/index.js:333-491): it replies unless
        the timer has already fired, and clears the timer first. */
    method Complete(err: Option<JsError>, data: JsValue, endpoint: Endpoint, request: Request,
                    options: ContextOptions, randomDigits: string, f: Foreign)
      requires "default" in Names(endpoint.responses)
      modifies this, options
      ensures old(timerCalled) ==> Response() == old(Response()) && timerCleared == old(timerCleared)
      ensures old(timerCalled) ==> options.Values() == old(options.Values())
      ensures !old(timerCalled) ==>
                var reply := ReplyFor(err, data, endpoint, request, old(options.Values()), randomDigits, f, old(headers));
                Response() == Held(reply.status, reply.headers, reply.body, old(sends) + 1) && timerCleared
      ensures timerArmed == old(timerArmed) && timerCalled == old(timerCalled)
      ensures options.Values() == old(options.Values()) || options.Values() == Defaulted(old(options.Values()))
    {
      if timerCalled {
        return;
      }
      timerCleared := true;
      Respond(err, data, endpoint, request, options, randomDigits, f);
    }

    /** The handler threw synchronously (src/index.js:510-512): `_reply500`, leaving
        the timer armed. */
    method HandlerThrew(err: JsError)
      modifies this
      ensures Response() == Held(Num(200.0), old(headers), Reply500Body("Uncaught error in your handler", err),
                                 old(sends) + 1)
      ensures timerArmed == old(timerArmed) && timerCalled == old(timerCalled) && timerCleared == old(timerCleared)
    {
      Reply500("Uncaught error in your handler", err);
    }

    /** The completion callback guarded on the timer still pending: a completion
        after the timeout, after a synchronous throw or after an earlier
        completion sends nothing. */
    method CompleteOnce(err: Option<JsError>, data: JsValue, endpoint: Endpoint, request: Request,
                        options: ContextOptions, randomDigits: string, f: Foreign)
      requires "default" in Names(endpoint.responses)
      modifies this, options
      ensures !old(Pending()) ==> Response() == old(Response()) && options.Values() == old(options.Values())
      ensures old(Pending()) ==>
                var reply := ReplyFor(err, data, endpoint, request, old(options.Values()), randomDigits, f, old(headers));
                Response() == Held(reply.status, reply.headers, reply.body, old(sends) + 1)
      ensures !Pending() && timerArmed == old(timerArmed) && timerCalled == old(timerCalled)
      ensures old(Pending()) || timerCleared == old(timerCleared)
      ensures options.Values() == old(options.Values()) || options.Values() == Defaulted(old(options.Values()))
    {
      if !Pending() {
        return;
      }
      timerCleared := true;
      Respond(err, data, endpoint, request, options, randomDigits, f);
    }

    /** A synchronous throw that clears the timer before `_reply500`, and sends
        nothing once the exchange is no longer pending. */
    method HandlerThrewOnce(err: JsError)
      modifies this
      ensures !old(Pending()) ==> Response() == old(Response())
      ensures old(Pending()) ==>
                Response() == Held(Num(200.0), old(headers), Reply500Body("Uncaught error in your handler", err),
                                   old(sends) + 1)
      ensures !Pending() && timerArmed == old(timerArmed) && timerCalled == old(timerCalled)
      ensures old(Pending()) || timerCleared == old(timerCleared)
    {
      if !Pending() {
        return;
      }
      timerCleared := true;
      Reply500("Uncaught error in your handler", err);
    }
  }

  /** src/index.js:286-324: the handler's load failure, or the event rendered from
      the request template for the request's content type (`{}` without one)
      and flagged `isOffline`; a throwing template is a failure too. */
  method PrepareEvent(options: ContextOptions, route: Route, request: Request, payload: JsValue, mime: string,
                      loadError: Option<JsError>, randomDigits: string, f: Foreign)
    returns (outcome: Result<JsValue, Failure>)
    modifies options
    ensures outcome == RequestOutcome(route, request, old(options.Values()), payload, mime, loadError, randomDigits, f)
    ensures options.Values() == old(options.Values()) || options.Values() == Defaulted(old(options.Values()))
  {
    if loadError.Some? {
      return Err(Failure("Error while loading " + route.funName, loadError.value));
    }
    ghost var o := options.Values();
    var contentType := if mime != "" then mime else DefaultContentType;
    var requestTemplate := Field(route.endpoint.requestTemplates, contentType);
    assert requestTemplate == Field(route.endpoint.requestTemplates, RequestContentType(mime));
    var event := Obj([]);
    if Truthy(requestTemplate) {
      var ctx := CreateVelocityContext(request, options, Or(payload, Obj([])), randomDigits);
      assert ctx == BuildContext(request, o, Or(payload, Obj([])), randomDigits);
      var rendered := RenderVelocityTemplateObject(requestTemplate, Renderer(f, ctx), f.parse);
      if rendered.Err? {
        return Err(Failure("Error while parsing template \"" + contentType + "\" for " + route.funName, rendered.error));
      }
      RenderTemplateIsObject(requestTemplate, Renderer(f, ctx), f.parse);
      event := rendered.value;
    }
    return Ok(MarkOffline(event.fields));
  }

  /** The request side of the route handler (src/index.js:259-324 and 494): scope the
      environment, reply 500 on a load failure or a throwing request template,
      otherwise arm the timer and hand the event on. */
  method BeginRequest(scope: EnvScope, options: ContextOptions, ex: Exchange, route: Route, request: Request,
                      payload: JsValue, mime: string, loadError: Option<JsError>, randomDigits: string, f: Foreign)
    returns (event: Option<JsValue>)
    requires !ex.timerArmed
    modifies scope, options, ex
    ensures scope.envVars == (if route.environment.Obj? then route.environment.fields else [])
    ensures scope.env == Scoped(old(scope.env), old(scope.envVars), scope.envVars, f.envString)
    ensures match RequestOutcome(route, request, old(options.Values()), payload, mime, loadError, randomDigits, f)
            case Err(failure) =>
              && event.None?
              && ex.Response() == Held(Num(200.0), old(ex.headers), Reply500Body(failure.message, failure.error),
                                       old(ex.sends) + 1)
              && !ex.timerArmed && ex.timerCalled == old(ex.timerCalled) && ex.timerCleared == old(ex.timerCleared)
            case Ok(ev) =>
              event == Some(ev) && ex.Response() == old(ex.Response()) && ex.Pending()
    ensures options.Values() == old(options.Values()) || options.Values() == Defaulted(old(options.Values()))
  {
    ghost var o := options.Values();
    ghost var held := ex.Response();
    scope.Enter(route.environment, f.envString);
    assert options.Values() == o && ex.Response() == held && !ex.timerArmed;
    ghost var envAfter, varsAfter := scope.env, scope.envVars;
    var outcome := PrepareEvent(options, route, request, payload, mime, loadError, randomDigits, f);
    assert outcome == RequestOutcome(route, request, o, payload, mime, loadError, randomDigits, f);
    assert ex.Response() == held && !ex.timerArmed && scope.env == envAfter && scope.envVars == varsAfter;
    match outcome {
      case Err(failure) =>
        ex.Reply500(failure.message, failure.error);
        event := None;
      case Ok(ev) =>
        ex.ArmTimer();
        event := Some(ev);
    }
  }

  /** What happens after the timer is armed: the timer's expiry, a completion
      of the handler, or a synchronous throw from it. */
  datatype Event = Expiry | Completion(result: Option<JsError>, data: JsValue) | Thrown(thrown: JsError)

  /** A request with the guarded callbacks, whatever happens in whatever
      order: exactly one reply once anything has happened, and a 503 when the
      timer comes first. */
  method Serve(route: Route, request: Request, stageVariables: JsValue, stage: JsValue, randomDigits: string,
               f: Foreign, events: seq<Event>)
    returns (sends: nat, status: JsValue)
    requires "default" in Names(route.endpoint.responses)
    ensures sends == (if events == [] then 0 else 1)
    ensures events != [] && events[0].Expiry? ==> status == Num(503.0)
    ensures events != [] && events[0].Thrown? ==> status == Num(200.0)
    ensures events != [] && events[0].Completion? ==>
              status == StatusCode(ChosenVariant(events[0].result, route.endpoint.responses, f))
  {
    var ex := new Exchange();
    var options := new ContextOptions(stageVariables, stage);
    ex.ArmTimer();
    var i := 0;
    while i < |events|
      invariant 0 <= i <= |events|
      invariant ex.timerArmed
      invariant ex.Pending() <==> i == 0
      invariant ex.sends == (if i == 0 then 0 else 1)
      invariant i > 0 && events[0].Expiry? ==> ex.statusCode == Num(503.0)
      invariant i > 0 && events[0].Thrown? ==> ex.statusCode == Num(200.0)
      invariant i > 0 && events[0].Completion? ==>
                  ex.statusCode == StatusCode(ChosenVariant(events[0].result, route.endpoint.responses, f))
    {
      match events[i] {
        case Expiry =>
          ex.TimerExpires(route.funName, TimeoutMs(route.timeoutSeconds));
        case Completion(err, data) =>
          ex.CompleteOnce(err, data, route.endpoint, request, options, randomDigits, f);
        case Thrown(err) =>
          ex.HandlerThrewOnce(err);
      }
      i := i + 1;
    }
    sends, status := ex.sends, ex.statusCode;
  }

  /** The callbacks as written, when the handler does not throw and completes
      at most once: the guard on the fired timer keeps the reply unique. */
  method ServeAsWritten(route: Route, request: Request, stageVariables: JsValue, stage: JsValue,
                        randomDigits: string, f: Foreign, events: seq<Event>)
    returns (sends: nat, status: JsValue)
    requires "default" in Names(route.endpoint.responses)
    requires forall i :: 0 <= i < |events| ==> !events[i].Thrown?
    requires forall i, j :: 0 <= i < j < |events| ==> !(events[i].Completion? && events[j].Completion?)
    ensures sends == (if events == [] then 0 else 1)
    ensures events != [] && events[0].Expiry? ==> status == Num(503.0)
  {
    var ex := new Exchange();
    var options := new ContextOptions(stageVariables, stage);
    ex.ArmTimer();
    var i := 0;
    while i < |events|
      invariant 0 <= i <= |events|
      invariant ex.timerArmed
      invariant ex.timerCalled || ex.timerCleared <==> i > 0
      invariant ex.timerCleared ==> exists j :: 0 <= j < i && events[j].Completion?
      invariant ex.sends == (if i == 0 then 0 else 1)
      invariant i > 0 && events[0].Expiry? ==> ex.statusCode == Num(503.0)
    {
      match events[i] {
        case Expiry =>
          ex.TimerExpires(route.funName, TimeoutMs(route.timeoutSeconds));
        case Completion(err, data) =>
          ex.Complete(err, data, route.endpoint, request, options, randomDigits, f);
        case Thrown(err) =>
          assert false;
      }
      i := i + 1;
    }
    sends, status := ex.sends, ex.statusCode;
  }

  /** As written, a handler that throws synchronously gets `_reply500`, and the
      timer it left armed sends the timeout reply as well. */
  method SyncThrowThenTimeout(funName: string, timeoutSeconds: nat, err: JsError)
    returns (sends: nat, status: JsValue)
    ensures sends == 2 && status == Num(503.0)
  {
    var ex := new Exchange();
    ex.ArmTimer();
    ex.HandlerThrew(err);
    ex.TimerExpires(funName, TimeoutMs(timeoutSeconds));
    sends, status := ex.sends, ex.statusCode;
  }
}
