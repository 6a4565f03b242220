# serverless-offline route core, modelled in Dafny

serverless-offline emulates AWS Lambda behind API Gateway on a developer's
machine. For every endpoint of every function it mounts an HTTP route. On each
request that route does the following:

- it scopes the function's environment variables into the process;
- it loads the handler;
- it renders the endpoint's request template into the Lambda `event`, using a
  Velocity evaluation context that mocks the gateway's mapping-template
  variables;
- it arms a timeout and calls the handler.

When the handler completes, the route chooses a response. It picks `default`,
or for a failure the first response, in `for...in` order, whose selection
pattern, prefixed with `^`, matches the error message. Then it rewrites headers from the chosen response's
`responseParameters` and applies its first `responseTemplates` entry. Last, it
sets the status (`statusCode || 200`) and the content type, and sends the
reply. Load failures, request-template failures and synchronous throws are answered by
`_reply500` with a Lambda-style error body and status 200. A response template
that throws is caught, and the result is sent as it was. A handler that does
not finish in time is answered by `_replyTimeout` with status 503.

The model has six modules:

- `JsValues` (`js_values.dfy`): JavaScript values, with plain objects as ordered
  property lists, truthiness, `||` and property access.
- `Strings` (`strings.dfy`): `split`/`join` with JavaScript's semantics, ASCII
  upper-casing and decimal formatting of naturals.
- `Render` (`render.dfy`): `renderVelocityTemplateObject` and its helpers. The
  recursive definition is `RenderTemplate`. The key-by-key method
  `RenderVelocityTemplateObject` is proved equal to it.
- `VelocityContext` (`velocity_context.dfy`): `createVelocityContext`. The
  options object it writes its defaults into is a class. The context it
  returns is a value.
- `OfflineRules` (`offline_rules.dfy`): the route rules that need no request:
  - prefix and path normalisation;
  - the timeout;
  - environment scoping (a class over the process environment and the injected
    names);
  - response selection;
  - the Lambda error body;
  - header rewriting;
  - content type and status.
- `Offline` (`offline_route.dfy`): one request through a route. It covers the
  request side (`PrepareEvent`, `BeginRequest`), the response side (`Respond`,
  `ReplyWith` on the held response `Exchange`), the timer guard, `_reply500`
  and `_replyTimeout`. Each imperative method is proved equal to a
  function (`RequestOutcome`, `ReplyFor`, `HeadersAfter`,
  `ReplyBody`), and lemmas state what those functions mean.

Foreign code enters as function parameters, grouped in `Offline.Foreign`:

- the Velocity engine (rendering a string against a context; it may throw);
- `JSON.parse` and `JSON.stringify`;
- `jsonPath`;
- the regular-expression engine behind `String.prototype.match`;
- the string coercion `process.env` applies.

`Math.random` is the `randomDigits` parameter. Whether `require` of the
handler failed is the `loadError` parameter.

A bare-string template whose rendering throws does not degrade to an empty
object. src/renderVelocityTemplateObject.js:44 does not guard the call to
`renderVelocityString`, so the error reaches the caller. The model propagates
it (`Render.StringTemplate`, `Render.BareStringOutcome`).

## Model

| member | source | states |
|---|---|---|
| Strings.Split | src/index.js:387-388 | `key.split('.')` and `value.split('.')`: at least one piece, and no piece holds the separator. |
| Strings.JoinSplit | src/index.js:395 | Joining the pieces of a split with the separator gives back the string. |
| Strings.SplitJoin | src/index.js:395 | Splitting a join of separator-free pieces gives back the pieces, so `keyArray.slice(3).join('.')` keeps the segments. |
| Strings.ToUpperCase | src/authorizeEndpointRequest.js:21 | `toUpperCase()` keeps the length and upper-cases each ASCII letter in place. |
| Strings.NatToString | src/index.js:543 | `${funTimeout}` for a whole number: at least one decimal digit, and no leading zero unless the number is 0. |
| Strings.NatToStringValue | src/index.js:543 | Reading the printed digits back gives the number. |
| Render.TryToParseJSON | src/renderVelocityTemplateObject.js:81-91 | The result is the parsed value when parsing succeeds with a truthy value; otherwise it is the input itself. A truthy input never comes back falsy. |
| Render.RetypeRendered | src/renderVelocityTemplateObject.js:62-78 | The texts `undefined`, `null` and `false` become exactly those values (in both directions), and `true` becomes true. Any other text goes through the JSON parse-or-keep rule. |
| Render.RenderVelocityString | src/renderVelocityTemplateObject.js:52-79 | Rendering a leaf fails exactly when the Velocity engine throws, with the engine's error. Otherwise the engine's text is retyped. |
| Render.RenderTemplate | src/renderVelocityTemplateObject.js:15-50 | What a whole template renders to: a string template is parsed first, then processed. No contract of its own. Its meaning is stated by `RenderObjectShape`, `RenderObjectError`, `RenderTemplateIsObject`, `StringTemplate`, `BareStringOutcome`, `OtherTemplate` and `NoThrowTemplate`. |
| Render.RenderProcessed | src/renderVelocityTemplateObject.js:24-49 | The branch after the first parse: a plain object is rendered property by property, a string is rendered whole, and anything else gives `{}`. Stated by `StringTemplate` and `OtherTemplate`. |
| Render.RenderField | src/renderVelocityTemplateObject.js:30-36 | The rule for one property value: strings are rendered, plain objects recursed into, anything else copied. Stated by `RenderObjectShape` and `NoThrowObject`. |
| Render.RenderObject | src/renderVelocityTemplateObject.js:25-37 | The `for...in` loop as a recursion over the properties, the first error ending it. Stated by `RenderObjectShape`, `RenderObjectError`, `ObjectErrorPersists` and `RenderObjectAppend`. |
| Render.RenderVelocityTemplateObject | src/renderVelocityTemplateObject.js:15-50 | The loop that builds the result property by property returns exactly the recursive definition `RenderTemplate` (the result, or the first error). |
| Render.RenderObjectShape | src/renderVelocityTemplateObject.js:24-37 | A successful render keeps the template's property names in order. Each rendered value is the rendering of the template's value at the same position. |
| Render.RenderObjectError | src/renderVelocityTemplateObject.js:25-37 | An object fails exactly when one of its properties fails. The error is that of the first failing property. |
| Render.ObjectErrorPersists | src/renderVelocityTemplateObject.js:25-37 | Once a prefix of the properties has failed, the later properties do not change the outcome. |
| Render.NoThrowTemplate | src/renderVelocityTemplateObject.js:15-50 | If the Velocity engine never throws, rendering never fails. The engine adds no error of its own. |
| Render.NoThrowObject | src/renderVelocityTemplateObject.js:24-37 | If the Velocity engine never throws, the property loop never fails. |
| Render.RenderTemplateIsObject | src/renderVelocityTemplateObject.js:15-50 | Every successful render is a plain object, whatever the template was. |
| Render.StringTemplate | src/renderVelocityTemplateObject.js:20-21 | A string template is parsed first: (1) a plain object is rendered as that object; (2) a string is rendered whole, retyped and re-parsed, and kept only when the outcome is a plain object, else `{}`, with an engine error propagated; (3) anything else gives `{}`. Cited range is 20-21 and also 40-47. |
| Render.BareStringOutcome | src/renderVelocityTemplateObject.js:40-47 | For a JSON parser that treats non-strings as JavaScript does (`JsonLike`), a bare string template gives: the engine's error; the rendered text's plain object when it reads as one; `{}` when it reads as `undefined`, `null` or a boolean. |
| Render.OtherTemplate | src/renderVelocityTemplateObject.js:17-49 | A template that is neither a string nor a plain object gives `{}`. |
| Render.RenderObjectAppend | src/renderVelocityTemplateObject.js:25-37 | Rendering one more property appends its rendered value to the rendered prefix. |
| Render.RenderSingleProperty | src/renderVelocityTemplateObject.js:25-37 | `{k: v}` renders to `{k: rendered v}`, or fails with the error of `v`. |
| Render.IdentityRender | src/renderVelocityTemplateObject.js:62-77 | With an engine that returns its input, `{a: "true", b: {c: "null"}}` renders to `{a: true, b: {c: null}}`, whatever the JSON parser. |
| VelocityContext.ContextOptions.constructor | src/index.js:142-145 | The options object the plugin builds once holds only the stage variables and the stage. |
| VelocityContext.ContextOptions.ApplyDefaults | src/authorizeEndpointRequest.js:16-18 | The options object becomes `Defaulted` of what it was. |
| VelocityContext.Defaulted | src/authorizeEndpointRequest.js:16-18 | Authorizer, identity and stage variables each keep their value when it was truthy and become `{}` otherwise, so all three are truthy. The other options are untouched. |
| VelocityContext.Chosen | src/authorizeEndpointRequest.js:33-50 | `option || 'offlineContext_...'`: the option when it is truthy, else the sentinel string. Stated by `SentinelDefaults` and `IdentityFieldsTruthy`. |
| VelocityContext.DefaultedIdempotent | src/authorizeEndpointRequest.js:15-18 | Defaulting twice is defaulting once. This is why the shared options object can be defaulted on every request. |
| VelocityContext.DefaultedField | src/authorizeEndpointRequest.js:16-18 | Reading a field of a value defaulted to `{}` gives what reading the original gives. |
| VelocityContext.ContextFields | src/authorizeEndpointRequest.js:19-65 | The context takes from its inputs: the upper-cased method, the request id behind `offlineContext_requestId_`, the defaulted stage variables, the stage, the route path, the remote address, the `user-agent` header, and the payload (`{}` when falsy). |
| VelocityContext.BuildContext | src/authorizeEndpointRequest.js:15-65 | The context built from the request, the options as they were, the payload and the random digits. No contract of its own. Its meaning is stated by `ContextFields`, `SentinelDefaults`, `IdentityFieldsTruthy`, `NoOptionsContext`, `HttpMethodUpperCase` and `PayloadQueried`. |
| VelocityContext.InputPath | src/authorizeEndpointRequest.js:22-29 | `input.path(x)`: `x` queried on the defaulted payload. Stated by `PayloadQueried`. |
| VelocityContext.InputJson | src/authorizeEndpointRequest.js:55 | `input.json(x)`: the JSON text of `input.path(x)`. Stated by `PayloadQueried`. |
| VelocityContext.SentinelDefaults | src/authorizeEndpointRequest.js:33-50 | Every identity and authorizer field, the api id and the resource id is the caller's option when truthy, else its fixed `offlineContext_*` sentinel. This holds whatever the nested objects were. |
| VelocityContext.IdentityFieldsTruthy | src/authorizeEndpointRequest.js:33-50 | None of those fields is ever falsy. |
| VelocityContext.NoOptionsContext | src/authorizeEndpointRequest.js:15-53 | With no options, every field is its sentinel, the stage variables are `{}` and the stage is undefined. |
| VelocityContext.HttpMethodUpperCase | src/authorizeEndpointRequest.js:21 | The method keeps its length and has no lower-case ASCII letter left. |
| VelocityContext.CreateVelocityContext | src/authorizeEndpointRequest.js:13-76 | The method writes the defaults into the options object it is given (a fresh one when given none). It returns the context built from the options as they were before. |
| VelocityContext.Params | src/authorizeEndpointRequest.js:56-62 | `input.params(name)` is the first truthy of the path parameter, query parameter and header (the header itself when none is truthy). Called with a non-string, it is `{path, querystring, header}`, in that order. |
| VelocityContext.PayloadQueried | src/authorizeEndpointRequest.js:19-29 | `input.path` and `input.json` query the payload, or `{}` when the payload was falsy. |
| OfflineRules.NormalisedPrefix | src/index.js:119-138 | The prefix starts and ends with `/`. An empty prefix gives `/`. An already normal prefix is unchanged. Otherwise it is the user's prefix with a `/` added in front and behind only where one is missing. |
| OfflineRules.NormalisedPrefixIdempotent | src/index.js:136-138 | Normalising a normalised prefix changes nothing. |
| OfflineRules.PluginOptions.constructor | src/index.js:117-138 | The stored prefix is the normalised user prefix. |
| OfflineRules.RoutePath | src/index.js:235-236 | When the joined path is not `/` and ends with `/`, the route path is it with exactly that one trailing `/` removed; otherwise it is the joined path. |
| OfflineRules.JoinedPath | src/index.js:235 | The prefix followed by the endpoint path less one leading `/`. Stated by `RoutePath`, `RoutePathShape` and `LeadingSlashIgnored`. |
| OfflineRules.RoutePathShape | src/index.js:234-236 | Under a normalised prefix the route path starts with `/`. It ends with `/` only when it is `/` or the joined path (prefix plus endpoint path) ends in `//`, as with prefix `/a//` and an empty endpoint path. |
| OfflineRules.LeadingSlashIgnored | src/index.js:235 | An endpoint path with or without its leading `/` gives the same route. |
| OfflineRules.TimeoutMs | src/index.js:218 | The timeout is positive and a whole number of seconds in milliseconds: the configured seconds times 1000, or 6000 when unset. |
| OfflineRules.InjectedKeys | src/index.js:275-278 | The injected variables are exactly the environment's property names. |
| OfflineRules.InjectedLookup | src/index.js:276-278 | Each injected variable holds its own property's value, coerced to a string. |
| OfflineRules.Injected | src/index.js:275-278 | The variables the second loop sets, property by property. Stated by `InjectedKeys` and `InjectedLookup`. |
| OfflineRules.Scoped | src/index.js:269-278 | The environment after the previous request's names are deleted and the new ones set. Stated by `ScopedExclusive`; `EnvScope.Enter` is proved equal to it. |
| OfflineRules.ScopedExclusive | src/index.js:269-278 | After a request is scoped, (1) its variables are set, (2) the previous request's other variables are gone, and (3) every variable neither request declared is left alone. |
| OfflineRules.EnvScope.constructor | src/index.js:94 | The plugin starts with no injected variables. |
| OfflineRules.EnvScope.Enter | src/index.js:269-278 | The two loops leave the environment equal to `Scoped` (delete the previous names, then inject the new ones). They record the new environment's properties, or none when it is not a plain object. |
| OfflineRules.SelectedNameFirstMatch | src/index.js:358-366 | The selected response is the first non-`default` response in `for...in` order (integer-like names ascending first) whose pattern, tried as the regular expression `^` + pattern, matches the message. It is `default` when none matches. |
| OfflineRules.SelectedName | src/index.js:358-366 | The name the selection loop picks. Stated by `SelectedNameFirstMatch` and `SelectedNameDeclared`; `SelectResponseName` is proved equal to it. |
| OfflineRules.SelectionRegex | src/index.js:362 | The regular expression tried for a response: `^` followed by its selection pattern, or by its name when it has none. Used by `Selects`; stated through `SelectedNameFirstMatch`. |
| OfflineRules.Selects | src/index.js:359-362 | A response other than `default` whose `SelectionRegex` matches the message. Stated through `SelectedNameFirstMatch` and `ChosenResponse`. |
| OfflineRules.SelectResponseName | src/index.js:358-366 | The `for...in` loop with `continue` and `break` returns exactly `SelectedName`. |
| OfflineRules.SelectedNameDeclared | src/index.js:358-371 | The selected name is `default` or a declared response's name. |
| OfflineRules.FindResponse | src/index.js:371 | The lookup finds a response exactly when the name is declared. |
| Offline.FindResponseAt | src/index.js:371 | With distinct names, `endpoint.responses[name]` for a listed name is that response. |
| OfflineRules.StackTraceLines | src/index.js:352 | The stack trace is null exactly when there is no stack. Otherwise it is the stack's lines: none holds a line break, and joined with line breaks they give back the stack. |
| OfflineRules.FailureBodyFields | src/index.js:346-353 | The failure result holds, in order: `errorMessage` (the message, or the error's string form when the message is empty), `errorType` (the constructor's name) and `stackTrace`. |
| OfflineRules.ErrorMessage | src/index.js:346 | `err.message || err.toString()`. Stated by `FailureBodyFields`. |
| OfflineRules.StackTrace | src/index.js:352 | The stack split on line breaks, or null without a stack. Stated by `StackTraceLines`. |
| OfflineRules.FailureBody | src/index.js:349-353 | The Lambda-style failure result. Stated by `FailureBodyFields`. |
| OfflineRules.ErrorFields | src/index.js:349-353 | The three error properties shared by the failure result and the `_reply500` body (src/index.js:531-534). Stated by `ErrorFieldsShape`, `FailureBodyFields` and `Reply500BodyFields`. |
| OfflineRules.ErrorFieldsShape | src/index.js:349-353 | The error properties are `errorMessage`, `errorType` and `stackTrace`, in order, holding the message, the constructor name and the stack trace. |
| OfflineRules.HeaderRuleName | src/index.js:394-396 | A parameter sets a header exactly when its key starts with `method.response.header` and has a non-empty fourth segment. The key is then its first three segments, a dot and the header name. The name's segments are the key's segments from the fourth on. |
| OfflineRules.HeaderNamed | src/index.js:394-396 | `method.response.header.<name>` sets header `<name>`, for every name that is not empty and does not start with a dot, dots inside included. |
| OfflineRules.HeaderValue | src/index.js:400-415 | A right-hand side not starting with `integration.response` is assigned verbatim. One that does, but has no third segment `body` (fewer than three segments included), assigns `undefined`. |
| OfflineRules.HeaderFromBody | src/index.js:401-404 | `integration.response.body` assigns the JSON text of the whole result. |
| OfflineRules.HeaderFromBodyPath | src/index.js:401-404 | `integration.response.body.<path>` assigns the JSON text of what `<path>` selects in the result. |
| OfflineRules.HeaderValueOf | src/index.js:399-415 | The value one right-hand side assigns. Stated by `HeaderValue`, `HeaderFromBody` and `HeaderFromBodyPath`. |
| OfflineRules.HeaderRule | src/index.js:386-426 | What one `responseParameters` entry does: the header it sets and its value, or nothing. Stated by `HeaderRuleName` and `HeaderNamed`. |
| OfflineRules.HeadersAfter | src/index.js:383-427 | The headers after the `forEach` over the parameters. Stated by `HeadersAfterKeeps` and `HeadersAfterSets`; `Exchange.ApplyResponseParameters` is proved equal to it. |
| OfflineRules.HeadersAfterKeeps | src/index.js:384-427 | A header that no parameter names keeps its presence and value. |
| OfflineRules.HeadersAfterSets | src/index.js:383-427 | A header named by some parameter holds the value assigned by the last parameter naming it. |
| OfflineRules.ResponseContentType | src/index.js:433-445 | The content type is the first key of a non-empty plain-object `responseTemplates`, whatever its template. Otherwise it is `application/json`. |
| OfflineRules.TemplateToApply | src/index.js:433-447 | A template is applied exactly when the first template of a non-empty plain-object `responseTemplates` is truthy, and it is that template. |
| OfflineRules.StatusCode | src/index.js:466 | The status is never falsy. It is the response's status code when that is truthy, else 200. |
| Offline.Reply500BodyKeys | src/index.js:531-536 | The `_reply500` body holds, in order, `errorMessage`, `errorType`, `stackTrace` and `offlineInfo`. |
| Offline.Reply500BodyFields | src/index.js:531-536 | That body carries the given message, the error's constructor name and stack trace, and the fixed issue-tracker note. |
| Offline.Reply500Body | src/index.js:531-536 | The body `_reply500` sends. Stated by `Reply500BodyKeys` and `Reply500BodyFields`. |
| Offline.TimeoutMessageNamesLimit | src/index.js:543 | The timeout text names the function and the limit, the limit written in decimal digits with no leading zero that read back as the milliseconds. |
| Offline.TimeoutMessage | src/index.js:543 | The text `_replyTimeout` sends. Stated by `TimeoutMessageNamesLimit`. |
| Offline.RequestEventFlagged | src/index.js:305-324 | Every event is a plain object with `isOffline: true` and every other property the template produced. Without a template for the content type it is `{isOffline: true}`. |
| Offline.RequestFailures | src/index.js:286-322 | The request side fails exactly in two cases: (1) on a load failure, with `Error while loading <name>`; (2) on a truthy request template whose rendering throws, with that error. |
| Offline.RequestOutcome | src/index.js:260-324 | The event handed to the handler, or the failure `_reply500` answers. Stated by `RequestEventFlagged` and `RequestFailures`; `PrepareEvent` is proved equal to it. |
| Offline.RequestContentType | src/index.js:260 | `request.mime || defaultContentType`. Stated through `RequestEventFlagged` and `RequestFailures`. |
| Offline.MarkOffline | src/index.js:324 | `event.isOffline = true`. Stated by `RequestEventFlagged`. |
| Offline.EventKeyOrder | src/index.js:324 | Flagging keeps the event's property order: `isOffline` keeps its place when the template produced it and is appended last otherwise. |
| Offline.ChosenResponse | src/index.js:339-371 | On success, or when no pattern matches, the chosen response is `default`. Otherwise it is the first non-`default` response in `for...in` order (integer-like names ascending first) whose pattern, tried as the regular expression `^` + pattern, matches the error message. |
| Offline.ChosenVariant | src/index.js:339-371 | The response the completion callback uses. Stated by `ChosenResponse`. |
| Offline.ChosenName | src/index.js:339-366 | `default` on success, else the name the selection loop picks for the error message. Stated through `ChosenResponse`. |
| Offline.ResultOf | src/index.js:338-353 | The data on success, else the failure result. Stated through `ReplyBodyRendered` and `FailureBodyFields`. |
| Offline.ResponseTemplateOutcome | src/index.js:452-459 | The response template is rendered as a property value would be. When that throws, the result is kept unchanged. |
| Offline.ApplyResponseTemplate | src/index.js:452-459 | `{root: template}` rendered and its `root` taken, or the result kept when rendering throws. Stated by `ResponseTemplateOutcome`. |
| Offline.ReplyFor | src/index.js:466-475 | The reply's status is the chosen response's truthy status. Its content type is set from the chosen response's templates. |
| Offline.ReplyBodyRendered | src/index.js:432-475 | The body is the data or the failure body, unless the chosen response has a truthy first template: then it is that template rendered against a context for the result, or the unchanged result when rendering throws. |
| Offline.ReplyBody | src/index.js:432-462 | The body after response templating. Stated by `ReplyBodyRendered`; `ResponseTemplating` is proved to return it. |
| Offline.ReplyHeadersKept | src/index.js:375-473 | A header that no parameter of the chosen response names keeps its value, and `Content-Type` is always set. |
| Offline.ReplyHeaders | src/index.js:375-428 | The headers after the parameters and the content type. Stated by `ReplyHeadersKept`, `ReplyFor`, `HeadersAfterKeeps` and `HeadersAfterSets`. |
| Offline.ParamsApplied | src/index.js:375-377 | The parameters are applied only when `responseParameters` is a plain object. Stated through `ReplyHeadersKept`. |
| Offline.RenderResponseTemplate | src/index.js:452-459 | The method returns `ApplyResponseTemplate` for a context built from the options as they were. It defaults the shared options. |
| Offline.ResponseTemplating | src/index.js:433-462 | The method returns `ReplyBody` and `ResponseContentType` of the chosen response. |
| Offline.Exchange.constructor | src/index.js:259 | A held response starts with status 200, no headers, no body, nothing sent, and no timer. |
| Offline.Exchange.Reply500 | src/index.js:527-538 | `_reply500` sets status 200 and the error body, keeps the headers and sends once more. The timer is untouched. |
| Offline.Exchange.ReplyTimeout | src/index.js:540-545 | `_replyTimeout` sets status 503 and the timeout text, keeps the headers and sends once more. |
| Offline.Exchange.ArmTimer | src/index.js:494 | Arming the timer leaves the response as it was. The exchange is then pending. |
| Offline.Exchange.TimerExpires | src/index.js:494 | A pending timer fires and replies with the timeout. A cleared or unarmed timer does nothing. |
| Offline.Exchange.ApplyResponseParameters | src/index.js:384-427 | The `forEach` over the parameters leaves the headers equal to `HeadersAfter` and changes nothing else. |
| Offline.Exchange.Respond | src/index.js:338-491 | The completion callback's reply is exactly `ReplyFor` of the options and headers as they were: status, headers and body, sent once more. |
| Offline.Exchange.ReplyWith | src/index.js:375-491 | For the chosen response, the status, headers and body become `StatusCode`, `ReplyHeaders` and `ReplyBody`, and one more send happens. |
| Offline.Exchange.Complete | src/index.js:331-336 | As written: after the timer fired, a completion changes nothing. Otherwise it clears the timer and replies with `ReplyFor`. The shared options are unchanged or defaulted. |
| Offline.Exchange.HandlerThrew | src/index.js:510-512 | As written: a synchronous throw replies with `_reply500` and leaves the timer armed. |
| Offline.Exchange.CompleteOnce | src/index.js:331-336 | Corrected guard: a completion replies only while the exchange is pending, and always leaves it no longer pending. The shared options are unchanged or defaulted. |
| Offline.Exchange.HandlerThrewOnce | src/index.js:510-512 | Corrected: a synchronous throw clears the timer and replies with `_reply500`, only while pending. |
| Offline.PrepareEvent | src/index.js:286-324 | The request side returns exactly `RequestOutcome` of the options as they were, and at most defaults the options. |
| Offline.BeginRequest | src/index.js:259-324 | The environment is scoped. A failing request side replies with `_reply500` and leaves the timer unarmed and its other flags as they were. Otherwise the event is handed on and the timer armed, with nothing sent. The shared options are unchanged or defaulted. |
| Offline.Serve | src/index.js:331-336 | With the corrected guards, any sequence of expiries, completions and synchronous throws sends exactly one reply once anything happened. The first event decides the status: 503 for the timer, 200 for a throw, the chosen response's status for a completion. |
| Offline.ServeAsWritten | src/index.js:331-336 | As written, without synchronous throws and with at most one completion, exactly one reply is sent, and it is 503 when the timer comes first. |
| Offline.SyncThrowThenTimeout | src/index.js:510-512 | As written, a synchronous throw followed by the timer's delay sends twice, the last status being 503. |

## Left out

- Handler loading is not modelled: Babel registration, `require`-cache invalidation, and handler resolution or its type check. Their outcome is the `loadError` parameter.
- Handler invocation is not modelled: the promise adaptation for the Babel runtime and `createLambdaContext`. The handler's effects are the `Event` sequence given to `Offline.Serve`.
- The Hapi server, TLS, the `firstCall` logging, `process.exit` and all logging are left out.
- Route registration is left out, and two of its effects on the reply with it. The `cors` configuration (src/index.js:241) makes Hapi add CORS headers, which the modelled headers do not include. For every route other than GET and HEAD, `payload.override` (src/index.js:244) makes the request's content type `application/json`. In the model `mime` is a free parameter of `PrepareEvent`, `BeginRequest` and `RequestOutcome`, so that override is not modelled.
- The `util` functions of the context (`escapeJavaScript`, `urlEncode`, `urlDecode`, `base64Encode`, `base64Decode`) are foreign and left out of `VelocityContext.Context`.
- `Math.random` is not modelled. The digits it contributes to the request id are the `randomDigits` parameter.
- Numbers are `real`, so NaN and -0 are not modelled. The timeout is whole seconds (`nat`). `${funTimeout}` is decimal formatting of that integer.
- Timing is not modelled: the timer is three flags (armed, fired, cleared), and the order of events is the input sequence.
- `String.prototype.toUpperCase` is modelled on ASCII letters only.
- `responseParameters` values are strings in the model. A non-string value makes `value.split` throw in the callback, and that case is not modelled.
- Headers are a map keyed by the exact name. Hapi's case-insensitive header names are not modelled. A header assigned `undefined` is recorded as `None`.
- A route whose endpoint has no `requestTemplates` object is modelled as having no template for any content type. The code would throw reading a property of `undefined`.
- Offline.ChosenVariant, Offline.ReplyFor, Offline.Exchange.Respond and Offline.Serve require a `default` response. The configuration always declares one. Without it the code reads `responseParameters` of `undefined` and the callback throws, which is not modelled.
- Offline.ServeAsWritten requires no synchronous throw and at most one completion. It states the as-written uniqueness only where it holds. A synchronous throw is the finding below. A second completion, or a completion after a synchronous throw, passes the guard at src/index.js:335, which checks only whether the timer fired, and replies again as written. Whether a second completion can reach the callback depends on `createLambdaContext`, which is not part of this model.
- Offline.Serve rests on two corrections, not one. `Exchange.HandlerThrewOnce` clears the timer on a synchronous throw (the finding below). `Exchange.CompleteOnce` also ignores a completion once the exchange is no longer pending. That covers a second completion and a completion after a throw, where line 335 checks only that the timer has not fired.
- OfflineRules.RegexMatch is a total boolean function, so `Offline.ChosenVariant` and `OfflineRules.SelectedName` do not model a selection pattern or response name that is not a valid regular expression. In the code, `errorMessage.match` (src/index.js:362) then throws inside the completion callback, after the timer was cleared at line 336. The model does not follow that error: it reaches the catch at line 510 only when the handler completed synchronously.
- `JSON.parse` is a parameter. Only `Render.BareStringOutcome` assumes what JavaScript fixes for non-string arguments (`Render.JsonLike`): plain objects and `undefined` throw; `null` and booleans read back as themselves. The other render lemmas hold for any parser.
- An endpoint's responses are given to the model as a sequence already in `for...in` enumeration order: integer-like names ascending first, then the others in declaration order. Producing that order from the configuration object is not modelled.
- Offline.ChosenResponse and OfflineRules.ScopedExclusive require distinct response and property names, as object keys always are.
- `stageVariables` and `stage` are taken as given. Reading them from the project's `_meta` stages is not modelled.

## Findings

| source | as written | input that shows it | evidently intended | confidence | as-written member | corrected member |
|---|---|---|---|---|---|---|
| src/index.js:510-512 | A synchronous throw from the handler calls `_reply500` without clearing the timeout armed at line 494. When the timer fires, `_replyTimeout` sets status 503 and sends the same held response a second time. | A handler that throws synchronously, on any route: the throw is followed by the timer's expiry after the function's timeout. | A request is answered once: the synchronous throw should clear the timer, as the completion callback does at line 336. | not executed; Hapi may ignore or reject the second send of the held response | Offline.SyncThrowThenTimeout | Offline.Exchange.HandlerThrewOnce |
