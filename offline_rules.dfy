/** The per-route rules of the plugin (src/index.js) that do not depend on the
    request's lifecycle: prefix and route-path normalisation, the timeout, the
    scoping of environment variables, response selection, the Lambda-style error
    envelope, header rewriting from `responseParameters`, and the choice of
    content type and status code. */
module OfflineRules {
  import opened JsValues
  import opened Strings

  const DefaultContentType := "application/json"
  const DefaultTimeoutMs: nat := 6000

  // ---------------------------------------------------------------------------
  // Prefix and route path

  /** The prefix after `_setOptions`: the user's prefix (`/` when none was
      given), with a `/` put in front and behind only where one is missing. */
  function NormalisedPrefix(userPrefix: string): (p: string)
    ensures StartsWith(p, "/") && EndsWith(p, "/")
    ensures userPrefix == "" ==> p == "/"
    ensures StartsWith(userPrefix, "/") && EndsWith(userPrefix, "/") ==> p == userPrefix
    ensures userPrefix != "" ==>
              p in {userPrefix, "/" + userPrefix, userPrefix + "/", "/" + userPrefix + "/"}
    ensures userPrefix != "" ==>
              |p| == |userPrefix| + (if StartsWith(userPrefix, "/") then 0 else 1)
                                  + (if EndsWith(userPrefix, "/") then 0 else 1)
  {
    var given := if userPrefix != "" then userPrefix else "/";
    var front := if StartsWith(given, "/") then given else "/" + given;
    if EndsWith(front, "/") then front else front + "/"
  }

  /** Normalising an already normalised prefix changes nothing. */
  lemma NormalisedPrefixIdempotent(userPrefix: string)
    ensures NormalisedPrefix(NormalisedPrefix(userPrefix)) == NormalisedPrefix(userPrefix)
  {
  }

  /** The plugin's options; only the prefix takes part in the route rules. */
  class PluginOptions {
    var prefix: string

    /** `prefix: userOptions.prefix || '/'`, then the two fix-ups. */
    constructor (userPrefix: string)
      ensures prefix == NormalisedPrefix(userPrefix)
    {
      var p := if userPrefix != "" then userPrefix else "/";
      if !StartsWith(p, "/") {
        p := "/" + p;
      }
      if !EndsWith(p, "/") {
        p := p + "/";
      }
      prefix := p;
    }
  }

  /** The prefix followed by the endpoint path without its leading `/`. */
  function JoinedPath(prefix: string, epath: string): string {
    prefix + (if StartsWith(epath, "/") then epath[1..] else epath)
  }

  /** The route's path: the joined path with one trailing `/` removed, unless
      the path is `/` itself. */
  function RoutePath(prefix: string, epath: string): (path: string)
    ensures var joined := JoinedPath(prefix, epath);
            if joined != "/" && EndsWith(joined, "/") then path + "/" == joined else path == joined
  {
    var joined := JoinedPath(prefix, epath);
    if joined != "/" && EndsWith(joined, "/") then joined[..|joined| - 1] else joined
  }

  /** Under a normalised prefix a route path starts with `/`, and it ends with
      `/` only when it is `/` or the endpoint path ended with two slashes. */
  lemma RoutePathShape(prefix: string, epath: string)
    requires StartsWith(prefix, "/") && EndsWith(prefix, "/")
    ensures var path := RoutePath(prefix, epath);
            && StartsWith(path, "/")
            && (EndsWith(path, "/") ==> path == "/" || EndsWith(JoinedPath(prefix, epath), "//"))
  {
    var joined := JoinedPath(prefix, epath);
    assert prefix[0] == '/' by { assert prefix[..1][0] == prefix[0]; }
    assert joined[0] == '/';
    var path := RoutePath(prefix, epath);
    if path != joined {
      var n := |joined|;
      assert n >= 2;
      assert path == joined[..n - 1] && path[0] == '/';
      assert path[..1] == [path[0]];
      if EndsWith(path, "/") {
        assert path[|path| - 1..] == [path[|path| - 1]];
        assert joined[n - 1..] == [joined[n - 1]];
        assert joined[n - 2..] == [joined[n - 2], joined[n - 1]];
      }
    } else {
      assert path[..1] == [path[0]];
    }
  }

  /** Writing the endpoint path with or without its leading `/` gives the same
      route. */
  lemma LeadingSlashIgnored(prefix: string, epath: string)
    requires !StartsWith(epath, "/")
    ensures RoutePath(prefix, "/" + epath) == RoutePath(prefix, epath)
  {
    assert ("/" + epath)[1..] == epath;
  }

  // ---------------------------------------------------------------------------
  // Timeout

  /** `fun.timeout ? fun.timeout * 1000 : 6000`, for a timeout given in whole
      seconds (0 when unset). */
  function TimeoutMs(timeoutSeconds: nat): (ms: nat)
    ensures ms > 0 && ms % 1000 == 0
    ensures timeoutSeconds > 0 ==> ms / 1000 == timeoutSeconds
    ensures timeoutSeconds == 0 ==> ms == DefaultTimeoutMs
  {
    if timeoutSeconds > 0 then timeoutSeconds * 1000 else DefaultTimeoutMs
  }

  // ---------------------------------------------------------------------------
  // Environment variables

  function KeySet(es: seq<Entry>): set<string> {
    set i | 0 <= i < |es| :: es[i].key
  }

  /** The variables a plain-object environment injects, property by property;
      a later property overrides an earlier one of the same name. */
  function Injected(es: seq<Entry>, toEnvString: JsValue -> string): map<string, string> {
    if es == [] then map[]
    else Injected(es[..|es| - 1], toEnvString)[es[|es| - 1].key := toEnvString(es[|es| - 1].value)]
  }

  /** The names of a run of properties followed by one more. */
  lemma KeySetAppend(es: seq<Entry>, e: Entry)
    ensures KeySet(es + [e]) == KeySet(es) + {e.key}
  {
    var all := es + [e];
    assert forall i :: 0 <= i < |es| ==> all[i] == es[i];
    assert all[|es|] == e;
  }

  /** The variables injected are exactly the environment's names. */
  lemma {:induction false} InjectedKeys(es: seq<Entry>, toEnvString: JsValue -> string)
    ensures Injected(es, toEnvString).Keys == KeySet(es)
  {
    if es != [] {
      var n := |es| - 1;
      InjectedKeys(es[..n], toEnvString);
      KeySetAppend(es[..n], es[n]);
      assert es[..n] + [es[n]] == es;
    }
  }

  /** With distinct names, each injected variable holds its own property's
      value converted to a string. */
  lemma {:induction false} InjectedLookup(es: seq<Entry>, toEnvString: JsValue -> string, i: nat)
    requires DistinctKeys(es)
    requires i < |es|
    ensures es[i].key in Injected(es, toEnvString)
    ensures Injected(es, toEnvString)[es[i].key] == toEnvString(es[i].value)
  {
    var n := |es| - 1;
    if i < n {
      var front := es[..n];
      assert front[i] == es[i];
      assert DistinctKeys(front) by {
        forall a, b | 0 <= a < b < |front| ensures front[a].key != front[b].key {
          assert front[a] == es[a] && front[b] == es[b];
        }
      }
      InjectedLookup(front, toEnvString, i);
      assert es[i].key != es[n].key;
    }
  }

  /** The environment `env` after a request whose predecessor injected `prev`
      and whose own environment is `next`. */
  function Scoped(env: map<string, string>, prev: seq<Entry>, next: seq<Entry>,
                  toEnvString: JsValue -> string): map<string, string> {
    (env - KeySet(prev)) + Injected(next, toEnvString)
  }

  /** Scoping is exclusive: the new environment's variables are set, the
      previous request's other variables are gone, and every other variable is
      left alone. */
  lemma ScopedExclusive(env: map<string, string>, prev: seq<Entry>, next: seq<Entry>,
                        toEnvString: JsValue -> string, k: string)
    requires DistinctKeys(next)
    ensures var e := Scoped(env, prev, next, toEnvString);
            && (forall i :: 0 <= i < |next| && next[i].key == k ==> k in e && e[k] == toEnvString(next[i].value))
            && (k in KeySet(prev) && k !in KeySet(next) ==> k !in e)
            && (k !in KeySet(prev) && k !in KeySet(next) ==> (k in e <==> k in env) && (k in env ==> e[k] == env[k]))
  {
    InjectedKeys(next, toEnvString);
    forall i | 0 <= i < |next| && next[i].key == k
      ensures k in Scoped(env, prev, next, toEnvString)
      ensures Scoped(env, prev, next, toEnvString)[k] == toEnvString(next[i].value)
    {
      InjectedLookup(next, toEnvString, i);
    }
  }

  /** Setting a key after a map union is setting it in the right operand. */
  lemma UnionUpdate(a: map<string, string>, b: map<string, string>, k: string, v: string)
    ensures (a + b)[k := v] == a + b[k := v]
  {
  }

  /** The process environment and the variables the previous request injected. */
  class EnvScope {
    var env: map<string, string>
    var envVars: seq<Entry>

    /** The plugin starts with no injected variables (`this.envVars = {}`). */
    constructor (env: map<string, string>)
      ensures this.env == env && envVars == []
    {
      this.env := env;
      envVars := [];
    }

    /** src/index.js:270-278: delete the previous request's variables, then inject the
        new environment (`{}` when it is not a plain object). */
    method Enter(environment: JsValue, toEnvString: JsValue -> string)
      modifies this
      ensures envVars == (if environment.Obj? then environment.fields else [])
      ensures env == Scoped(old(env), old(envVars), envVars, toEnvString)
    {
      var prev := envVars;
      var i := 0;
      while i < |prev|
        invariant 0 <= i <= |prev|
        invariant env == old(env) - KeySet(prev[..i])
        invariant envVars == prev
      {
        assert prev[..i + 1] == prev[..i] + [prev[i]];
        KeySetAppend(prev[..i], prev[i]);
        env := env - {prev[i].key};
        i := i + 1;
      }
      assert prev[..i] == prev;
      var next := if environment.Obj? then environment.fields else [];
      envVars := next;
      ghost var cleared := env;
      i := 0;
      while i < |next|
        invariant 0 <= i <= |next|
        invariant env == cleared + Injected(next[..i], toEnvString)
        invariant envVars == next
      {
        ghost var before := Injected(next[..i], toEnvString);
        assert next[..i + 1][..i] == next[..i] && next[..i + 1][i] == next[i];
        assert Injected(next[..i + 1], toEnvString) == before[next[i].key := toEnvString(next[i].value)];
        UnionUpdate(cleared, before, next[i].key, toEnvString(next[i].value));
        env := env[next[i].key := toEnvString(next[i].value)];
        i := i + 1;
      }
      assert next[..i] == next;
    }
  }

  // ---------------------------------------------------------------------------
  // Response selection and the error envelope

  datatype Param = Param(key: string, value: string)

  /** One entry of an endpoint's `responses`. `selectionPattern` is "" when
      absent; `responseParameters` is None when it is not a plain object. */
  datatype ResponseVariant = ResponseVariant(
    statusCode: JsValue,
    selectionPattern: string,
    responseParameters: Option<seq<Param>>,
    responseTemplates: JsValue)

  /** An endpoint's `responses` are a sequence of these in `for...in`
      enumeration order: integer-like names in ascending numeric order first,
      then the other names in the order they were declared. */
  datatype NamedResponse = NamedResponse(name: string, variant: ResponseVariant)

  /** `text.match(pattern)` finds a match. The regular-expression engine is
      foreign. */
  type RegexMatch = (string, string) -> bool

  /** The regular expression tried for a response: `^` followed by its
      selection pattern, or by its name when it has none. The `^` anchors only
      the first alternative of a top-level `|`. */
  function SelectionRegex(r: NamedResponse): string {
    "^" + (if r.variant.selectionPattern != "" then r.variant.selectionPattern else r.name)
  }

  predicate Selects(r: NamedResponse, message: string, matches: RegexMatch) {
    r.name != "default" && matches(SelectionRegex(r), message)
  }

  /** The response chosen for a failure message. */
  function SelectedName(responses: seq<NamedResponse>, message: string, matches: RegexMatch): string {
    if responses == [] then "default"
    else if Selects(responses[0], message, matches) then responses[0].name
    else SelectedName(responses[1..], message, matches)
  }

  /** The chosen response is the first one in enumeration order, other than
      `default`, whose `SelectionRegex` matches; `default` when none does. */
  lemma {:induction false} SelectedNameFirstMatch(responses: seq<NamedResponse>, message: string, matches: RegexMatch)
    ensures var name := SelectedName(responses, message, matches);
            || (&& name == "default"
                && forall i :: 0 <= i < |responses| ==> !Selects(responses[i], message, matches))
            || (exists i :: && 0 <= i < |responses|
                            && name == responses[i].name
                            && Selects(responses[i], message, matches)
                            && forall j :: 0 <= j < i ==> !Selects(responses[j], message, matches))
  {
    if responses != [] && !Selects(responses[0], message, matches) {
      var rest := responses[1..];
      SelectedNameFirstMatch(rest, message, matches);
      var name := SelectedName(rest, message, matches);
      if exists i :: && 0 <= i < |rest| && name == rest[i].name && Selects(rest[i], message, matches)
                     && forall j :: 0 <= j < i ==> !Selects(rest[j], message, matches) {
        var i :| && 0 <= i < |rest| && name == rest[i].name && Selects(rest[i], message, matches)
                 && forall j :: 0 <= j < i ==> !Selects(rest[j], message, matches);
        assert responses[i + 1] == rest[i];
        assert forall j :: 0 <= j < i + 1 ==> !Selects(responses[j], message, matches) by {
          forall j | 0 <= j < i + 1 ensures !Selects(responses[j], message, matches) {
            if j > 0 { assert responses[j] == rest[j - 1]; }
          }
        }
      } else {
        assert forall i :: 0 <= i < |responses| ==> !Selects(responses[i], message, matches) by {
          forall i | 0 <= i < |responses| ensures !Selects(responses[i], message, matches) {
            if i > 0 { assert responses[i] == rest[i - 1]; }
          }
        }
      }
    }
  }

  /** The `for...in` loop with `break` over the responses (src/index.js:358-366). */
  method SelectResponseName(responses: seq<NamedResponse>, message: string, matches: RegexMatch)
    returns (name: string)
    ensures name == SelectedName(responses, message, matches)
  {
    name := "default";
    var i := 0;
    while i < |responses|
      invariant 0 <= i <= |responses|
      invariant SelectedName(responses, message, matches) == SelectedName(responses[i..], message, matches)
    {
      assert responses[i..][1..] == responses[i + 1..];
      if responses[i].name == "default" {
        i := i + 1;
        continue;
      }
      if matches("^" + (if responses[i].variant.selectionPattern != "" then responses[i].variant.selectionPattern
                        else responses[i].name), message) {
        name := responses[i].name;
        return;
      }
      i := i + 1;
    }
  }

  function Names(responses: seq<NamedResponse>): set<string> {
    set i | 0 <= i < |responses| :: responses[i].name
  }

  /** The selected name is `default` or the name of a declared response. */
  lemma {:induction false} SelectedNameDeclared(responses: seq<NamedResponse>, message: string, matches: RegexMatch)
    ensures var name := SelectedName(responses, message, matches);
            name == "default" || name in Names(responses)
  {
    if responses != [] && !Selects(responses[0], message, matches) {
      SelectedNameDeclared(responses[1..], message, matches);
      assert Names(responses[1..]) <= Names(responses) by {
        forall i | 0 <= i < |responses[1..]| ensures responses[1..][i].name in Names(responses) {
          assert responses[1..][i] == responses[i + 1];
        }
      }
    }
  }

  /** `endpoint.responses[name]`. */
  function FindResponse(responses: seq<NamedResponse>, name: string): (r: Option<ResponseVariant>)
    ensures r.Some? <==> name in Names(responses)
  {
    if responses == [] then None
    else if responses[0].name == name then Some(responses[0].variant)
    else
      var r := FindResponse(responses[1..], name);
      assert Names(responses) == {responses[0].name} + Names(responses[1..]) by {
        forall n | n in Names(responses) ensures n in {responses[0].name} + Names(responses[1..]) {
          var i :| 0 <= i < |responses| && responses[i].name == n;
          if i > 0 { assert responses[1..][i - 1] == responses[i]; }
        }
      }
      r
  }

  /** `err.message || err.toString()`. */
  function ErrorMessage(err: JsError): string {
    if err.message != "" then err.message else err.text
  }

  function StrItems(parts: seq<string>): (items: seq<JsValue>)
    ensures |items| == |parts|
    ensures forall i :: 0 <= i < |parts| ==> items[i] == Str(parts[i])
  {
    if parts == [] then [] else [Str(parts[0])] + StrItems(parts[1..])
  }

  /** `err.stack ? err.stack.split('\n') : null`. */
  function StackTrace(err: JsError): JsValue {
    if err.stack != "" then Arr(StrItems(Split(err.stack, '\n'))) else Null
  }

  /** The stack trace is null exactly when there is no stack; otherwise it is
      the stack's lines, none holding a line break, which joined with line breaks
      give back the stack. */
  lemma StackTraceLines(err: JsError)
    ensures StackTrace(err) == Null <==> err.stack == ""
    ensures err.stack != "" ==>
              exists lines :: && |lines| >= 1
                              && StackTrace(err) == Arr(StrItems(lines))
                              && (forall i :: 0 <= i < |lines| ==> '\n' !in lines[i])
                              && Join(lines, '\n') == err.stack
  {
    if err.stack != "" {
      JoinSplit(err.stack, '\n');
      var lines := Split(err.stack, '\n');
      assert StackTrace(err) == Arr(StrItems(lines));
    }
  }

  /** The properties of a Lambda-style error object: the message, the error's
      constructor name and its stack trace, in that order. */
  function ErrorFields(message: string, err: JsError): seq<Entry> {
    [Entry("errorMessage", Str(message)), Entry("errorType", Str(err.typeName)), Entry("stackTrace", StackTrace(err))]
  }

  lemma ErrorFieldsShape(message: string, err: JsError)
    ensures var fields := ErrorFields(message, err);
            && Keys(fields) == ["errorMessage", "errorType", "stackTrace"]
            && Get(fields, "errorMessage") == Str(message)
            && Get(fields, "errorType") == Str(err.typeName)
            && Get(fields, "stackTrace") == StackTrace(err)
  {
    var fields := ErrorFields(message, err);
    GetAt(fields, 1);
    GetAt(fields, 2);
  }

  /** The Lambda-style failure body (src/index.js:349-353). */
  function FailureBody(err: JsError): JsValue {
    Obj(ErrorFields(ErrorMessage(err), err))
  }

  /** The failure body holds `errorMessage` (the error's message, or its string
      form when the message is empty), `errorType` (its constructor's name) and
      `stackTrace` (its stack's lines, or null), in that order. */
  lemma FailureBodyFields(err: JsError)
    ensures var r := FailureBody(err);
            && r.Obj? && Keys(r.fields) == ["errorMessage", "errorType", "stackTrace"]
            && (err.message != "" ==> Field(r, "errorMessage") == Str(err.message))
            && (err.message == "" ==> Field(r, "errorMessage") == Str(err.text))
            && Field(r, "errorType") == Str(err.typeName)
            && Field(r, "stackTrace") == StackTrace(err)
  {
    ErrorFieldsShape(ErrorMessage(err), err);
  }

  // ---------------------------------------------------------------------------
  // Header rewriting

  /** A header assignment: the name and the value given to `response.header`
      (None for `undefined`). */
  datatype HeaderSet = HeaderSet(name: string, value: Option<string>)

  /** The value a header takes from a right-hand side (src/index.js:400-415); None is
      `undefined`. */
  function HeaderValueOf(value: string, result: JsValue,
                         jsonPath: (JsValue, string) -> JsValue,
                         stringify: JsValue -> Option<string>): Option<string>
  {
    var valueArray := Split(value, '.');
    if StartsWith(value, "integration.response") then
      if |valueArray| > 2 && valueArray[2] == "body" then
        stringify(if |valueArray| > 3 && valueArray[3] != ""
                  then jsonPath(result, Join(valueArray[3..], '.'))
                  else result)
      else None
    else Some(value)
  }

  /** What one `responseParameters` entry does (src/index.js:387-426): None when the
      left-hand side is not a header, which only logs a warning. */
  function HeaderRule(key: string, value: string, result: JsValue,
                      jsonPath: (JsValue, string) -> JsValue,
                      stringify: JsValue -> Option<string>): Option<HeaderSet>
  {
    var keyArray := Split(key, '.');
    if StartsWith(key, "method.response.header") && |keyArray| > 3 && keyArray[3] != "" then
      Some(HeaderSet(Join(keyArray[3..], '.'), HeaderValueOf(value, result, jsonPath, stringify)))
    else None
  }

  /** A header is set exactly for keys that start with `method.response.header`
      and have a non-empty fourth dot-separated segment; its name is the rest of
      the key after the third dot. */
  lemma HeaderRuleName(key: string, value: string, result: JsValue,
                       jsonPath: (JsValue, string) -> JsValue, stringify: JsValue -> Option<string>)
    ensures var r := HeaderRule(key, value, result, jsonPath, stringify);
            var segments := Split(key, '.');
            && (r.Some? <==> StartsWith(key, "method.response.header") && |segments| > 3 && segments[3] != "")
            && (r.Some? ==> key == Join(segments[..3], '.') + "." + r.value.name)
            && (r.Some? ==> Split(r.value.name, '.') == segments[3..])
  {
    var segments := Split(key, '.');
    var r := HeaderRule(key, value, result, jsonPath, stringify);
    if r.Some? {
      JoinSplit(key, '.');
      assert segments == segments[..3] + segments[3..];
      JoinAppend(segments[..3], segments[3..], '.');
      SplitJoin(segments[3..], '.');
    }
  }

  /** A key `method.response.header.<name>` sets the header `<name>`, for any
      name that is not empty and does not start with a dot. */
  lemma HeaderNamed(name: string, value: string, result: JsValue,
                    jsonPath: (JsValue, string) -> JsValue, stringify: JsValue -> Option<string>)
    requires name != "" && name[0] != '.'
    ensures var r := HeaderRule("method.response.header." + name, value, result, jsonPath, stringify);
            r.Some? && r.value.name == name
  {
    var parts := ["method", "response", "header"];
    assert Join(parts, '.') == "method.response.header";
    var pre := "method.response.header";
    SegmentsAfterPrefix(pre, parts, name);
    var key := pre + "." + name;
    assert key == "method.response.header." + name;
    var segments := Split(key, '.');
    assert StartsWith(key, "method.response.header") && |segments| > 3 && segments[3] != "";
    assert HeaderRule(key, value, result, jsonPath, stringify).value.name == Join(segments[3..], '.');
  }

  /** A right-hand side that is not `integration.response...` is assigned
      verbatim, and one that is, but has no third segment `body` (fewer than
      three segments included), assigns `undefined`. */
  lemma HeaderValue(value: string, result: JsValue,
                    jsonPath: (JsValue, string) -> JsValue, stringify: JsValue -> Option<string>)
    ensures var v := HeaderValueOf(value, result, jsonPath, stringify);
            && (!StartsWith(value, "integration.response") ==> v == Some(value))
            && ((StartsWith(value, "integration.response") && !(|Split(value, '.')| > 2 && Split(value, '.')[2] == "body"))
                  ==> v == None)
  {
  }

  /** `integration.response.body` assigns the JSON text of the whole result. */
  lemma HeaderFromBody(value: string, result: JsValue, jsonPath: (JsValue, string) -> JsValue,
                       stringify: JsValue -> Option<string>)
    requires value == "integration.response.body"
    ensures HeaderValueOf(value, result, jsonPath, stringify) == stringify(result)
  {
    var body := ["integration", "response", "body"];
    assert Join(body, '.') == value;
    assert value[..|"integration.response"|] == "integration.response";
    WholeBody(value, body, result, jsonPath, stringify);
  }

  /** A value of exactly three dot-free segments, the third `body`, that starts
      with `integration.response` assigns the JSON text of the whole result. */
  lemma WholeBody(value: string, parts: seq<string>, result: JsValue,
                  jsonPath: (JsValue, string) -> JsValue, stringify: JsValue -> Option<string>)
    requires |parts| == 3 && parts[2] == "body" && value == Join(parts, '.')
    requires forall i :: 0 <= i < 3 ==> '.' !in parts[i]
    requires StartsWith(value, "integration.response")
    ensures HeaderValueOf(value, result, jsonPath, stringify) == stringify(result)
  {
    SplitJoin(parts, '.');
  }

  /** `integration.response.body.<path>` assigns the JSON text of the value
      `path` selects in the result, for any path that is not empty and does not
      start with a dot. */
  lemma HeaderFromBodyPath(path: string, result: JsValue,
                           jsonPath: (JsValue, string) -> JsValue, stringify: JsValue -> Option<string>)
    requires path != "" && path[0] != '.'
    ensures HeaderValueOf("integration.response.body." + path, result, jsonPath, stringify)
            == stringify(jsonPath(result, path))
  {
    var body := ["integration", "response", "body"];
    assert Join(body, '.') == "integration.response.body";
    var pre := "integration.response.body";
    SegmentsAfterPrefix(pre, body, path);
    var value := pre + "." + path;
    assert value == "integration.response.body." + path;
    assert value[..|"integration.response"|] == pre[..|"integration.response"|];
    var valueArray := Split(value, '.');
    assert StartsWith(value, "integration.response") && |valueArray| > 3 && valueArray[2] == "body";
    assert valueArray[3] != "" && Join(valueArray[3..], '.') == path;
  }

  /** After a three-segment prefix without dots, a dot and a `rest` that does
      not start with a dot, the key has more than three segments, the first
      three are the prefix's and the others join back to `rest`. */
  lemma SegmentsAfterPrefix(pre: string, parts: seq<string>, rest: string)
    requires |parts| == 3 && pre == Join(parts, '.')
    requires forall i :: 0 <= i < 3 ==> '.' !in parts[i]
    requires rest != "" && rest[0] != '.'
    ensures var segments := Split(pre + "." + rest, '.');
            && |segments| > 3 && segments[3] != "" && segments[..3] == parts
            && Join(segments[3..], '.') == rest
            && StartsWith(pre + "." + rest, pre)
  {
    SegmentsAfter(parts, rest, '.');
    JoinSplit(rest, '.');
    FirstSegmentNonEmpty(rest, '.');
    assert (pre + "." + rest)[..|pre|] == pre;
  }

  /** The segments of `Join(parts) + "." + rest` are the parts followed by the
      segments of `rest`. */
  lemma SegmentsAfter(parts: seq<string>, rest: string, sep: char)
    requires |parts| >= 1
    requires forall i :: 0 <= i < |parts| ==> sep !in parts[i]
    ensures Split(Join(parts, sep) + [sep] + rest, sep) == parts + Split(rest, sep)
    ensures (Split(Join(parts, sep) + [sep] + rest, sep))[|parts|..] == Split(rest, sep)
  {
    SplitJoin(parts, sep);
    JoinSplit(rest, sep);
    JoinAppend(parts, Split(rest, sep), sep);
    assert forall i :: 0 <= i < |parts + Split(rest, sep)| ==> sep !in (parts + Split(rest, sep))[i];
    SplitJoin(parts + Split(rest, sep), sep);
    assert (parts + Split(rest, sep))[|parts|..] == Split(rest, sep);
  }

  /** A string that does not start with the separator has a non-empty first
      segment. */
  lemma FirstSegmentNonEmpty(s: string, sep: char)
    requires s != "" && s[0] != sep
    ensures Split(s, sep)[0] != ""
  {
  }

  /** The headers after the `forEach` over the parameters, in order. */
  function HeadersAfter(headers: map<string, Option<string>>, params: seq<Param>, result: JsValue,
                        jsonPath: (JsValue, string) -> JsValue,
                        stringify: JsValue -> Option<string>): map<string, Option<string>>
  {
    if params == [] then headers
    else
      var before := HeadersAfter(headers, params[..|params| - 1], result, jsonPath, stringify);
      var last := params[|params| - 1];
      match HeaderRule(last.key, last.value, result, jsonPath, stringify)
      case None => before
      case Some(h) => before[h.name := h.value]
  }

  /** Rewriting only adds or replaces headers named by some parameter: every
      other header is kept. */
  lemma {:induction false} HeadersAfterKeeps(headers: map<string, Option<string>>, params: seq<Param>,
                                             result: JsValue, jsonPath: (JsValue, string) -> JsValue,
                                             stringify: JsValue -> Option<string>, name: string)
    requires forall i :: 0 <= i < |params| ==>
               var h := HeaderRule(params[i].key, params[i].value, result, jsonPath, stringify);
               h.None? || h.value.name != name
    ensures var after := HeadersAfter(headers, params, result, jsonPath, stringify);
            (name in after <==> name in headers) && (name in headers ==> after[name] == headers[name])
  {
    if params != [] {
      HeadersAfterKeeps(headers, params[..|params| - 1], result, jsonPath, stringify, name);
    }
  }

  /** A header named by some parameter ends up with the value the last such
      parameter assigns. */
  lemma {:induction false} HeadersAfterSets(headers: map<string, Option<string>>, params: seq<Param>,
                                            result: JsValue, jsonPath: (JsValue, string) -> JsValue,
                                            stringify: JsValue -> Option<string>, i: nat)
    requires i < |params|
    requires HeaderRule(params[i].key, params[i].value, result, jsonPath, stringify).Some?
    requires forall j :: i < j < |params| ==>
               var h := HeaderRule(params[j].key, params[j].value, result, jsonPath, stringify);
               h.None? || h.value.name != HeaderRule(params[i].key, params[i].value, result, jsonPath, stringify).value.name
    ensures var rule := HeaderRule(params[i].key, params[i].value, result, jsonPath, stringify).value;
            var after := HeadersAfter(headers, params, result, jsonPath, stringify);
            rule.name in after && after[rule.name] == rule.value
  {
    if i < |params| - 1 {
      var front := params[..|params| - 1];
      assert front[i] == params[i];
      assert forall j :: i < j < |front| ==> front[j] == params[j];
      HeadersAfterSets(headers, front, result, jsonPath, stringify, i);
    }
  }

  // ---------------------------------------------------------------------------
  // Content type and status

  /** The first key of a non-empty plain-object `responseTemplates`, whatever
      its template; `application/json` otherwise. */
  function ResponseContentType(templates: JsValue): (ct: string)
    ensures templates.Obj? && templates.fields != [] ==> ct == Keys(templates.fields)[0]
    ensures !(templates.Obj? && templates.fields != []) ==> ct == DefaultContentType
  {
    if templates.Obj? && templates.fields != [] then templates.fields[0].key else DefaultContentType
  }

  /** The template applied to the result: the first one, when it is truthy. */
  function TemplateToApply(templates: JsValue): (t: Option<JsValue>)
    ensures t.Some? ==> Truthy(t.value) && templates.Obj? && templates.fields != []
                        && t.value == templates.fields[0].value
    ensures templates.Obj? && templates.fields != [] && Truthy(templates.fields[0].value) ==> t.Some?
  {
    if templates.Obj? && templates.fields != [] && Truthy(templates.fields[0].value)
    then Some(templates.fields[0].value) else None
  }

  /** `chosenResponse.statusCode || 200`: never falsy. */
  function StatusCode(v: ResponseVariant): (status: JsValue)
    ensures Truthy(status)
    ensures Truthy(v.statusCode) ==> status == v.statusCode
    ensures !Truthy(v.statusCode) ==> status == Num(200.0)
  {
    Or(v.statusCode, Num(200.0))
  }
}
