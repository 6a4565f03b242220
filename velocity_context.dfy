/** The evaluation-context builder (`createVelocityContext` in
    src/authorizeEndpointRequest.js): the object that mocks the gateway's
    mapping-template variables. Identity and authorizer fields fall back to fixed
    `offlineContext_*` sentinels; `input.params` has a one-name and a snapshot
    mode. */
module VelocityContext {
  import opened JsValues
  import opened Strings

  /** What the builder reads from the inbound request. */
  datatype Request = Request(
    methodName: string,      // request.method
    routePath: string,       // request.route.path
    remoteAddress: string,   // request.info.remoteAddress
    headers: seq<Entry>,
    query: seq<Entry>,
    params: seq<Entry>)

  /** The option properties the builder reads. */
  datatype OptionValues = OptionValues(
    apiId: JsValue,
    authorizer: JsValue,
    identity: JsValue,
    stageVariables: JsValue,
    resourceId: JsValue,
    stage: JsValue)

  /** An options object that has none of these properties. */
  const NoOptions := OptionValues(Undefined, Undefined, Undefined, Undefined, Undefined, Undefined)

  /** The options object handed to the builder; the builder writes its
      defaults into it. */
  class ContextOptions {
    var apiId: JsValue
    var authorizer: JsValue
    var identity: JsValue
    var stageVariables: JsValue
    var resourceId: JsValue
    var stage: JsValue

    /** `{stageVariables, stage}`, the options object the plugin builds once. */
    constructor (stageVariables: JsValue, stage: JsValue)
      ensures Values() == OptionValues(Undefined, Undefined, Undefined, stageVariables, Undefined, stage)
    {
      apiId, authorizer, identity := Undefined, Undefined, Undefined;
      this.stageVariables, resourceId, this.stage := stageVariables, Undefined, stage;
    }

    function Values(): OptionValues
      reads this
    {
      OptionValues(apiId, authorizer, identity, stageVariables, resourceId, stage)
    }

    /** `options.authorizer = options.authorizer || {}` and the same for
        `identity` and `stageVariables`. */
    method ApplyDefaults()
      modifies this
      ensures Values() == Defaulted(old(Values()))
    {
      authorizer := Or(authorizer, Obj([]));
      identity := Or(identity, Obj([]));
      stageVariables := Or(stageVariables, Obj([]));
    }
  }

  /** The options after the builder's defaulting: each of the three nested
      objects is kept when truthy and becomes `{}` otherwise; every other
      property is untouched. */
  function Defaulted(o: OptionValues): (d: OptionValues)
    ensures Truthy(d.authorizer) && Truthy(d.identity) && Truthy(d.stageVariables)
    ensures Truthy(o.authorizer) ==> d.authorizer == o.authorizer
    ensures Truthy(o.identity) ==> d.identity == o.identity
    ensures Truthy(o.stageVariables) ==> d.stageVariables == o.stageVariables
    ensures !Truthy(o.authorizer) ==> d.authorizer == Obj([])
    ensures !Truthy(o.identity) ==> d.identity == Obj([])
    ensures !Truthy(o.stageVariables) ==> d.stageVariables == Obj([])
    ensures d.apiId == o.apiId && d.resourceId == o.resourceId && d.stage == o.stage
  {
    o.(authorizer := Or(o.authorizer, Obj([])),
       identity := Or(o.identity, Obj([])),
       stageVariables := Or(o.stageVariables, Obj([])))
  }

  /** Defaulting twice is defaulting once, so the options object the plugin
      reuses across requests gives the same context every time. */
  lemma DefaultedIdempotent(o: OptionValues)
    ensures Defaulted(Defaulted(o)) == Defaulted(o)
  {
  }

  /** Reading a property through a defaulted nested object reads the same as
      through the original one. */
  lemma DefaultedField(v: JsValue, k: string)
    ensures Field(Or(v, Obj([])), k) == Field(v, k)
  {
  }

  datatype Identity = Identity(
    accountId: JsValue,
    apiKey: JsValue,
    caller: JsValue,
    cognitoAuthenticationProvider: JsValue,
    cognitoAuthenticationType: JsValue,
    sourceIp: string,
    user: JsValue,
    userAgent: JsValue,
    userArn: JsValue)

  /** The context object. `request` and `payload` are kept for the `input`
      accessors; the `util` functions are foreign and not modelled. */
  datatype Context = Context(
    apiId: JsValue,
    principalId: JsValue,
    httpMethod: string,
    identity: Identity,
    requestId: string,
    resourceId: JsValue,
    resourcePath: string,
    stage: JsValue,
    stageVariables: JsValue,
    request: Request,
    payload: JsValue)

  const RequestIdPrefix := "offlineContext_requestId_"

  /** The context built from a request, the options as they were before the
      builder defaulted them, the payload, and the digits that `Math.random`
      contributes to the request id. */
  function BuildContext(request: Request, o: OptionValues, payload: JsValue, randomDigits: string): Context
  {
    var d := Defaulted(o);
    var id := d.identity;
    Context(
      apiId := Or(d.apiId, Str("offlineContext_apiId")),
      principalId := Or(Field(d.authorizer, "principalId"), Str("offlineContext_authorizer_principalId")),
      httpMethod := ToUpperCase(request.methodName),
      identity := Identity(
        accountId := Or(Field(id, "accountId"), Str("offlineContext_accountId")),
        apiKey := Or(Field(id, "apiKey"), Str("offlineContext_apiKey")),
        caller := Or(Field(id, "caller"), Str("offlineContext_caller")),
        cognitoAuthenticationProvider :=
          Or(Field(id, "cognitoAuthenticationProvider"), Str("offlineContext_cognitoAuthenticationProvider")),
        cognitoAuthenticationType :=
          Or(Field(id, "cognitoAuthenticationType"), Str("offlineContext_cognitoAuthenticationType")),
        sourceIp := request.remoteAddress,
        user := Or(Field(id, "user"), Str("offlineContext_user")),
        userAgent := Get(request.headers, "user-agent"),
        userArn := Or(Field(id, "userArn"), Str("offlineContext_userArn"))),
      requestId := RequestIdPrefix + randomDigits,
      resourceId := Or(d.resourceId, Str("offlineContext_resourceId")),
      resourcePath := request.routePath,
      stage := d.stage,
      stageVariables := d.stageVariables,
      request := request,
      payload := Or(payload, Obj([])))
  }

  /** The fields that come from the request, the options and the payload
      rather than from a sentinel: the upper-cased method, the request id behind
      its fixed prefix, the defaulted stage variables, the stage, the route path,
      the source address, the user agent, and the payload (`{}` when falsy). */
  lemma ContextFields(request: Request, o: OptionValues, payload: JsValue, randomDigits: string)
    ensures var c := BuildContext(request, o, payload, randomDigits);
            && c.httpMethod == ToUpperCase(request.methodName)
            && StartsWith(c.requestId, RequestIdPrefix)
            && c.stageVariables == Defaulted(o).stageVariables
            && c.stage == o.stage
            && c.resourcePath == request.routePath
            && c.identity.sourceIp == request.remoteAddress
            && c.identity.userAgent == Get(request.headers, "user-agent")
            && c.request == request
            && c.payload == Or(payload, Obj([]))
  {
  }

  /** The value an identity-like field takes: the option's value when it is
      truthy, its sentinel otherwise. */
  function Chosen(given: JsValue, sentinel: string): (r: JsValue)
    ensures Truthy(given) ==> r == given
    ensures !Truthy(given) ==> r == Str(sentinel)
  {
    if Truthy(given) then given else Str(sentinel)
  }

  /** Every identity and authorizer field is the caller's option when truthy and
      its fixed sentinel otherwise, whatever the nested objects were (absent,
      falsy, or not objects at all). */
  lemma SentinelDefaults(request: Request, o: OptionValues, payload: JsValue, randomDigits: string)
    ensures var c := BuildContext(request, o, payload, randomDigits);
            && c.apiId == Chosen(o.apiId, "offlineContext_apiId")
            && c.principalId == Chosen(Field(o.authorizer, "principalId"), "offlineContext_authorizer_principalId")
            && c.identity.accountId == Chosen(Field(o.identity, "accountId"), "offlineContext_accountId")
            && c.identity.apiKey == Chosen(Field(o.identity, "apiKey"), "offlineContext_apiKey")
            && c.identity.caller == Chosen(Field(o.identity, "caller"), "offlineContext_caller")
            && c.identity.cognitoAuthenticationProvider ==
                 Chosen(Field(o.identity, "cognitoAuthenticationProvider"), "offlineContext_cognitoAuthenticationProvider")
            && c.identity.cognitoAuthenticationType ==
                 Chosen(Field(o.identity, "cognitoAuthenticationType"), "offlineContext_cognitoAuthenticationType")
            && c.identity.user == Chosen(Field(o.identity, "user"), "offlineContext_user")
            && c.identity.userArn == Chosen(Field(o.identity, "userArn"), "offlineContext_userArn")
            && c.resourceId == Chosen(o.resourceId, "offlineContext_resourceId")
  {
    DefaultedField(o.authorizer, "principalId");
    DefaultedField(o.identity, "accountId");
    DefaultedField(o.identity, "apiKey");
    DefaultedField(o.identity, "caller");
    DefaultedField(o.identity, "cognitoAuthenticationProvider");
    DefaultedField(o.identity, "cognitoAuthenticationType");
    DefaultedField(o.identity, "user");
    DefaultedField(o.identity, "userArn");
  }

  /** Templates can rely on the identity and authorizer fields: none of them is
      ever falsy. */
  lemma IdentityFieldsTruthy(request: Request, o: OptionValues, payload: JsValue, randomDigits: string)
    ensures var c := BuildContext(request, o, payload, randomDigits);
            && Truthy(c.apiId) && Truthy(c.principalId) && Truthy(c.resourceId)
            && Truthy(c.identity.accountId) && Truthy(c.identity.apiKey) && Truthy(c.identity.caller)
            && Truthy(c.identity.cognitoAuthenticationProvider)
            && Truthy(c.identity.cognitoAuthenticationType)
            && Truthy(c.identity.user) && Truthy(c.identity.userArn)
  {
  }

  /** With no options at all every field is its sentinel, the stage variables
      are `{}` and the stage is undefined. */
  lemma NoOptionsContext(request: Request, payload: JsValue, randomDigits: string)
    ensures var c := BuildContext(request, NoOptions, payload, randomDigits);
            && c.apiId == Str("offlineContext_apiId")
            && c.principalId == Str("offlineContext_authorizer_principalId")
            && c.identity.accountId == Str("offlineContext_accountId")
            && c.identity.apiKey == Str("offlineContext_apiKey")
            && c.identity.caller == Str("offlineContext_caller")
            && c.identity.cognitoAuthenticationProvider == Str("offlineContext_cognitoAuthenticationProvider")
            && c.identity.cognitoAuthenticationType == Str("offlineContext_cognitoAuthenticationType")
            && c.identity.user == Str("offlineContext_user")
            && c.identity.userArn == Str("offlineContext_userArn")
            && c.resourceId == Str("offlineContext_resourceId")
            && c.stageVariables == Obj([])
            && c.stage == Undefined
  {
  }

  /** The upper-cased method has no lower-case ASCII letter left. */
  lemma HttpMethodUpperCase(request: Request, o: OptionValues, payload: JsValue, randomDigits: string)
    ensures var m := BuildContext(request, o, payload, randomDigits).httpMethod;
            && |m| == |request.methodName|
            && forall i :: 0 <= i < |m| ==> !('a' <= m[i] <= 'z')
  {
  }

  /** `createVelocityContext`: writes the defaults into the options object it is
      given (a fresh one when it is given none) and builds the context. */
  method CreateVelocityContext(request: Request, options: ContextOptions?, payload: JsValue, randomDigits: string)
    returns (c: Context)
    modifies options
    ensures options != null ==> options.Values() == Defaulted(old(options.Values()))
    ensures c == BuildContext(request, if options == null then NoOptions else old(options.Values()),
                              payload, randomDigits)
  {
    var opts := options;
    if opts == null {
      opts := new ContextOptions(Undefined, Undefined);
    }
    ghost var before := opts.Values();
    opts.ApplyDefaults();
    DefaultedIdempotent(before);
    c := BuildContext(request, opts.Values(), payload, randomDigits);
  }

  /** `input.params(x)`. With a string it is the first truthy value among the
      path parameter, the query parameter and the header of that name (the
      header's value, possibly falsy, when none is truthy); with anything else it
      is the snapshot `{path, querystring, header}`. */
  function Params(c: Context, x: JsValue): (r: JsValue)
    ensures x.Str? ==>
              var p := Get(c.request.params, x.s);
              var q := Get(c.request.query, x.s);
              var h := Get(c.request.headers, x.s);
              && (Truthy(r) <==> Truthy(p) || Truthy(q) || Truthy(h))
              && (Truthy(p) ==> r == p)
              && (!Truthy(p) && Truthy(q) ==> r == q)
              && (!Truthy(p) && !Truthy(q) ==> r == h)
    ensures !x.Str? ==>
              && r.Obj?
              && Keys(r.fields) == ["path", "querystring", "header"]
              && Field(r, "path") == Obj(c.request.params)
              && Field(r, "querystring") == Obj(c.request.query)
              && Field(r, "header") == Obj(c.request.headers)
  {
    if x.Str? then
      Or(Or(Get(c.request.params, x.s), Get(c.request.query, x.s)), Get(c.request.headers, x.s))
    else
      var snapshot := [Entry("path", Obj(c.request.params)),
                       Entry("querystring", Obj(c.request.query)),
                       Entry("header", Obj(c.request.headers))];
      assert Get(snapshot[1..], "querystring") == Obj(c.request.query);
      assert Get(snapshot[2..], "header") == Obj(c.request.headers);
      assert snapshot[1..][1..] == snapshot[2..];
      assert Get(snapshot[1..], "header") == Obj(c.request.headers);
      assert Get(snapshot, "header") == Obj(c.request.headers);
      Obj(snapshot)
  }

  /** `input.path(x)`: the path query against the payload. The query evaluator
      is foreign. */
  function InputPath(c: Context, x: string, jsonPath: (JsValue, string) -> JsValue): JsValue {
    jsonPath(c.payload, x)
  }

  /** `input.json(x)`: the JSON text of `input.path(x)`. */
  function InputJson(c: Context, x: string, jsonPath: (JsValue, string) -> JsValue,
                     stringify: JsValue -> Option<string>): Option<string>
  {
    stringify(InputPath(c, x, jsonPath))
  }

  /** The path accessors query the payload the builder was given, or `{}` when
      that payload was falsy. */
  lemma PayloadQueried(request: Request, o: OptionValues, payload: JsValue, randomDigits: string,
                       x: string, jsonPath: (JsValue, string) -> JsValue, stringify: JsValue -> Option<string>)
    ensures var c := BuildContext(request, o, payload, randomDigits);
            var queried := if Truthy(payload) then payload else Obj([]);
            && InputPath(c, x, jsonPath) == jsonPath(queried, x)
            && InputJson(c, x, jsonPath, stringify) == stringify(jsonPath(queried, x))
  {
  }
}
