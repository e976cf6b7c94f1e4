/**
 * The chat relay endpoint: the ordered request guards of `POST`, the
 * provider table it dispatches through, the gateway URL builder and the
 * mapping of a caught exception to an error response.
 *
 * The deployment's environment is a parameter (`Env`), the parsed body is an
 * input, the outcome of the streaming SDK call is a parameter (`Upstream`),
 * and the model stops at the call it would issue (`StreamCall`).
 */
module ChatRoute {
  import opened Options
  import opened JsValues
  import opened ChatTypes

  /** `VERCEL_AI_GATEWAY_KEY` and `VERCEL_AI_GATEWAY_ID` as read from the process environment. */
  datatype Env = Env(gatewayKey: Option<string>, gatewayId: Option<string>)

  /**
   * An environment variable read from `process.env`: a string or undefined.
   * As a condition it holds exactly when it is set to a non-empty string.
   */
  predicate EnvSet(x: Option<string>) {
    x.Some? && x.value != ""
  }

  // ---------------------------------------------------------------------------
  // Gateway URLs and the provider table
  // ---------------------------------------------------------------------------

  const GatewayBase := "https://gateway.vercel.com/v1/"

  /** `getGatewayURL(segment)`: the gateway endpoint for a provider, when a gateway id is configured. */
  function GatewayURL(gatewayId: Option<string>, segment: string): (r: Option<string>)
    ensures r.Some? <==> EnvSet(gatewayId)
    ensures r.Some? ==> r.value == GatewayBase + gatewayId.value + "/" + segment
  {
    if EnvSet(gatewayId) then Some(GatewayBase + gatewayId.value + "/" + segment) else None
  }

  /** The path segment under which the gateway serves each provider. */
  function GatewaySegment(p: Provider): string {
    match p
    case OpenAI => "openai"
    case Anthropic => "anthropic"
    case Google => "google-ai"
  }

  /** One gateway id never routes two different segments to the same URL. */
  lemma {:induction false} GatewayURLInjective(gatewayId: Option<string>, a: string, b: string)
    requires EnvSet(gatewayId)
    requires GatewayURL(gatewayId, a) == GatewayURL(gatewayId, b)
    ensures a == b
  {
    var prefix := GatewayBase + gatewayId.value + "/";
    assert GatewayURL(gatewayId, a).value == prefix + a;
    assert GatewayURL(gatewayId, b).value == prefix + b;
    assert a == (prefix + a)[|prefix|..];
    assert b == (prefix + b)[|prefix|..];
  }

  /** The configured SDK client for one provider (`createOpenAI({apiKey, baseURL})` and its siblings). */
  datatype Client = Client(kind: Provider, apiKey: Option<string>, baseURL: Option<string>)

  /** The module-level provider instance, built once from the environment. */
  function ProviderInstance(p: Provider, env: Env): (c: Client)
    ensures c.kind == p && c.apiKey == env.gatewayKey
    ensures c.baseURL == GatewayURL(env.gatewayId, GatewaySegment(p))
  {
    Client(p, env.gatewayKey, GatewayURL(env.gatewayId, GatewaySegment(p)))
  }

  /** With a gateway id, each provider instance talks to its own gateway URL; Google's ends in `google-ai`. */
  lemma {:induction false} ProviderInstancesRouteApart(p: Provider, q: Provider, env: Env)
    requires EnvSet(env.gatewayId)
    ensures ProviderInstance(p, env).baseURL.Some?
    ensures ProviderInstance(Google, env).baseURL.value == GatewayBase + env.gatewayId.value + "/google-ai"
    ensures p != q ==> ProviderInstance(p, env).baseURL != ProviderInstance(q, env).baseURL
  {
    if p != q && ProviderInstance(p, env).baseURL == ProviderInstance(q, env).baseURL {
      GatewayURLInjective(env.gatewayId, GatewaySegment(p), GatewaySegment(q));
      assert false;
    }
  }

  /** Without a gateway id no instance has a base URL: the SDKs use their default endpoints. */
  lemma NoGatewayIdMeansDefaultEndpoints(p: Provider, env: Env)
    requires !EnvSet(env.gatewayId)
    ensures ProviderInstance(p, env).baseURL == None
  {
  }

  /** The model each provider is asked for. */
  function ModelId(p: Provider): string {
    match p
    case OpenAI => "gpt-4-turbo"
    case Anthropic => "claude-3-5-sonnet-20241022"
    case Google => "gemini-1.5-pro"
  }

  /** An entry of `providerConfig`: the provider instance and the model id it is called with. */
  datatype ProviderEntry = ProviderEntry(provider: Client, model: string)

  /** `providerConfig[p]`, a total lookup over the closed provider set. */
  function ProviderConfig(p: Provider, env: Env): (e: ProviderEntry)
    ensures e.provider == ProviderInstance(p, env)
    ensures e.model == ModelId(p)
  {
    ProviderEntry(ProviderInstance(p, env), ModelId(p))
  }

  /** The provider table holds exactly the three pinned model ids. */
  lemma ProviderConfigModels(env: Env)
    ensures ProviderConfig(OpenAI, env).model == "gpt-4-turbo"
    ensures ProviderConfig(Anthropic, env).model == "claude-3-5-sonnet-20241022"
    ensures ProviderConfig(Google, env).model == "gemini-1.5-pro"
  {
  }

  /**
   * `['openai', 'anthropic', 'google'].includes(name)` followed by the
   * keyed lookup into `providerConfig`.
   */
  function ParseProvider(name: string): (r: Option<Provider>)
    ensures r.Some? <==> name in Names
    ensures r.Some? ==> Name(r.value) == name
  {
    if name == "openai" then Some(OpenAI)
    else if name == "anthropic" then Some(Anthropic)
    else if name == "google" then Some(Google)
    else None
  }

  /** Parsing recovers every provider from its name. */
  lemma ParseName(p: Provider)
    ensures ParseProvider(Name(p)) == Some(p)
  {
  }

  // ---------------------------------------------------------------------------
  // Error texts
  // ---------------------------------------------------------------------------

  const ProviderRequiredError := "Provider parameter is required and must be a string"
  const ValidProviderList := "openai, anthropic, google"
  const GatewayKeyError := "Vercel AI Gateway key is not configured. Please set VERCEL_AI_GATEWAY_KEY environment variable."
  const GatewayKeyHelp := "Get your gateway key from: https://vercel.com/docs/integrations/ai"
  const MessagesError := "Messages parameter is required and must be an array"
  const DefaultErrorMessage := "An error occurred while processing your request"
  const DefaultErrorDetails := "Provider API failure"

  /** The error text for a provider name outside the closed set. */
  function InvalidProviderError(name: string): (msg: string)
    ensures Contains(msg, name)
    ensures Contains(msg, ValidProviderList)
  {
    ContainsMiddle("Invalid provider: ", name, ". Must be one of: " + ValidProviderList);
    ContainsMiddle("Invalid provider: " + name + ". Must be one of: ", ValidProviderList, "");
    // regroup the concatenation to match the two shapes ContainsMiddle speaks of
    assert "Invalid provider: " + name + ". Must be one of: " + ValidProviderList
        == "Invalid provider: " + name + (". Must be one of: " + ValidProviderList);
    assert "Invalid provider: " + name + ". Must be one of: " + ValidProviderList
        == "Invalid provider: " + name + ". Must be one of: " + ValidProviderList + "";
    "Invalid provider: " + name + ". Must be one of: " + ValidProviderList
  }

  // ---------------------------------------------------------------------------
  // The request guards
  // ---------------------------------------------------------------------------

  /** The streaming call the route issues: `streamText({ model: config.provider(config.model), messages })`. */
  datatype StreamCall = StreamCall(provider: Provider, client: Client, model: string, messages: seq<JsValue>)

  /** What the guards of `POST` decide: an early JSON error response, or the call to dispatch. */
  datatype Decision =
    | Reject(status: int, error: string, help: Option<string>)
    | Dispatch(call: StreamCall)

  /**
   * The guards of `POST`, in the order the route runs them, on a body that
   * destructuring accepted (anything but null and undefined).
   */
  function Decide(body: Destructurable, env: Env): (d: Decision)
    ensures d.Reject? ==> d.status == 400 || d.status == 500
    ensures d.Dispatch? ==> d.call.model == ModelId(d.call.provider)
    ensures d.Dispatch? ==> d.call.client == ProviderInstance(d.call.provider, env)
  {
    var providerName := Get(body, "provider");
    var messages := Get(body, "messages");
    if !Truthy(providerName) || !providerName.Str? then
      Reject(400, ProviderRequiredError, None)
    else
      match ParseProvider(providerName.s)
      case None =>
        Reject(400, InvalidProviderError(providerName.s), None)
      case Some(p) =>
        if !EnvSet(env.gatewayKey) then
          Reject(500, GatewayKeyError, Some(GatewayKeyHelp))
        else
          var config := ProviderConfig(p, env);
          if !Truthy(messages) || !messages.Array? then
            Reject(400, MessagesError, None)
          else
            Dispatch(StreamCall(p, config.provider, config.model, messages.items))
  }

  // An independent statement of the guards: four named checks, each with
  // its own pass condition and status, tried in a fixed order.

  datatype Check = ProviderIsString | ProviderIsKnown | GatewayKeySet | MessagesIsArray

  const CheckOrder: seq<Check> := [ProviderIsString, ProviderIsKnown, GatewayKeySet, MessagesIsArray]

  /** Whether a body and an environment pass one check, stated without reference to the others. */
  predicate Passes(c: Check, body: Destructurable, env: Env)
  {
    match c
    case ProviderIsString => Get(body, "provider").Str? && Get(body, "provider").s != ""
    case ProviderIsKnown => Get(body, "provider").Str? && Get(body, "provider").s in Names
    case GatewayKeySet => EnvSet(env.gatewayKey)
    case MessagesIsArray => Get(body, "messages").Array?
  }

  /** The error class of each check: invalid request (400) or configuration error (500). */
  function StatusOf(c: Check): int {
    if c == GatewayKeySet then 500 else 400
  }

  /** The first check in `cs` that fails, if any. */
  function FirstFailing(cs: seq<Check>, body: Destructurable, env: Env): (r: Option<Check>)
    ensures r.None? <==> forall i :: 0 <= i < |cs| ==> Passes(cs[i], body, env)
    ensures r.Some? ==>
      exists i :: (0 <= i < |cs| && cs[i] == r.value && !Passes(cs[i], body, env) &&
                   forall j :: 0 <= j < i ==> Passes(cs[j], body, env))
    decreases |cs|
  {
    if cs == [] then None
    else if !Passes(cs[0], body, env) then Some(cs[0])
    else
      FirstFailing(cs[1..], body, env)
  }

  /**
   * The route rejects exactly when some check fails, with the status of the
   * first failing check in `CheckOrder`, and dispatches exactly when all pass.
   */
  lemma DecideFollowsCheckOrder(body: Destructurable, env: Env)
    ensures Decide(body, env).Dispatch? <==> FirstFailing(CheckOrder, body, env).None?
    ensures FirstFailing(CheckOrder, body, env).Some? ==>
      Decide(body, env).Reject? && Decide(body, env).status == StatusOf(FirstFailing(CheckOrder, body, env).value)
  {
  }

  /** A provider field that is absent, falsy or not a string: 400, whatever else the request holds. */
  lemma ProviderMissing(body: Destructurable, env: Env)
    requires !Passes(ProviderIsString, body, env)
    ensures Decide(body, env) == Reject(400, ProviderRequiredError, None)
  {
  }

  /** A string provider outside the closed set: 400, naming it and listing the valid ones. */
  lemma ProviderUnknown(body: Destructurable, env: Env)
    requires Passes(ProviderIsString, body, env) && !Passes(ProviderIsKnown, body, env)
    ensures Decide(body, env).Reject? && Decide(body, env).status == 400
    ensures Contains(Decide(body, env).error, Get(body, "provider").s)
    ensures Contains(Decide(body, env).error, ValidProviderList)
  {
  }

  /** A known provider without a gateway key: the 500 configuration error, even when `messages` is malformed. */
  lemma GatewayKeyMissing(body: Destructurable, env: Env)
    requires Passes(ProviderIsKnown, body, env) && !EnvSet(env.gatewayKey)
    ensures Decide(body, env) == Reject(500, GatewayKeyError, Some(GatewayKeyHelp))
  {
  }

  /** A known provider and a gateway key, but `messages` missing or not an array: 400. */
  lemma MessagesMalformed(body: Destructurable, env: Env)
    requires Passes(ProviderIsKnown, body, env) && EnvSet(env.gatewayKey)
    requires !Passes(MessagesIsArray, body, env)
    ensures Decide(body, env) == Reject(400, MessagesError, None)
  {
  }

  /**
   * Dispatch happens exactly when every check passes, and then calls the
   * named provider's instance with its table model and the request's messages.
   */
  lemma DispatchExactlyWhenValid(body: Destructurable, env: Env)
    ensures Decide(body, env).Dispatch? <==>
      (Passes(ProviderIsKnown, body, env) && EnvSet(env.gatewayKey) && Passes(MessagesIsArray, body, env))
    ensures Decide(body, env).Dispatch? ==>
      var call := Decide(body, env).call;
      Name(call.provider) == Get(body, "provider").s &&
      call.model == ProviderConfig(call.provider, env).model &&
      call.client == ProviderConfig(call.provider, env).provider &&
      call.messages == Get(body, "messages").items
  {
  }

  /** The gateway id only sets the base URL of the dispatched client; it never changes whether or how a request is rejected. */
  lemma GatewayIdDoesNotAffectValidation(body: Destructurable, key: Option<string>, id1: Option<string>, id2: Option<string>)
    ensures Decide(body, Env(key, id1)).Reject? <==> Decide(body, Env(key, id2)).Reject?
    ensures Decide(body, Env(key, id1)).Reject? ==> Decide(body, Env(key, id1)) == Decide(body, Env(key, id2))
    ensures Decide(body, Env(key, id1)).Dispatch? ==>
      var c1 := Decide(body, Env(key, id1)).call;
      var c2 := Decide(body, Env(key, id2)).call;
      c1.(client := c1.client.(baseURL := None)) == c2.(client := c2.client.(baseURL := None))
  {
  }

  // ---------------------------------------------------------------------------
  // The catch block and the whole handler
  // ---------------------------------------------------------------------------

  /** The properties of a caught exception that the catch block reads. */
  datatype Thrown = Thrown(message: JsValue, statusCode: JsValue, cause: JsValue)

  /** The outcome of the opaque streaming SDK call. */
  datatype Upstream = Streams | Throws(e: Thrown)

  /**
   * What `POST` returns: a JSON error response from a guard, the JSON error
   * response of the catch block (status `code`, body `{ error: message, details }`),
   * or the data stream of the dispatched call.
   */
  datatype Response =
    | Rejected(status: int, error: string, help: Option<string>)
    | Failed(code: JsValue, message: JsValue, details: JsValue)
    | Streamed(call: StreamCall)

  /** The catch block: copy status code, message and cause, each falling back to its default when falsy. */
  function CatchResponse(e: Thrown): (r: Response)
    ensures r.Failed?
    ensures Truthy(e.statusCode) ==> r.code == e.statusCode
    ensures !Truthy(e.statusCode) ==> r.code == Number(500)
    ensures Truthy(e.message) ==> r.message == e.message
    ensures !Truthy(e.message) ==> r.message == Str(DefaultErrorMessage)
    ensures Truthy(e.cause) ==> r.details == e.cause
    ensures !Truthy(e.cause) ==> r.details == Str(DefaultErrorDetails)
  {
    Failed(Or(e.statusCode, Number(500)), Or(e.message, Str(DefaultErrorMessage)), Or(e.cause, Str(DefaultErrorDetails)))
  }

  /** Every field of a caught-error response is truthy: its status is never 0, its texts never empty. */
  lemma CatchResponseFieldsTruthy(e: Thrown)
    ensures Truthy(CatchResponse(e).code)
    ensures Truthy(CatchResponse(e).message)
    ensures Truthy(CatchResponse(e).details)
  {
  }

  /** The request body as `req.json()` delivers it: a value, or the exception it throws. */
  datatype RequestBody = Json(value: JsValue) | Unparsable(e: Thrown)

  /**
   * The whole handler. `typeErrorMessage` is the runtime's message for the
   * TypeError raised when destructuring a null or undefined body.
   */
  function Post(req: RequestBody, env: Env, upstream: Upstream, typeErrorMessage: string): (r: Response)
    ensures r.Streamed? ==> upstream.Streams?
    ensures r.Rejected? ==> r.status == 400 || r.status == 500
  {
    match req
    case Unparsable(e) => CatchResponse(e)
    case Json(body) =>
      if body.Null? || body.Undefined? then
        CatchResponse(Thrown(Str(typeErrorMessage), Undefined, Undefined))
      else
        match Decide(body, env)
        case Reject(status, error, help) => Rejected(status, error, help)
        case Dispatch(call) =>
          match upstream
          case Streams => Streamed(call)
          case Throws(e) => CatchResponse(e)
  }

  /** A rejected request issues no upstream call: its response does not depend on the upstream outcome. */
  lemma RejectedWithoutUpstream(body: Destructurable, env: Env, u1: Upstream, u2: Upstream, msg: string)
    requires Decide(body, env).Reject?
    ensures Post(Json(body), env, u1, msg) == Post(Json(body), env, u2, msg)
    ensures Post(Json(body), env, u1, msg) ==
      Rejected(Decide(body, env).status, Decide(body, env).error, Decide(body, env).help)
  {
  }

  /** The handler streams exactly when the guards dispatch and the upstream call succeeds, and streams that call. */
  lemma StreamsExactlyWhenDispatched(req: RequestBody, env: Env, upstream: Upstream, msg: string)
    ensures Post(req, env, upstream, msg).Streamed? <==>
      req.Json? && !req.value.Null? && !req.value.Undefined? &&
      Decide(req.value, env).Dispatch? && upstream.Streams?
    ensures Post(req, env, upstream, msg).Streamed? ==>
      Post(req, env, upstream, msg).call == Decide(req.value, env).call
  {
  }

  /**
   * A body that fails to parse ends in the catch block with the parse error; a null or
   * undefined body ends there with the destructuring TypeError, so with status 500.
   */
  lemma UnusableBodyFails(req: RequestBody, env: Env, upstream: Upstream, msg: string)
    requires req.Unparsable? || req.value.Null? || req.value.Undefined?
    ensures req.Unparsable? ==> Post(req, env, upstream, msg) == CatchResponse(req.e)
    ensures req.Json? ==> Post(req, env, upstream, msg) == CatchResponse(Thrown(Str(msg), Undefined, Undefined))
    ensures Post(req, env, upstream, msg).Failed?
    ensures req.Json? ==> Post(req, env, upstream, msg).code == Number(500)
    ensures req.Json? ==> Post(req, env, upstream, msg).details == Str(DefaultErrorDetails)
  {
  }

  /** A provider failure during dispatch is mapped by the catch block. */
  lemma UpstreamFailureMapped(body: Destructurable, env: Env, e: Thrown, msg: string)
    requires Decide(body, env).Dispatch?
    ensures Post(Json(body), env, Throws(e), msg) == CatchResponse(e)
  {
  }

  /** `{messages: [], provider: "openai"}` on a deployment without a gateway key: the 500 configuration error. */
  lemma ScenarioNoKey(id: Option<string>, upstream: Upstream, msg: string)
    ensures Post(Json(Object(map["messages" := Array([]), "provider" := Str("openai")])), Env(None, id), upstream, msg)
      == Rejected(500, GatewayKeyError, Some(GatewayKeyHelp))
  {
  }

  /** `provider: "bogus"`: 400, and the error lists the valid providers. */
  lemma ScenarioBogusProvider(env: Env, upstream: Upstream, msg: string, messages: JsValue)
    ensures Post(Json(Object(map["messages" := messages, "provider" := Str("bogus")])), env, upstream, msg).Rejected?
    ensures Post(Json(Object(map["messages" := messages, "provider" := Str("bogus")])), env, upstream, msg).status == 400
    ensures Contains(Post(Json(Object(map["messages" := messages, "provider" := Str("bogus")])), env, upstream, msg).error, ValidProviderList)
  {
  }
}
