# Chat relay endpoint of vercel-ai-gateway, modelled in Dafny

The application is a small chat front end. It sends a conversation and a
provider selector (`openai`, `anthropic` or `google`) to one server route.
That route forwards the conversation through the Vercel AI Gateway to the
chosen provider's streaming completion API. This project models the route's
request handling as pure functions:

- the closed `Provider` union (`chat_types.dfy`);
- an `Option` type for a value that may be undefined (`options.dfy`);
- the JavaScript values a parsed body and a thrown error hold, and their
  truthiness, which every guard in the route tests (`js_values.dfy`);
- in `chat_route.dfy`:
  - `getGatewayURL`;
  - the three provider instances built from the environment;
  - the `providerConfig` table;
  - the four guards of `POST`, in their fixed order;
  - the catch block that maps an exception to an error response;
  - the whole handler `Post`.

The deployment's environment (`VERCEL_AI_GATEWAY_KEY`, `VERCEL_AI_GATEWAY_ID`)
is a parameter `Env`. The parsed request body is an input: a value, or the
exception `req.json()` throws. The outcome of the streaming SDK call is a
parameter `Upstream`: it streams or it throws. A successful request is
modelled up to the call it issues: `StreamCall(provider, client, model, messages)`.

The guards are also restated as four named checks (`Check`, `Passes`). They
are tried in `CheckOrder`, and `DecideFollowsCheckOrder` proves that the route
rejects with the status of the first failing check. So a deployment without a
gateway key answers 500 even to a body that names a known provider but whose
`messages` is malformed; a missing or unknown provider is still a 400. The
configuration check reads the single `VERCEL_AI_GATEWAY_KEY` for every
provider (app/api/chat/route.ts:98), and its error response carries a `help`
field beside `error` (app/api/chat/route.ts:102).

## Model

| member | source | states |
|---|---|---|
| `ChatTypes.NameIsFaithful` | types/chat.ts:1 | each provider's literal is one of the three names, and distinct providers have distinct names |
| `ChatRoute.GatewayURL` | app/api/chat/route.ts:31-37 | a URL exists exactly when the gateway id is set and non-empty; it is then `https://gateway.vercel.com/v1/` + id + `/` + segment |
| `ChatRoute.GatewayURLInjective` | app/api/chat/route.ts:33 | for a fixed gateway id, equal URLs come from equal provider segments |
| `ChatRoute.ProviderInstance` | app/api/chat/route.ts:42-55 | each instance has the gateway key as its API key and the gateway URL for its provider's segment as its base URL |
| `ChatRoute.ProviderInstancesRouteApart` | app/api/chat/route.ts:42-55 | with a gateway id, every instance has a base URL; Google's ends in `google-ai`; distinct providers get distinct URLs |
| `ChatRoute.NoGatewayIdMeansDefaultEndpoints` | app/api/chat/route.ts:35-36 | without a gateway id, no instance has a base URL, so the SDK's default endpoint is used |
| `ChatRoute.ProviderConfig` | app/api/chat/route.ts:58-71 | the total lookup returns the named provider's instance, with the gateway key and that provider's gateway URL, and that provider's model id |
| `ChatRoute.ProviderConfigModels` | app/api/chat/route.ts:58-71 | the model ids are gpt-4-turbo, claude-3-5-sonnet-20241022 and gemini-1.5-pro |
| `ChatRoute.ParseProvider` | app/api/chat/route.ts:88-95 | a provider is found exactly for the three names, and the provider found has that name |
| `ChatRoute.ParseName` | app/api/chat/route.ts:88 | each provider's own name is accepted and resolves to that provider |
| `ChatRoute.InvalidProviderError` | app/api/chat/route.ts:91 | the error text contains the rejected provider name and the list `openai, anthropic, google` |
| `ChatRoute.Decide` | app/api/chat/route.ts:73-128 | a rejection has status 400 or 500; a dispatch calls the provider's own instance with that provider's model id |
| `ChatRoute.FirstFailing` | app/api/chat/route.ts:79-122 | no check is returned exactly when all checks pass; a returned check is the first one in the list that fails, every check before it passing |
| `ChatRoute.DecideFollowsCheckOrder` | app/api/chat/route.ts:79-122 | dispatch exactly when no check fails; otherwise a rejection whose status is that of the first failing check in the order provider-string, provider-known, gateway-key, messages-array |
| `ChatRoute.ProviderMissing` | app/api/chat/route.ts:80-85 | a provider that is absent, falsy (including "") or not a string gives 400 and the "required and must be a string" error, whatever the environment and messages |
| `ChatRoute.ProviderUnknown` | app/api/chat/route.ts:88-95 | a non-empty string provider outside the set gives 400, and the error contains that provider and `openai, anthropic, google` |
| `ChatRoute.GatewayKeyMissing` | app/api/chat/route.ts:98-106 | a known provider with the gateway key unset or empty gives the 500 configuration error with its help text, whatever `messages` is |
| `ChatRoute.MessagesMalformed` | app/api/chat/route.ts:117-122 | with a known provider and a key, `messages` that is missing or not an array gives 400 and the messages error |
| `ChatRoute.DispatchExactlyWhenValid` | app/api/chat/route.ts:113-128 | dispatch happens if and only if the provider is known, the key is set and `messages` is an array; the call uses `providerConfig[provider]` and the request's messages |
| `ChatRoute.GatewayIdDoesNotAffectValidation` | app/api/chat/route.ts:108-111 | the gateway id never changes whether a request is rejected or the rejection itself; in a dispatched call it changes only the client's base URL |
| `ChatRoute.CatchResponse` | app/api/chat/route.ts:138-150 | status is `statusCode` when truthy, else 500; error is the message when truthy, else the default text; details is the cause when truthy, else "Provider API failure" |
| `ChatRoute.CatchResponseFieldsTruthy` | app/api/chat/route.ts:138-150 | a caught-error response never has a falsy status, error or details |
| `ChatRoute.Post` | app/api/chat/route.ts:73-152 | the handler streams only if the upstream call streams; its guard rejections have status 400 or 500 |
| `ChatRoute.RejectedWithoutUpstream` | app/api/chat/route.ts:79-122 | a rejected request's response is the guard's rejection and does not depend on the upstream outcome, so no upstream call is made |
| `ChatRoute.StreamsExactlyWhenDispatched` | app/api/chat/route.ts:124-131 | the handler streams if and only if the body destructures, the guards dispatch and the upstream call succeeds; it streams exactly the dispatched call |
| `ChatRoute.UnusableBodyFails` | app/api/chat/route.ts:74-150 | a body that fails to parse gets the catch block's response for the parse error; a null or undefined body gets the catch block's response for the destructuring TypeError, so status 500 and details "Provider API failure" |
| `ChatRoute.UpstreamFailureMapped` | app/api/chat/route.ts:125-150 | an exception from the dispatched call becomes the catch block's response for that exception |
| `ChatRoute.ScenarioNoKey` | app/api/chat/route.ts:98-106 | `{messages: [], provider: "openai"}` without a gateway key gives the 500 configuration error |
| `ChatRoute.ScenarioBogusProvider` | app/api/chat/route.ts:88-95 | `provider: "bogus"` gives 400, and the error lists the valid providers |

## Left out

- `app/page.tsx`, `components/ProviderSelector.tsx` and `app/layout.tsx` are rendering and styling only. The client's stream parsing is done by the SDK's `useChat` hook, so it is not part of this model.
- `PROVIDER_CONFIGS` in `types/chat.ts` is display data. Its model strings (`gpt-4`, `gemini-pro`) differ from the table the route uses. The model follows the route.
- The SDK calls (`streamText`, `toDataStreamResponse`, `createOpenAI`, `createAnthropic`, `createGoogleGenerativeAI`) are foreign code. A client is modelled by its configuration. The streaming call's outcome is the `Upstream` parameter. The relayed stream is represented by the call that produces it.
- `process.env` reads happen once, at module load. They become the `Env` parameter.
- `req.json()` is represented by its result (`RequestBody`).
- The TypeError message for destructuring a null or undefined body is engine-defined. It is the parameter `typeErrorMessage`.
- `console.warn` (missing gateway id) and `console.error` (caught error) are logging only. They are not modelled. `GatewayIdDoesNotAffectValidation` shows that the warning's condition does not change the outcome.
- The route does async/await and HTTP streaming, and sets a `Content-Type` header on each JSON response. This plumbing is not modelled.
- Numbers in `JsValue` are integers, so fractional numbers, NaN and BigInt are not represented. A string provider is the only kind that reaches the template literal of the invalid-provider error, so value-to-string conversion is not modelled.
- `CatchResponse` copies a truthy `statusCode` into the status unchanged. It does not model the `Response` constructor rejecting a status outside 200-599 or a non-number status. It does not model a thrown value that is not an object either (reading `.message` of a thrown `null` fails inside the catch block).
- A property read returns a parsed object's own data property, and `undefined` for any other value. Inherited properties are not modelled.
