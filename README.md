# OmniBrain SDK client — a Dafny model

The OmniBrain SDK is a thin TypeScript client for a remote project-generation service.
An `OmniBrain` client holds an API key and a wallet address and sends authenticated
JSON requests to `https://api.omnibrain.fun/v1`. `createProject` submits a project
configuration and returns a `Project` handle bound to the id the service assigns. The
handle proxies the per-project calls (status, agent feedback, agent suggestions,
analytics, report export). It keeps per-agent update listeners in its event emitter, and
`waitForCompletion` polls the status until the project completes or reports an error.

This project models that client core in Dafny and proves what it promises.

- `wrappers.dfy` (`Wrappers`): `Option` and `Result`.
- `jsvalues.dfy` (`JsValues`): parsed JSON bodies, and the JavaScript semantics the client
  relies on when it reads them. This covers property reads (a read off `null` throws),
  truthiness (`||`, `if`) and `String()` conversion (template literals, `new Error(x)`),
  for numbers only within the limits listed under "Left out".
- `routes.dfy` (`Routes`): the endpoint paths the client builds, and a parser that reads a
  path back. It proves that a path determines its endpoint when every id is one path
  segment.
- `client.dfy` (`Client`): the request primitive. It covers the URL, the header merge
  (caller headers win) and the choice between a value and a thrown error once the reply
  arrives. It also gives the request of every public operation, a decoder proving that
  request determines the operation, and the id `createProject` binds.
- `projects.dfy` (`Projects`): the `Project` class with its listener registry
  (`onAgentUpdate` and the unsubscribe closure), and `waitForCompletion` as a loop over
  the replies its status fetches receive. That loop is proved against a recursive
  reference definition `Await`, whose outcome and fetch count are characterised by lemmas.
  The file also holds `createProject`.

`fetch` is not modelled. An operation is shaped into an `Outgoing` request, and the
`Reply` it received is an input: a network rejection, or a response with its `ok` flag
and its body (parsed JSON, or text that does not parse). Each 5000 ms wait between polls
is one loop iteration. A finite sequence of replies stands for the service's answers.
When the sequence runs out before a terminal status, the wait is `StillPolling`: the
source then keeps polling without bound.

Behaviour of `src/sdk/index.ts` worth noting:

- A failed response whose body is not JSON rejects with the JSON parse error
  (`InvalidJson`). It does not fall back to `'Request failed'`.
- A failed response whose body is `null` rejects with a TypeError (`NullRead("message")`).
- The thrown error carries only a message, not the HTTP status.
- A status whose `error` is the empty string is not terminal and is polled again.
- The wait has no interval setting and no attempt ceiling.

## Model

| member | source | states |
|---|---|---|
| `Client.Url` | src/sdk/index.ts:29 | the request URL is the base URL followed by exactly the endpoint (stripping the base gives the endpoint back) |
| `Client.DefaultHeaders` | src/sdk/index.ts:30-34 | the defaults are exactly `Content-Type`, `Authorization` and `X-Wallet-Address` |
| `Client.MergeHeaders` | src/sdk/index.ts:38-41 | the merged keys are the three defaults plus the caller's keys; every caller header keeps its value; each default keeps `application/json`, `Bearer <apiKey>` or the wallet unless the caller sets that key |
| `Client.Prepare` | src/sdk/index.ts:28-42 | the outgoing request targets base URL + endpoint, keeps the caller's method and body, and carries the merged headers |
| `Client.FailureMessage` | src/sdk/index.ts:46 | the error message is the body's `message` (as a string) when truthy, otherwise `'Request failed'` |
| `Client.Interpret` | src/sdk/index.ts:44-49 | success exactly for an ok response with a parseable body, returning that body unchanged; a rejected fetch or unparseable body propagates; a failed response with a `null` body throws a TypeError; any other failed response throws the chosen message |
| `Client.ServerMessageReported` | src/sdk/index.ts:44-47 | a failed response with body `{message: m}`, `m` non-empty, rejects with exactly `m` |
| `Client.FallbackMessage` | src/sdk/index.ts:44-47 | a failed response whose object body has no message or an empty one rejects with `'Request failed'` |
| `Client.Request` | src/sdk/index.ts:52-109 | every operation requests base URL + its route's path and sends exactly the three default headers, so `Authorization` and `X-Wallet-Address` always come from the stored credentials |
| `Client.DecodeRequest` | src/sdk/index.ts:52-109 | with single-segment ids, the request an operation sends can be read back to that operation: endpoint, method (POST or GET) and payload |
| `Client.RequestInjective` | src/sdk/index.ts:52-109 | two operations with single-segment ids that send the same request are the same operation |
| `Client.CreatedId` | src/sdk/index.ts:52-58 | the handle id is the reply's `projectId` in its string form: a string id as is, a numeric id as its decimal numeral, `"undefined"` when the reply object has no `projectId` or the reply is not an object; request failures propagate unchanged; a `null` reply body throws a TypeError |
| `Routes.Path` | src/sdk/index.ts:77-105 | every endpoint path starts with `/projects` |
| `Routes.ParsePath` | src/sdk/index.ts:77-105 | parsing the path of `/projects/{id}/status`, `/projects/{id}/agents/{agentId}/feedback`, `…/suggestions`, `/projects/{id}/analytics`, `/projects/{id}/report` or `/projects` gives back the route and its ids when the ids contain no `/` |
| `Routes.PathInjective` | src/sdk/index.ts:77-105 | distinct routes with single-segment ids have distinct paths |
| `Routes.UnescapedIdsCollide` | src/sdk/index.ts:87 | because ids are not escaped, two different feedback targets can share one path |
| `JsValues.Property` | src/sdk/index.ts:46 | for the keys the client reads (`message`, `projectId`, `completed`, `error`, `output`): a property read fails exactly on `null`, is `undefined` unless the value is an object holding the key, and otherwise yields the key's value |
| `Projects.StatusJson` | src/sdk/types.ts:76-82 | a status snapshot's JSON carries its `completed` flag, and has `error` and `output` keys exactly when the snapshot has them |
| `Projects.Step` | src/sdk/index.ts:113-125 | a rejected fetch rejects with its failure; a truthy `completed` resolves with `output` whether or not `error` is set; otherwise a truthy `error` rejects with that message; otherwise the handle polls again; only these decisions occur |
| `Projects.StatusDecision` | src/sdk/index.ts:116-122 | on a typed snapshot, completed resolves with its output (or `undefined`), else a non-empty error rejects with exactly that text, else the handle polls again |
| `Projects.AwaitOutcome` | src/sdk/index.ts:111-129 | every reply before the last one fetched re-polls; a settled wait settles with the decision on the last reply fetched; a wait still polling has fetched every reply and none was terminal |
| `Projects.AwaitFirstSettled` | src/sdk/index.ts:113-127 | when reply k is the first terminal one, the wait makes exactly k + 1 fetches and settles with reply k's decision |
| `Projects.AwaitNeverSettled` | src/sdk/index.ts:113-127 | replies that are never terminal are all fetched, one further poll per reply, and the wait never settles |
| `Projects.AwaitIgnoresLaterReplies` | src/sdk/index.ts:116-124 | once the wait has settled, no later reply is fetched or affects the outcome |
| `Projects.ResolvesOnThirdPoll` | src/sdk/index.ts:111-129 | running, running, completed with output X: three fetches, resolving with X |
| `Projects.RejectsOnSecondPoll` | src/sdk/index.ts:111-129 | running, then error "disk full": two fetches, rejecting with "disk full" |
| `Projects.Project.WaitForCompletion` | src/sdk/index.ts:111-129 | the loop sends only the handle's status request, and its outcome and fetch count are those of `Await` |
| `Projects.Channel` | src/sdk/index.ts:82-83 | the channel of an agent is `agent:` followed by the agent id, which can be recovered from it |
| `Projects.AddListener` | src/sdk/index.ts:82 | `on` appends the callback to its channel's listeners and leaves every other channel unchanged |
| `Projects.RemoveListener` | src/sdk/index.ts:83 | `off` removes the last occurrence of the callback from its channel; other channels are unchanged; nothing changes when the callback is absent; no empty channel is left behind |
| `Projects.UnsubscribeUndoesSubscribe` | src/sdk/index.ts:81-84 | calling the returned unsubscribe right after subscribing restores the registry exactly |
| `Projects.UnsubscribeRemovesSingleListener` | src/sdk/index.ts:83 | a callback registered once on a channel is gone after one unsubscribe, and a second unsubscribe changes nothing |
| `Projects.ChannelsIsolated` | src/sdk/index.ts:81-84 | subscribing or unsubscribing on one agent id never changes the listeners of another agent id |
| `Projects.ListenersInRegistrationOrder` | src/sdk/index.ts:82 | two listeners on one agent are both delivered to, in registration order |
| `Projects.Project.constructor` | src/sdk/index.ts:70-74 | a new handle is bound to the given id and client, and has no listeners |
| `Projects.Project.OnAgentUpdate` | src/sdk/index.ts:81-84 | registers the callback on `agent:<agentId>` only, and returns an unsubscribe for that same channel and callback |
| `Projects.Project.Unsubscribe` | src/sdk/index.ts:83 | the returned closure removes the callback from its channel and leaves other agents' listeners unchanged |
| `Projects.CreateProject` | src/sdk/index.ts:52-58 | posts the configuration as the body to `/projects`; on success returns a fresh handle whose id is the reply's `projectId`; otherwise rejects with the request's failure |

## Left out

- `fetch` and the network are parameters: the reply to each request is an input. HTTP
  status codes other than the `ok` flag are not modelled.
- `JSON.stringify` of request bodies and the text form of responses are not modelled.
  Bodies are parsed JSON values, and non-integer numbers (fractions, NaN) are not modelled.
- JsValues.Text: numbers are exact integers, whereas the source holds JSON numbers as
  doubles. Integers beyond 2^53 lose precision there, and `String()` writes values of
  1e21 or more in exponent form (`1e+21`); the model writes every integer's full digits.
  This affects an error message taken from a numeric `message` or `error`, and a numeric
  `projectId` as it appears in paths.
- JsValues.Property: the contract holds for the keys the client reads; built-in
  properties such as `length` of strings and arrays are not modelled.
- The 5000 ms `setTimeout` between polls is not modelled: each delay is one loop step.
  The Promise and async machinery is not modelled either, since at most one poll is
  outstanding at a time.
- Projects.Project.WaitForCompletion: an endless run of non-terminal statuses cannot be
  modelled over a finite reply sequence. It ends as `StillPolling`, where the source
  keeps polling forever.
- The cast of a status body to `ProjectStatus` is unchecked in the source, so statuses are
  read as JSON values. The typed `ProjectStatus` shape enters through its JSON encoding.
  The `output` payload (`ProjectOutput`) is passed through as its JSON value.
- Only plain-object header maps are modelled, not `Headers` instances or arrays of pairs.
  `fetch`'s case-insensitive merging of header names is not modelled either.
- `EventEmitter` internals are not modelled: the `newListener`/`removeListener` events,
  the max-listeners warning and `once` wrappers. Nothing in the repository emits agent
  updates. `Project.Emit` only returns the listeners an emission would call.
- Callbacks are modelled by their identity (`Listener`). The unsubscribe closure is the
  value `Subscription`, which `Project.Unsubscribe` applies.
- The `signMessage` credential is stored but never called, so it is not modelled. The
  Phantom wallet adapter is not part of this model.
- The payloads of `sendFeedback`, `getAgentSuggestions`, `getAnalytics` and
  `exportReport` are opaque JSON values. Only their requests and the shared reply handling
  are modelled.
- The repository's usage example scripts are not part of this model.
