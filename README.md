# Vimeo bridge: a verified model

The React Native `Vimeo` component (`Vimeo.ios.js`) embeds the Vimeo player page
in a web view. It talks to that page through a text channel, `WebViewBridge`.
This project models the component's side of that channel and proves what it
guarantees. The component's state is:

- a handler table from event names to callbacks (`this.handlers`);
- a readiness flag that only ever turns on (`this.state.ready`);
- the texts sent with `sendToBridge`.

The operations modelled are:

- `registerBridgeEventHandler`: store a handler under a name; the last one wins.
- `registerHandlers`: bind `ready`, `play`, `playProgress`, `pause` and `finish`.
  It runs on mount and on every props update.
- `onBridgeMessage`: JSON-decode an inbound text, drop it if decoding fails, and
  otherwise call the handler registered under the payload's `name`, if that
  handler is truthy.
- `onReady`: commit readiness, then schedule the host's `onReady` with
  `setTimeout` so that it never runs inline.
- `api(method, cb)`: throw unless ready; otherwise send the method name and bind
  `cb` under that same name, so the page's answer reaches `cb`.
- `getVimeoPageURL`: the player page address for a video.

Files:

- `option.dfy`: module `Optional`, the `Option` type. `None` stands for an
  undefined or falsy JavaScript value.
- `vimeo_url.dfy`: module `VimeoUrl`, the page address. It has an inverse, and
  the two are proved to round-trip.
- `bridge.dfy`: module `Bridge`, the component's state as a value and one
  function per operation, with the lemmas that state what the source promises.
- `vimeo.dfy`: module `VimeoComponent`, the class `Vimeo`. Its fields are
  updated in place, as in the source, and every method is proved to produce
  exactly the state the matching `Bridge` function gives. A client scenario
  follows the class.
- `traces.dfy`: module `Traces`, whole runs of the component. A props update
  in a run is either the hook as written or the corrected one, so the results
  cover both. Induction over runs proves three things: readiness is one-way,
  nothing is sent before readiness, and the host's deferred `onReady` only runs
  once the component is ready.

Stand-ins for what the component cannot see:

- JSON.parse is a parameter `decode: string -> Option<Payload>`; `None` is a
  parse error.
- The web view's outbound channel is the sequence `outbox`.
- `setTimeout` is a FIFO queue `deferred`, and one turn of the event loop is
  `RunDeferred`.
- A host callback's identity is a number, and calling it appends an
  `Invocation` to the log `invoked`.

Three behaviours of the code a reader might not expect:

- `api` sends the bare method name as the message text.
- `api` registers `cb` even when it is undefined. So `api("play")` with no
  callback removes the `onPlay` binding.
- Every message routed to the component's `onReady` commits readiness again
  and schedules the host's `onReady` again
  (`Bridge.ReadyMessageCommitsReadiness`).

## Model

| member | source | states |
|---|---|---|
| `VimeoUrl.VimeoPageUrl` | Vimeo.ios.js:12-14 | the address is the player prefix followed by the video id, character for character |
| `VimeoUrl.VideoIdRoundTrip` | Vimeo.ios.js:12-14 | the video id can be read back from the page address |
| `VimeoUrl.PageUrlRoundTrip` | Vimeo.ios.js:12-14 | every address with the player prefix is the page of the id that follows the prefix |
| `VimeoUrl.VimeoPageUrlInjective` | Vimeo.ios.js:12-14 | distinct videos get distinct page addresses |
| `Bridge.Init` | Vimeo.ios.js:29-35 | a constructed component reads every name as undefined, is not ready, and has sent, scheduled and called nothing; `Bridge.FreshInstanceIgnoresMessages` and `Bridge.FreshInstanceRefusesApi` state what follows |
| `Bridge.Lookup` | Vimeo.ios.js:72 | a name missing from the table reads as undefined; a truthy result is the stored entry |
| `Bridge.RegisterHandlers` | Vimeo.ios.js:53-59 | only the table changes, and it becomes `BindLifecycle` of the current props; `Bridge.RegisterHandlersIdempotent` states that a second run changes nothing |
| `Bridge.OnReady` | Vimeo.ios.js:76-82 | `ready` is set; the host's `onReady` is appended to the deferred queue exactly when the prop is set; no host callback is called; the table, channel and props are unchanged |
| `Bridge.Invoke` | Vimeo.ios.js:73 | calling a host callback logs one call with the data and changes nothing else; calling the component's `onReady` is exactly `Bridge.OnReady`: it sets `ready`, schedules the host's `onReady` when set and calls no host callback; neither changes the table or sends |
| `Bridge.OnBridgeMessage` | Vimeo.ios.js:65-74 | a message never changes the table, the channel or the props and never clears `ready`; a decode failure changes nothing; at most one host callback is called; the case lemmas below give each branch exactly |
| `Bridge.Api` | Vimeo.ios.js:45-51 | it succeeds exactly when ready; a throw carries the source's message and leaves the state unchanged; success appends the method name to the channel and binds the callback under it; readiness, the queue and the call log are untouched |
| `Bridge.RunDeferred` | Vimeo.ios.js:81 | with nothing queued it changes nothing; otherwise the oldest task leaves the queue and is logged as called once with no argument, and nothing else changes (also stated by `Bridge.RunDeferredCallsOldestTask`) |
| `Bridge.ReceivePropsAsWritten` | Vimeo.ios.js:41-43 | as written: the new props are installed, but the table is bound from the previous props; nothing else changes |
| `Bridge.ReceiveProps` | Vimeo.ios.js:41-43 | as intended: the new props are installed and the table is bound from them; nothing else changes |
| `Traces.Step` | Vimeo.ios.js:37-82 | one mount, props update (as written or corrected), inbound message, `api` call or event-loop turn; the channel only grows |
| `Traces.Run` | Vimeo.ios.js:37-82 | the events applied in order; what was sent stays sent, by induction over the run |
| `Bridge.Register` | Vimeo.ios.js:61-63 | the entry for the name becomes the given handler, every other name reads as before, and the name is added to the table |
| `Bridge.RegisterLastWins` | Vimeo.ios.js:61-63 | registering twice under one name is the same as registering only the second handler |
| `Bridge.BindLifecycle` | Vimeo.ios.js:53-59 | `ready` is bound to the component's own `onReady`; `play`, `playProgress`, `pause` and `finish` are bound to the matching props; all other names are untouched |
| `Bridge.BindLifecycleIdempotent` | Vimeo.ios.js:53-59 | binding the lifecycle names twice with the same props gives the same table as binding them once |
| `Bridge.RegisterHandlersIdempotent` | Vimeo.ios.js:53-59 | `registerHandlers` changes only the table, and a second run changes nothing |
| `Bridge.FreshInstanceIgnoresMessages` | Vimeo.ios.js:29-35 | a freshly constructed component drops every inbound message: its table is empty |
| `Bridge.FreshInstanceRefusesApi` | Vimeo.ios.js:29-48 | a freshly constructed component is not ready, so `api` throws and nothing changes |
| `Bridge.DecodeFailureIsDropped` | Vimeo.ios.js:65-71 | a text that fails to decode leaves the whole state unchanged and calls no handler |
| `Bridge.UnhandledMessageIsSilent` | Vimeo.ios.js:72-73 | a message whose name has no entry, or an undefined one, changes nothing and raises no error |
| `Bridge.DispatchCallsHandlerOnce` | Vimeo.ios.js:72-73 | a message whose name is bound to a host callback calls that callback exactly once, with the payload's data, and changes nothing else |
| `Bridge.ReadyMessageCommitsReadiness` | Vimeo.ios.js:76-82 | a message routed to the component's `onReady` sets `ready`, schedules the host's `onReady` only when the prop is set, and calls no host callback inline |
| `Bridge.MountedReadyMessageCommitsReadiness` | Vimeo.ios.js:72-77 | after `registerHandlers`, a message named `ready` makes the component ready |
| `Bridge.ApiBeforeReadyThrows` | Vimeo.ios.js:45-48 | `api` before readiness throws the source's error message; nothing is sent and the table is unchanged |
| `Bridge.ApiWhenReadySendsAndRegisters` | Vimeo.ios.js:49-50 | `api` when ready sends the method name and binds the callback under it, displacing any lifecycle handler of that name; nothing else changes |
| `Bridge.ApiResponseReachesCallback` | Vimeo.ios.js:49-73 | after `api(method, cb)`, an inbound message named `method` calls `cb` once with that message's data |
| `Bridge.ApiDisplacesReadyHook` | Vimeo.ios.js:49-62 | after `api("ready", cb)`, a `ready` message calls `cb` instead of scheduling the host's `onReady` |
| `Bridge.RunDeferredCallsOldestTask` | Vimeo.ios.js:81 | a turn of the event loop calls the oldest scheduled callback once, with no argument, and leaves readiness and the table alone |
| `Bridge.StaleBindingAfterPropsChange` | Vimeo.ios.js:41-43 | as written, after the props change from `onPlay` 1 to `onPlay` 2, the `play` entry still calls callback 1 |
| `Bridge.ReceivePropsBindsNewCallbacks` | Vimeo.ios.js:41-43 | as intended, after new props every lifecycle name is bound to the new props' callbacks, and every other entry and all other state are untouched |
| `VimeoComponent.Vimeo.constructor` | Vimeo.ios.js:29-35 | a new component has an empty table and is not ready; nothing has been sent, scheduled or called |
| `VimeoComponent.Vimeo.RegisterBridgeEventHandler` | Vimeo.ios.js:61-63 | the entry is updated in place: the name reads as the new handler, other names and all other fields are unchanged |
| `VimeoComponent.Vimeo.RegisterHandlers` | Vimeo.ios.js:53-59 | the five in-place writes leave the component in the state `Bridge.RegisterHandlers` gives |
| `VimeoComponent.Vimeo.ComponentDidMount` | Vimeo.ios.js:37-39 | mounting runs `registerHandlers` |
| `VimeoComponent.Vimeo.ComponentWillReceivePropsAsWritten` | Vimeo.ios.js:41-43 | the hook binds the props held before the update, and then the new props are installed |
| `VimeoComponent.Vimeo.ComponentWillReceiveProps` | Vimeo.ios.js:41-43 | the corrected hook installs the new props and binds the lifecycle names to them |
| `VimeoComponent.Vimeo.OnReady` | Vimeo.ios.js:76-82 | `ready` is set, no host callback runs inline, and the host's `onReady` is queued when set |
| `VimeoComponent.Vimeo.OnBridgeMessage` | Vimeo.ios.js:65-74 | a decode failure changes nothing; otherwise the new state is the one `Bridge.OnBridgeMessage` gives |
| `VimeoComponent.Vimeo.Api` | Vimeo.ios.js:45-51 | before readiness it throws and changes nothing; when ready it appends the method name to the channel and binds the callback |
| `VimeoComponent.Vimeo.RunDeferredTask` | Vimeo.ios.js:81 | a turn of the event loop runs the oldest task scheduled with `setTimeout` |
| `VimeoComponent.ReadyThenCall` | Vimeo.ios.js:45-82 | on a mounted component with any props, `api` throws before the `ready` message and succeeds after it; exactly one text goes out, the answer reaches the callback once, and the host's `onReady`, when set, is queued but not yet called |
| `Traces.StepKeepsReady` | Vimeo.ios.js:76-77 | no operation resets readiness |
| `Traces.RunKeepsReady` | Vimeo.ios.js:76-77 | once ready, the component stays ready for the rest of any run |
| `Traces.StepFromNotReadySendsNothing` | Vimeo.ios.js:45-49 | from a state that is not ready, no event adds to the channel, the event that makes the component ready included |
| `Traces.StepBeforeReadySendsNothing` | Vimeo.ios.js:45-49 | an operation that leaves the component not ready found it not ready and sent nothing |
| `Traces.NothingSentBeforeReady` | Vimeo.ios.js:45-49 | over any run that ends not ready, the channel holds only what it held at the start |
| `Traces.StepKeepsReadyBeforeDeferred` | Vimeo.ios.js:76-82 | every operation keeps the invariant that a pending deferred callback implies readiness |
| `Traces.RunKeepsReadyBeforeDeferred` | Vimeo.ios.js:76-82 | every run keeps that invariant |
| `Traces.DeferredCallbackSeesReady` | Vimeo.ios.js:78-81 | from construction on, whenever the host's deferred `onReady` is about to run, the component is already ready |
| `Traces.FreshComponentSilentUntilReady` | Vimeo.ios.js:29-49 | from construction on, until the component is ready, nothing has been sent and no host `onReady` is pending |

## Findings

| source | as written | input that shows it | evidently intended | confidence | as-written member | corrected member |
|---|---|---|---|---|---|---|
| Vimeo.ios.js:41-43 | `componentWillReceiveProps` calls `registerHandlers`, which reads `this.props`; React calls this hook before it replaces `this.props` with the incoming props, so the table is bound to the previous props | mount with `onPlay` = callback 1, then re-render with `onPlay` = callback 2; a `play` message still calls callback 1 | bind the lifecycle names to the incoming props (`nextProps`) | not executed; depends on React's documented hook order | `Bridge.StaleBindingAfterPropsChange` | `Bridge.ReceivePropsBindsNewCallbacks` |

The as-written hook is `Bridge.ReceivePropsAsWritten`, with its class
counterpart `VimeoComponent.Vimeo.ComponentWillReceivePropsAsWritten`. The
corrected one is `Bridge.ReceiveProps`, with its class counterpart
`VimeoComponent.Vimeo.ComponentWillReceiveProps`. A run in `Traces` may use
either, as the events `NewProps` and `NewPropsRebound`, so every whole-run
property holds for the code as written.

## Left out

- `render` and the `WebViewBridge` element (Vimeo.ios.js:84-101): layout, styling and the third-party web view. `getVimeoPageURL` is modelled; its use as the page source is not.
- `propTypes` (Vimeo.ios.js:19-27): runtime validation of props. The `scalesPageToFit` and `height` props only reach `render`, so `Bridge.Props` does not hold them.
- `console.error` on web-view errors (Vimeo.ios.js:98): a diagnostic side channel.
- JSON.parse: a foreign library. It is the parameter `decode`, and nothing is assumed about it.
- Bridge.OnBridgeMessage: a payload that parses but is not an object is not modelled. The text `null` parses, and `payload.name` then throws a TypeError out of `onBridgeMessage`. Non-string names are coerced to property keys, and a missing name reads as the key "undefined". `decode` yields only a string name and data.
- Bridge.Lookup: the handler table is a plain object, so inherited `Object.prototype` members (`toString`, `constructor`, `__proto__`) read as truthy entries. The model reads a missing name as undefined.
- Bridge.Invoke: a truthy entry that is not a function would throw when called. Props are modelled as callbacks only.
- What a host callback does when called, including re-entrant calls of `api`: foreign code. Each call is recorded in `invoked` and nothing more.
- React's asynchronous, batched `setState`: `ready` is a plain field that is set at once.
- `setTimeout`'s timing: tasks are a FIFO queue, and `RunDeferred` is one turn of the loop.
- Failures of `sendToBridge` and the `refs` lookup: transport I/O. `api` only reaches `sendToBridge` once ready, and readiness needs a message from the mounted web view.
