/** The message-bridge state machine of the Vimeo component, written as values:
    the handler table, the readiness flag, the outbound channel, the queue of
    deferred tasks and a log of the host callbacks that have been called.
    Each operation of the component is a function from the old state to the new
    one; the class in vimeo.dfy is proved to perform exactly these steps. */
module Bridge {

  import opened Optional

  /** Identity of a callback the host application supplies (a prop or an `api` callback). */
  type CallbackId = nat

  /** A truthy entry of the handler table: the component's own `onReady`, or a host callback. */
  datatype Handler = ReadyHook | Host(callback: CallbackId)

  /** The `data` field of an inbound payload, `Undefined` when the field is absent.
      Its contents are opaque to the bridge. */
  datatype Data = Undefined | Json(text: string)

  /** A decoded inbound message. */
  datatype Payload = Payload(name: string, data: Data)

  /** The props the bridge reads. `None` is an unset (undefined) callback prop. */
  datatype Props = Props(
    videoId: string,
    onReady: Option<CallbackId>,
    onPlay: Option<CallbackId>,
    onPlayProgress: Option<CallbackId>,
    onPause: Option<CallbackId>,
    onFinish: Option<CallbackId>)

  /** One call of a host callback, with the argument it received. */
  datatype Invocation = Invocation(callback: CallbackId, arg: Data)

  /** How a call of `api` ends: the message went out, or an Error was thrown. */
  datatype Outcome = Sent | Thrown(message: string)

  /** Event name to handler; an entry may hold an undefined (falsy) handler. */
  type Handlers = map<string, Option<Handler>>

  datatype State = State(
    handlers: Handlers,
    ready: bool,
    outbox: seq<string>,      // every text handed to the web view, oldest first
    deferred: seq<CallbackId>, // tasks scheduled with setTimeout, oldest first
    invoked: seq<Invocation>,  // host callbacks called so far, oldest first
    props: Props)

  const NotReadyMessage := "You cannot use the `api` method until `onReady` has been called"

  /** The five names `registerHandlers` binds. */
  const LifecycleNames: set<string> := {"ready", "play", "playProgress", "pause", "finish"}

  /** A component as constructed: no handlers, not ready, nothing sent or scheduled. */
  function Init(props: Props): (s: State)
    ensures forall name :: Lookup(s.handlers, name).None?
    ensures !s.ready && s.outbox == [] && s.deferred == [] && s.invoked == []
    ensures s.props == props
  {
    State(map[], false, [], [], [], props)
  }

  /** Reading `handlers[name]`: a missing entry reads as undefined. */
  function Lookup(h: Handlers, name: string): (r: Option<Handler>)
    ensures name !in h ==> r.None?
    ensures r.Some? ==> name in h && h[name] == r
  {
    if name in h then h[name] else None
  }

  /** A host callback prop as a table entry. */
  function AsHandler(c: Option<CallbackId>): Option<Handler>
  {
    match c
    case None => None
    case Some(id) => Some(Host(id))
  }

  /** `registerBridgeEventHandler`: the entry for `name` becomes `handler`, whatever it was. */
  function Register(h: Handlers, name: string, handler: Option<Handler>): (r: Handlers)
    ensures Lookup(r, name) == handler
    ensures forall other :: other != name ==> Lookup(r, other) == Lookup(h, other)
    ensures r.Keys == h.Keys + {name}
  {
    h[name := handler]
  }

  /** The five writes of `registerHandlers`, in the source's order. */
  function BindLifecycle(h: Handlers, props: Props): (r: Handlers)
    ensures Lookup(r, "ready") == Some(ReadyHook)
    ensures Lookup(r, "play") == AsHandler(props.onPlay)
    ensures Lookup(r, "playProgress") == AsHandler(props.onPlayProgress)
    ensures Lookup(r, "pause") == AsHandler(props.onPause)
    ensures Lookup(r, "finish") == AsHandler(props.onFinish)
    ensures forall n :: n !in LifecycleNames ==> Lookup(r, n) == Lookup(h, n)
    ensures r.Keys == h.Keys + LifecycleNames
  {
    var h1 := Register(h, "ready", Some(ReadyHook));
    var h2 := Register(h1, "play", AsHandler(props.onPlay));
    var h3 := Register(h2, "playProgress", AsHandler(props.onPlayProgress));
    var h4 := Register(h3, "pause", AsHandler(props.onPause));
    Register(h4, "finish", AsHandler(props.onFinish))
  }

  /** `registerHandlers`, reading the props the component holds at the time. */
  function RegisterHandlers(s: State): (t: State)
    ensures t.handlers == BindLifecycle(s.handlers, s.props)
    ensures t.(handlers := s.handlers) == s
  {
    s.(handlers := BindLifecycle(s.handlers, s.props))
  }

  /** The component's `onReady`: commit readiness, then schedule the host's `onReady`
      (read from the current props) for a later turn, if there is one. */
  function OnReady(s: State): (t: State)
    ensures t.ready
    ensures t.invoked == s.invoked
    ensures t.deferred == if s.props.onReady.Some? then s.deferred + [s.props.onReady.value] else s.deferred
    ensures t.handlers == s.handlers && t.outbox == s.outbox && t.props == s.props
  {
    s.(ready := true,
       deferred := match s.props.onReady
                   case None => s.deferred
                   case Some(id) => s.deferred + [id])
  }

  /** Calling a truthy handler with `data`. */
  function Invoke(s: State, handler: Handler, data: Data): (t: State)
    ensures t.handlers == s.handlers && t.outbox == s.outbox && t.props == s.props
    ensures handler.Host? ==> t == s.(invoked := s.invoked + [Invocation(handler.callback, data)])
    ensures handler.ReadyHook? ==> t.ready && t.invoked == s.invoked
    ensures handler.ReadyHook? ==> t == OnReady(s)
  {
    match handler
    case ReadyHook => OnReady(s)
    case Host(id) => s.(invoked := s.invoked + [Invocation(id, data)])
  }

  /** `onBridgeMessage`: decode, look the name up, call the handler if it is truthy.
      `decode` stands for JSON.parse; `None` is a parse error. */
  function OnBridgeMessage(s: State, message: string, decode: string -> Option<Payload>): (t: State)
    ensures t.handlers == s.handlers && t.outbox == s.outbox && t.props == s.props
    ensures s.ready ==> t.ready
    ensures decode(message).None? ==> t == s
    ensures t.invoked == s.invoked || |t.invoked| == |s.invoked| + 1
  {
    match decode(message)
    case None => s
    case Some(payload) =>
      match Lookup(s.handlers, payload.name)
      case None => s
      case Some(handler) => Invoke(s, handler, payload.data)
  }

  /** `api(method, cb)`: throws unless ready; otherwise sends the bare method name and
      registers `cb` (even when it is undefined) under that same name. */
  function Api(s: State, call: string, cb: Option<CallbackId>): (r: (Outcome, State))
    ensures r.0 == Sent <==> s.ready
    ensures r.0.Thrown? ==> r.0.message == NotReadyMessage && r.1 == s
    ensures r.0 == Sent ==> r.1.outbox == s.outbox + [call] && Lookup(r.1.handlers, call) == AsHandler(cb)
    ensures r.1.ready == s.ready && r.1.deferred == s.deferred && r.1.invoked == s.invoked && r.1.props == s.props
  {
    if !s.ready then (Thrown(NotReadyMessage), s)
    else (Sent, s.(outbox := s.outbox + [call],
                   handlers := Register(s.handlers, call, AsHandler(cb))))
  }

  /** One turn of the event loop runs the oldest task scheduled with setTimeout;
      setTimeout passes the task no argument. */
  function RunDeferred(s: State): (t: State)
    ensures s.deferred == [] ==> t == s
    ensures s.deferred != [] ==>
      t == s.(deferred := s.deferred[1..], invoked := s.invoked + [Invocation(s.deferred[0], Undefined)])
    ensures |t.deferred| + |t.invoked| == |s.deferred| + |s.invoked|
    ensures t.ready == s.ready && t.handlers == s.handlers && t.outbox == s.outbox && t.props == s.props
  {
    if s.deferred == [] then s
    else s.(deferred := s.deferred[1..],
            invoked := s.invoked + [Invocation(s.deferred[0], Undefined)])
  }

  /** `componentWillReceiveProps` as written: React calls it while `this.props` still
      holds the previous props, so `registerHandlers` binds those; the new props
      are installed afterwards. */
  function ReceivePropsAsWritten(s: State, next: Props): (t: State)
    ensures t.props == next
    ensures t.handlers == BindLifecycle(s.handlers, s.props)
    ensures t.ready == s.ready && t.outbox == s.outbox && t.deferred == s.deferred && t.invoked == s.invoked
  {
    RegisterHandlers(s).(props := next)
  }

  /** `componentWillReceiveProps` as intended: the lifecycle names are bound to the
      callbacks of the incoming props. */
  function ReceiveProps(s: State, next: Props): (t: State)
    ensures t.props == next
    ensures t.handlers == BindLifecycle(s.handlers, next)
    ensures t.ready == s.ready && t.outbox == s.outbox && t.deferred == s.deferred && t.invoked == s.invoked
  {
    RegisterHandlers(s.(props := next))
  }

  // ---------------------------------------------------------------------------
  // Properties

  /** A fresh component drops every message: its table is empty. */
  lemma FreshInstanceIgnoresMessages(props: Props, message: string, decode: string -> Option<Payload>)
    ensures OnBridgeMessage(Init(props), message, decode) == Init(props)
  {
  }

  /** A fresh component refuses `api` and sends nothing. */
  lemma FreshInstanceRefusesApi(props: Props, call: string, cb: Option<CallbackId>)
    ensures Api(Init(props), call, cb) == (Thrown(NotReadyMessage), Init(props))
  {
  }

  /** The last registration wins: registering twice under one name is registering the second. */
  lemma RegisterLastWins(h: Handlers, name: string, first: Option<Handler>, second: Option<Handler>)
    ensures Register(Register(h, name, first), name, second) == Register(h, name, second)
  {
  }

  /** Running `registerHandlers` twice with the same props gives the table once. */
  lemma BindLifecycleIdempotent(h: Handlers, props: Props)
    ensures BindLifecycle(BindLifecycle(h, props), props) == BindLifecycle(h, props)
  {
  }

  /** The same at the level of the whole component: nothing but the table changes, and a
      second run changes nothing. */
  lemma RegisterHandlersIdempotent(s: State)
    ensures RegisterHandlers(RegisterHandlers(s)) == RegisterHandlers(s)
    ensures RegisterHandlers(s).(handlers := s.handlers) == s
  {
    BindLifecycleIdempotent(s.handlers, s.props);
  }

  /** A message that does not decode is dropped: no handler runs and nothing changes. */
  lemma DecodeFailureIsDropped(s: State, message: string, decode: string -> Option<Payload>)
    requires decode(message).None?
    ensures OnBridgeMessage(s, message, decode) == s
  {
  }

  /** A message whose name has no entry, or an undefined one, is dropped without error. */
  lemma UnhandledMessageIsSilent(s: State, message: string, decode: string -> Option<Payload>)
    requires decode(message).Some? && Lookup(s.handlers, decode(message).value.name).None?
    ensures OnBridgeMessage(s, message, decode) == s
  {
  }

  /** A message whose name is bound to a host callback calls it exactly once, with the
      message's data, and changes nothing else. */
  lemma DispatchCallsHandlerOnce(s: State, message: string, decode: string -> Option<Payload>, id: CallbackId)
    requires decode(message).Some?
    requires Lookup(s.handlers, decode(message).value.name) == Some(Host(id))
    ensures OnBridgeMessage(s, message, decode)
         == s.(invoked := s.invoked + [Invocation(id, decode(message).value.data)])
  {
  }

  /** A message whose name is bound to the component's own `onReady` commits readiness and
      schedules the host's `onReady` if one is set; no host callback runs inline. */
  lemma ReadyMessageCommitsReadiness(s: State, message: string, decode: string -> Option<Payload>)
    requires decode(message).Some?
    requires Lookup(s.handlers, decode(message).value.name) == Some(ReadyHook)
    ensures var t := OnBridgeMessage(s, message, decode);
      && t.ready
      && t.invoked == s.invoked
      && t.handlers == s.handlers && t.outbox == s.outbox && t.props == s.props
      && t.deferred == (if s.props.onReady.Some? then s.deferred + [s.props.onReady.value] else s.deferred)
  {
  }

  /** After `registerHandlers`, a "ready" message makes the component ready. */
  lemma MountedReadyMessageCommitsReadiness(s: State, message: string, decode: string -> Option<Payload>)
    requires decode(message).Some? && decode(message).value.name == "ready"
    ensures OnBridgeMessage(RegisterHandlers(s), message, decode).ready
  {
    ReadyMessageCommitsReadiness(RegisterHandlers(s), message, decode);
  }

  /** `api` before readiness throws and leaves everything as it was. */
  lemma ApiBeforeReadyThrows(s: State, call: string, cb: Option<CallbackId>)
    requires !s.ready
    ensures Api(s, call, cb) == (Thrown(NotReadyMessage), s)
  {
  }

  /** `api` when ready sends the method name and binds `cb` to it, displacing whatever
      was bound to that name (a lifecycle handler included); nothing else changes. */
  lemma ApiWhenReadySendsAndRegisters(s: State, call: string, cb: Option<CallbackId>)
    requires s.ready
    ensures var (outcome, t) := Api(s, call, cb);
      && outcome == Sent
      && t.outbox == s.outbox + [call]
      && Lookup(t.handlers, call) == AsHandler(cb)
      && (forall n :: n != call ==> Lookup(t.handlers, n) == Lookup(s.handlers, n))
      && t.ready && t.deferred == s.deferred && t.invoked == s.invoked && t.props == s.props
  {
  }

  /** Call/response correlation: after `api(method, cb)`, an inbound message named `call`
      calls `cb` once with that message's data. */
  lemma ApiResponseReachesCallback(s: State, call: string, id: CallbackId,
                                   message: string, decode: string -> Option<Payload>)
    requires s.ready
    requires decode(message).Some? && decode(message).value.name == call
    ensures var t := Api(s, call, Some(id)).1;
      OnBridgeMessage(t, message, decode).invoked == s.invoked + [Invocation(id, decode(message).value.data)]
  {
    var t := Api(s, call, Some(id)).1;
    DispatchCallsHandlerOnce(t, message, decode, id);
  }

  /** `api` with a method named like a lifecycle event takes that event over: a later
      "ready" message calls `cb` instead of committing readiness again. */
  lemma ApiDisplacesReadyHook(s: State, id: CallbackId, message: string, decode: string -> Option<Payload>)
    requires s.ready
    requires decode(message) == Some(Payload("ready", Undefined))
    ensures var t := Api(s, "ready", Some(id)).1;
      var u := OnBridgeMessage(t, message, decode);
      u.invoked == s.invoked + [Invocation(id, Undefined)] && u.deferred == s.deferred
  {
    var t := Api(s, "ready", Some(id)).1;
    DispatchCallsHandlerOnce(t, message, decode, id);
  }

  /** The deferred host callback runs on a later turn, without argument, and only once
      each time it was scheduled. */
  lemma RunDeferredCallsOldestTask(s: State)
    requires s.deferred != []
    ensures RunDeferred(s).invoked == s.invoked + [Invocation(s.deferred[0], Undefined)]
    ensures RunDeferred(s).deferred == s.deferred[1..]
    ensures RunDeferred(s).ready == s.ready && RunDeferred(s).handlers == s.handlers
  {
  }

  // ---------------------------------------------------------------------------
  // componentWillReceiveProps: the code as written and the evident intent

  /** As written, new props do not reach the table: after a props change the "play" entry
      still holds the previous `onPlay`. */
  lemma StaleBindingAfterPropsChange()
    ensures var before := Props("v", None, Some(1), None, None, None);
      var after := Props("v", None, Some(2), None, None, None);
      var s := ReceivePropsAsWritten(RegisterHandlers(Init(before)), after);
      s.props == after && Lookup(s.handlers, "play") == Some(Host(1)) != AsHandler(after.onPlay)
  {
    var before := Props("v", None, Some(1), None, None, None);
    var after := Props("v", None, Some(2), None, None, None);
    var s := ReceivePropsAsWritten(RegisterHandlers(Init(before)), after);
    assert Lookup(s.handlers, "play") == AsHandler(before.onPlay);
  }

  /** As intended, after new props every lifecycle name is bound to the new props'
      callbacks and every other entry is untouched. */
  lemma ReceivePropsBindsNewCallbacks(s: State, next: Props)
    ensures var t := ReceiveProps(s, next);
      && t.props == next
      && Lookup(t.handlers, "ready") == Some(ReadyHook)
      && Lookup(t.handlers, "play") == AsHandler(next.onPlay)
      && Lookup(t.handlers, "playProgress") == AsHandler(next.onPlayProgress)
      && Lookup(t.handlers, "pause") == AsHandler(next.onPause)
      && Lookup(t.handlers, "finish") == AsHandler(next.onFinish)
      && (forall n :: n !in LifecycleNames ==> Lookup(t.handlers, n) == Lookup(s.handlers, n))
      && t.ready == s.ready && t.outbox == s.outbox && t.deferred == s.deferred && t.invoked == s.invoked
  {
  }

}
