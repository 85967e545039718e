/** The Vimeo component's bridge as the object it is: the handler table, the
    readiness flag and the props are fields its methods update in place. The web
    view's outbound channel, setTimeout's queue and the host callbacks that get
    called are fields too (`outbox`, `deferred`, `invoked`). Every method is proved
    to take the component from `old(View())` to the state the matching function
    of module Bridge gives. */
module VimeoComponent {

  import opened Optional
  import Bridge

  class Vimeo {
    var handlers: Bridge.Handlers
    var ready: bool
    var outbox: seq<string>
    var deferred: seq<Bridge.CallbackId>
    var invoked: seq<Bridge.Invocation>
    var props: Bridge.Props

    /** The component's state as a value. */
    ghost function View(): Bridge.State
      reads this
    {
      Bridge.State(handlers, ready, outbox, deferred, invoked, props)
    }

    /** A new component: empty table, not ready. */
    constructor (props: Bridge.Props)
      ensures handlers == map[] && !ready
      ensures View() == Bridge.Init(props)
    {
      handlers := map[];
      ready := false;
      outbox := [];
      deferred := [];
      invoked := [];
      this.props := props;
    }

    /** Stores `handler` under `eventName`, replacing any earlier entry. */
    method RegisterBridgeEventHandler(eventName: string, handler: Option<Bridge.Handler>)
      modifies this
      ensures Bridge.Lookup(handlers, eventName) == handler
      ensures forall n :: n != eventName ==> Bridge.Lookup(handlers, n) == Bridge.Lookup(old(handlers), n)
      ensures View() == old(View()).(handlers := Bridge.Register(old(handlers), eventName, handler))
    {
      handlers := handlers[eventName := handler];
    }

    /** Binds the five lifecycle names to the component's `onReady` and the current props. */
    method RegisterHandlers()
      modifies this
      ensures View() == Bridge.RegisterHandlers(old(View()))
    {
      RegisterBridgeEventHandler("ready", Some(Bridge.ReadyHook));
      RegisterBridgeEventHandler("play", Bridge.AsHandler(props.onPlay));
      RegisterBridgeEventHandler("playProgress", Bridge.AsHandler(props.onPlayProgress));
      RegisterBridgeEventHandler("pause", Bridge.AsHandler(props.onPause));
      RegisterBridgeEventHandler("finish", Bridge.AsHandler(props.onFinish));
    }

    /** React mounted the component. */
    method ComponentDidMount()
      modifies this
      ensures View() == Bridge.RegisterHandlers(old(View()))
    {
      RegisterHandlers();
    }

    /** React hands the component new props, as the source handles it: the hook runs
        while `props` still holds the previous ones, then React installs `next`. */
    method ComponentWillReceivePropsAsWritten(next: Bridge.Props)
      modifies this
      ensures View() == Bridge.ReceivePropsAsWritten(old(View()), next)
    {
      RegisterHandlers();
      props := next;
    }

    /** React hands the component new props, re-binding the lifecycle names to them. */
    method ComponentWillReceiveProps(next: Bridge.Props)
      modifies this
      ensures props == next
      ensures View() == Bridge.ReceiveProps(old(View()), next)
    {
      props := next;
      RegisterHandlers();
    }

    /** Readiness: committed now, the host's `onReady` deferred to a later turn. */
    method OnReady()
      modifies this
      ensures ready
      ensures invoked == old(invoked)
      ensures View() == Bridge.OnReady(old(View()))
    {
      ready := true;
      if props.onReady.Some? {
        deferred := deferred + [props.onReady.value];
      }
    }

    /** An inbound text from the web view. `decode` stands for JSON.parse. */
    method OnBridgeMessage(message: string, decode: string -> Option<Bridge.Payload>)
      modifies this
      ensures decode(message).None? ==> View() == old(View())
      ensures View() == Bridge.OnBridgeMessage(old(View()), message, decode)
    {
      var payload := decode(message);
      if payload.None? {
        return;
      }
      var handler := Bridge.Lookup(handlers, payload.value.name);
      if handler.Some? {
        match handler.value
        case ReadyHook =>
          OnReady();
        case Host(id) =>
          invoked := invoked + [Bridge.Invocation(id, payload.value.data)];
      }
    }

    /** Calls `call` on the player; `cb` receives the answer. Throws (returns `Thrown`)
        before readiness, leaving everything unchanged. */
    method Api(call: string, cb: Option<Bridge.CallbackId>) returns (outcome: Bridge.Outcome)
      modifies this
      ensures !old(ready) ==> outcome == Bridge.Thrown(Bridge.NotReadyMessage) && View() == old(View())
      ensures old(ready) ==> outcome == Bridge.Sent && outbox == old(outbox) + [call]
      ensures (outcome, View()) == Bridge.Api(old(View()), call, cb)
    {
      if !ready {
        return Bridge.Thrown(Bridge.NotReadyMessage);
      }
      outbox := outbox + [call];
      RegisterBridgeEventHandler(call, Bridge.AsHandler(cb));
      outcome := Bridge.Sent;
    }

    /** A later turn of the event loop runs the oldest task setTimeout scheduled. */
    method RunDeferredTask()
      modifies this
      ensures View() == Bridge.RunDeferred(old(View()))
    {
      if deferred != [] {
        invoked := invoked + [Bridge.Invocation(deferred[0], Bridge.Undefined)];
        deferred := deferred[1..];
      }
    }
  }

  /** Scenario: a page that announces readiness, then answers a call. The host's
      `onReady`, when set, is queued by the `ready` message and not yet called. */
  method ReadyThenCall(props: Bridge.Props, decode: string -> Option<Bridge.Payload>,
                       readyText: string, answerText: string, answer: Bridge.Data, cb: Bridge.CallbackId)
      returns (early: Bridge.Outcome, late: Bridge.Outcome, calls: seq<Bridge.Invocation>, sent: seq<string>,
               queued: seq<Bridge.CallbackId>)
    requires decode(readyText) == Some(Bridge.Payload("ready", Bridge.Undefined))
    requires decode(answerText) == Some(Bridge.Payload("getDuration", answer))
    ensures early == Bridge.Thrown(Bridge.NotReadyMessage)
    ensures late == Bridge.Sent
    ensures sent == ["getDuration"]
    ensures calls == [Bridge.Invocation(cb, answer)]
    ensures queued == if props.onReady.Some? then [props.onReady.value] else []
  {
    var v := new Vimeo(props);
    v.ComponentDidMount();
    assert Bridge.Lookup(v.handlers, "ready") == Some(Bridge.ReadyHook);
    early := v.Api("getDuration", Some(cb));
    v.OnBridgeMessage(readyText, decode);
    assert v.ready && v.invoked == [] && v.outbox == [];
    late := v.Api("getDuration", Some(cb));
    assert Bridge.Lookup(v.handlers, "getDuration") == Some(Bridge.Host(cb));
    Bridge.DispatchCallsHandlerOnce(v.View(), answerText, decode, cb);
    v.OnBridgeMessage(answerText, decode);
    calls := v.invoked;
    sent := v.outbox;
    queued := v.deferred;
  }

}
