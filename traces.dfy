/** Whole lifetimes of the component: a run is the sequence of things that can happen
    to it (React mounting it or handing it props, a text from the web view, a host
    call of `api`, a turn of the event loop running a deferred task), applied in
    order from a state. The properties here hold across every run. */
module Traces {

  import opened Optional
  import opened Bridge

  datatype Event =
    | Mount                                   // componentDidMount
    | NewProps(next: Props)                   // componentWillReceiveProps, as written
    | NewPropsRebound(next: Props)            // componentWillReceiveProps, binding the new props
    | Message(text: string)                   // onBridgeMessage
    | Call(call: string, cb: Option<CallbackId>) // api; a throw leaves the state as it was
    | Tick                                    // the event loop runs a deferred task

  /** One thing happening to the component; the channel only ever grows. */
  function Step(s: State, e: Event, decode: string -> Option<Payload>): (t: State)
    ensures s.outbox <= t.outbox
  {
    match e
    case Mount => RegisterHandlers(s)
    case NewProps(next) => ReceivePropsAsWritten(s, next)
    case NewPropsRebound(next) => ReceiveProps(s, next)
    case Message(text) => OnBridgeMessage(s, text, decode)
    case Call(call, cb) => Api(s, call, cb).1
    case Tick => RunDeferred(s)
  }

  /** The events applied in order; what was sent stays sent. */
  function Run(s: State, events: seq<Event>, decode: string -> Option<Payload>): (t: State)
    ensures s.outbox <= t.outbox
    decreases |events|
  {
    if events == [] then s else Run(Step(s, events[0], decode), events[1..], decode)
  }

  /** The ordering guarantee: a deferred host callback is only ever pending once readiness
      has been committed, so when it runs the component is ready. */
  ghost predicate ReadyBeforeDeferred(s: State)
  {
    s.deferred != [] ==> s.ready
  }

  /** No single step takes readiness back. */
  lemma StepKeepsReady(s: State, e: Event, decode: string -> Option<Payload>)
    requires s.ready
    ensures Step(s, e, decode).ready
  {
  }

  /** Readiness is one-way: once ready, ready for the rest of the run. */
  lemma {:induction false} RunKeepsReady(s: State, events: seq<Event>, decode: string -> Option<Payload>)
    requires s.ready
    ensures Run(s, events, decode).ready
    decreases |events|
  {
    if events != [] {
      StepKeepsReady(s, events[0], decode);
      RunKeepsReady(Step(s, events[0], decode), events[1..], decode);
    }
  }

  /** A step that leaves the component not ready found it not ready and sent nothing. */
  lemma StepBeforeReadySendsNothing(s: State, e: Event, decode: string -> Option<Payload>)
    requires !Step(s, e, decode).ready
    ensures !s.ready
    ensures Step(s, e, decode).outbox == s.outbox
  {
  }

  /** The readiness gate, one step at a time: from a state that is not ready, no event
      sends anything, the step that makes the component ready included. */
  lemma StepFromNotReadySendsNothing(s: State, e: Event, decode: string -> Option<Payload>)
    requires !s.ready
    ensures Step(s, e, decode).outbox == s.outbox
  {
  }

  /** The readiness gate over a whole run: as long as the component has not become ready,
      nothing has gone out on the channel. */
  lemma {:induction false} NothingSentBeforeReady(s: State, events: seq<Event>, decode: string -> Option<Payload>)
    requires !Run(s, events, decode).ready
    ensures !s.ready
    ensures Run(s, events, decode).outbox == s.outbox
    decreases |events|
  {
    if events != [] {
      var t := Step(s, events[0], decode);
      if t.ready {
        RunKeepsReady(t, events[1..], decode);
        assert false;
      }
      NothingSentBeforeReady(t, events[1..], decode);
      StepBeforeReadySendsNothing(s, events[0], decode);
    }
  }

  /** Each step keeps the ordering guarantee. */
  lemma StepKeepsReadyBeforeDeferred(s: State, e: Event, decode: string -> Option<Payload>)
    requires ReadyBeforeDeferred(s)
    ensures ReadyBeforeDeferred(Step(s, e, decode))
  {
  }

  lemma {:induction false} RunKeepsReadyBeforeDeferred(s: State, events: seq<Event>, decode: string -> Option<Payload>)
    requires ReadyBeforeDeferred(s)
    ensures ReadyBeforeDeferred(Run(s, events, decode))
    decreases |events|
  {
    if events != [] {
      StepKeepsReadyBeforeDeferred(s, events[0], decode);
      RunKeepsReadyBeforeDeferred(Step(s, events[0], decode), events[1..], decode);
    }
  }

  /** From construction on, whenever a turn of the event loop runs the host's deferred
      `onReady`, the component is already ready, and stays so. */
  lemma DeferredCallbackSeesReady(props: Props, events: seq<Event>, decode: string -> Option<Payload>)
    requires Run(Init(props), events, decode).deferred != []
    ensures Run(Init(props), events, decode).ready
    ensures RunDeferred(Run(Init(props), events, decode)).ready
  {
    RunKeepsReadyBeforeDeferred(Init(props), events, decode);
  }

  /** From construction on, the channel stays silent and no host `onReady` is pending
      until the component is ready. */
  lemma FreshComponentSilentUntilReady(props: Props, events: seq<Event>, decode: string -> Option<Payload>)
    requires !Run(Init(props), events, decode).ready
    ensures Run(Init(props), events, decode).outbox == []
    ensures Run(Init(props), events, decode).deferred == []
  {
    NothingSentBeforeReady(Init(props), events, decode);
    RunKeepsReadyBeforeDeferred(Init(props), events, decode);
  }

}
