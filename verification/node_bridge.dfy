/**
 * The process-wide state of the native bridge: the name-to-channel registry,
 * the log of listener calls made on the event-loop thread, the single native
 * callback slot of the reverse direction and the log of calls made into it.
 * The JavaScript entry points are modelled by their observable outcome: an
 * error raised to the caller, or a call into the core.
 */
module NodeBridge {
  import opened Wrappers
  import opened Channels

  /** Identity of the native function registered for the reverse direction. */
  type CallbackRef = nat

  /** One call of the registered native callback with (channel name, message). */
  datatype ReverseCall = ReverseCall(callback: CallbackRef, channel: string, message: string)

  /** A JavaScript argument as the boundary sees it. `text` is what string
      coercion yields; coercion of an `Other` value may throw (a Symbol). */
  datatype JsValue =
    | JsString(s: string)
    | JsFunction(fn: ListenerRef, text: string)
    | JsOther(coerced: Option<string>)

  datatype Bridge = Bridge(
    channels: map<string, Channel>,
    calls: seq<Call>,
    callback: Option<CallbackRef>,
    reverse: seq<ReverseCall>)

  /** Every registered channel is filed under its own name and is in a reachable state. */
  predicate WellFormed(b: Bridge) {
    forall n :: n in b.channels ==> b.channels[n].name == n && Valid(b.channels[n])
  }

  function Init(): (b: Bridge)
    ensures WellFormed(b) && b.channels == map[] && b.calls == [] && b.reverse == []
    ensures b.callback == None
  {
    Bridge(map[], [], None, [])
  }

  datatype Lookup = Lookup(registry: map<string, Channel>, channel: Channel)

  /** Returns the channel registered under `name`, creating and registering a
      fresh one when there is none. Entries are never removed and the other
      entries are unchanged. */
  function GetOrCreateChannel(registry: map<string, Channel>, name: string): (r: Lookup)
    ensures name in r.registry && r.registry[name] == r.channel
    ensures name in registry ==> r.registry == registry && r.channel == registry[name]
    ensures name !in registry ==> r.channel == NewChannel(name)
    ensures r.registry.Keys == registry.Keys + {name}
    ensures forall n :: n in registry ==> n in r.registry && r.registry[n] == registry[n]
  {
    if name in registry then Lookup(registry, registry[name])
    else
      var c := NewChannel(name);
      Lookup(registry[name := c], c)
  }

  /** Enqueues a copy of `message` on the channel named `name`, creating the
      channel if absent; nothing else in the bridge changes. */
  function SendMessageToNodeChannel(b: Bridge, name: string, message: string): (r: Bridge)
    ensures name in r.channels
    ensures name in b.channels ==> r.channels[name] == QueueMessage(b.channels[name], message)
    ensures name !in b.channels ==> r.channels[name] == QueueMessage(NewChannel(name), message)
    ensures r.channels.Keys == b.channels.Keys + {name}
    ensures forall n :: n in b.channels && n != name ==> r.channels[n] == b.channels[n]
    ensures r.calls == b.calls && r.callback == b.callback && r.reverse == b.reverse
    ensures WellFormed(b) ==> WellFormed(r)
  {
    var found := GetOrCreateChannel(b.channels, name);
    b.(channels := found.registry[name := QueueMessage(found.channel, message)])
  }

  /** Resolves or creates the channel and binds `l` as its listener; a second
      bind raises and leaves the whole bridge unchanged (the channel existed
      already, so nothing was created either). */
  function BindListener(b: Bridge, name: string, l: ListenerRef): (r: Result<Bridge, BridgeError>)
    ensures r.Success? <==> (name !in b.channels || b.channels[name].listener.None?)
    ensures r.Failure? ==> r.error == ChannelAlreadyExists
    ensures r.Success? ==>
      && name in r.value.channels
      && r.value.channels[name].listener == Some(l)
      && r.value.channels[name].pending
      && r.value.channels[name].queue == (if name in b.channels then b.channels[name].queue else [])
      && r.value.channels.Keys == b.channels.Keys + {name}
      && (forall n :: n in b.channels && n != name ==> r.value.channels[n] == b.channels[n])
      && r.value.calls == b.calls && r.value.callback == b.callback && r.value.reverse == b.reverse
    ensures WellFormed(b) && r.Success? ==> WellFormed(r.value)
  {
    var found := GetOrCreateChannel(b.channels, name);
    match SetNapiRefs(found.channel, l)
    case Success(c) => Success(b.(channels := found.registry[name := c]))
    case Failure(e) => Failure(e)
  }

  /** `registerChannel(name, listener)` from JavaScript: exactly two
      arguments, a string and a function, then a bind. */
  function RegisterChannel(b: Bridge, args: seq<JsValue>): (r: Result<Bridge, BridgeError>)
    ensures |args| != 2 ==> r == Failure(WrongArgumentCount)
    ensures |args| == 2 && !args[0].JsString? ==> r == Failure(ExpectedString)
    ensures |args| == 2 && args[0].JsString? && !args[1].JsFunction? ==> r == Failure(ExpectedFunction)
    ensures |args| == 2 && args[0].JsString? && args[1].JsFunction? ==>
      r == BindListener(b, args[0].s, args[1].fn)
  {
    if |args| != 2 then Failure(WrongArgumentCount)
    else if !args[0].JsString? then Failure(ExpectedString)
    else if !args[1].JsFunction? then Failure(ExpectedFunction)
    else BindListener(b, args[0].s, args[1].fn)
  }

  /** The event loop runs the async callback of channel `name`: only a
      registered, bound and signalled channel does anything, and then one
      flush step runs and its listener call, if any, is logged. */
  function Fire(b: Bridge, name: string): (r: Bridge)
    requires WellFormed(b)
    ensures WellFormed(r)
    ensures r.channels.Keys == b.channels.Keys
    ensures forall n :: n in b.channels && n != name ==> r.channels[n] == b.channels[n]
    ensures r.callback == b.callback && r.reverse == b.reverse
    ensures name !in b.channels || !b.channels[name].pending ==> r == b
    ensures name in b.channels && b.channels[name].pending ==>
      var c := b.channels[name];
      && r.channels[name].queue == (if c.queue == [] then [] else c.queue[1..])
      && r.channels[name].listener == c.listener
      && r.channels[name].pending == (|c.queue| > 1)
      && r.calls == b.calls + (if c.queue == [] then [] else [Call(c.listener.value, name, c.queue[0])])
  {
    if name in b.channels && b.channels[name].pending then
      var c := b.channels[name];
      var step := AsyncFire(c);
      var logged := if step.delivered.Some? then b.calls + [step.delivered.value] else b.calls;
      b.(channels := b.channels[name := step.channel], calls := logged)
    else
      b
  }

  /** Stores the native callback of the reverse direction; the last
      registration wins. A NULL callback (`None`) is stored too and empties
      the slot, so later reverse sends raise until another is registered. */
  function RegisterBridgeCallback(b: Bridge, cb: Option<CallbackRef>): (r: Bridge)
    ensures r.callback == cb
    ensures r.channels == b.channels && r.calls == b.calls && r.reverse == b.reverse
  {
    b.(callback := cb)
  }

  /** What string coercion yields for a message argument; None when it throws. */
  function Coerce(v: JsValue): (s: Option<string>)
    ensures v.JsString? ==> s == Some(v.s)
  {
    match v
    case JsString(t) => Some(t)
    case JsFunction(_, t) => Some(t)
    case JsOther(t) => t
  }

  /** `sendMessage(name, message)` from JavaScript: the message is coerced to
      a string when it is not one, an error is raised when no native callback
      is registered, and otherwise the callback is called once with
      (name, message). Channels and listener calls are never touched. */
  function SendMessage(b: Bridge, args: seq<JsValue>): (r: Result<Bridge, BridgeError>)
    ensures |args| != 2 ==> r == Failure(WrongArgumentCount)
    ensures |args| == 2 && !args[0].JsString? ==> r == Failure(ExpectedString)
    ensures |args| == 2 && args[0].JsString? && Coerce(args[1]).None? ==> r == Failure(CoercionFailed)
    ensures |args| == 2 && args[0].JsString? && Coerce(args[1]).Some? && b.callback.None? ==>
      r == Failure(NoCallback)
    ensures r.Success? <==>
      |args| == 2 && args[0].JsString? && Coerce(args[1]).Some? && b.callback.Some?
    ensures r.Success? ==>
      && r.value.reverse == b.reverse + [ReverseCall(b.callback.value, args[0].s, Coerce(args[1]).value)]
      && r.value.channels == b.channels && r.value.calls == b.calls && r.value.callback == b.callback
  {
    if |args| != 2 then Failure(WrongArgumentCount)
    else if !args[0].JsString? then Failure(ExpectedString)
    else
      match Coerce(args[1])
      case None => Failure(CoercionFailed)
      case Some(message) =>
        match b.callback
        case None => Failure(NoCallback)
        case Some(cb) => Success(b.(reverse := b.reverse + [ReverseCall(cb, args[0].s, message)]))
  }

  /** The operations that drive the bridge, from any thread, in the order
      their critical sections take effect. */
  datatype Op =
    | Send(channel: string, message: string)     // native producer sends to a channel
    | Register(channel: string, listener: ListenerRef)
    | Tick(channel: string)                       // the loop runs that channel's async callback
    | SetCallback(callback: Option<CallbackRef>)  // None is a NULL registration
    | Reverse(args: seq<JsValue>)                 // JavaScript calls sendMessage

  /** One operation; an operation that raises leaves the bridge unchanged. */
  function Step(b: Bridge, op: Op): (r: Bridge)
    requires WellFormed(b)
    ensures WellFormed(r)
    ensures b.channels.Keys <= r.channels.Keys
    ensures |b.calls| <= |r.calls| && r.calls[..|b.calls|] == b.calls
    ensures !op.SetCallback? ==> r.callback == b.callback
    ensures !op.Reverse? ==> r.reverse == b.reverse
    ensures op.Reverse? || op.SetCallback? ==> r.channels == b.channels && r.calls == b.calls
  {
    match op
    case Send(n, m) => SendMessageToNodeChannel(b, n, m)
    case Register(n, l) => (match BindListener(b, n, l) case Success(b') => b' case Failure(_) => b)
    case Tick(n) => Fire(b, n)
    case SetCallback(cb) => RegisterBridgeCallback(b, cb)
    case Reverse(args) => (match SendMessage(b, args) case Success(b') => b' case Failure(_) => b)
  }

  /** Runs the operations in order. */
  function Exec(b: Bridge, ops: seq<Op>): (r: Bridge)
    requires WellFormed(b)
    ensures WellFormed(r)
    ensures b.channels.Keys <= r.channels.Keys
    ensures |b.calls| <= |r.calls| && r.calls[..|b.calls|] == b.calls
    decreases |ops|
  {
    if ops == [] then b
    else Step(Exec(b, ops[..|ops| - 1]), ops[|ops| - 1])
  }
}
