/**
 * One named channel of the native bridge: a FIFO message queue, a bind-once
 * listener slot and a coalescing wakeup signal.
 *
 * Every locked critical section of the native class is one pure transition
 * here. Sending the libuv async signal is modelled by setting `pending`;
 * several sends before the loop runs collapse into one, exactly as libuv
 * coalesces them. The event loop running the handle's callback is
 * `AsyncFire`: it clears `pending` and performs one flush step.
 */
module Channels {
  import opened Wrappers

  type Message = string

  /** Identity of a bound JavaScript listener (the environment plus the function reference). */
  type ListenerRef = nat

  /** One invocation of a listener on the event-loop thread, with its two arguments. */
  datatype Call = Call(listener: ListenerRef, channel: string, message: Message)

  datatype BridgeError =
    | ChannelAlreadyExists   // a second listener bind on one channel
    | WrongArgumentCount     // a JavaScript call without exactly two arguments
    | ExpectedString         // the channel name is not a JavaScript string
    | ExpectedFunction       // the listener is not a JavaScript function
    | CoercionFailed         // the message cannot be converted to a string
    | NoCallback             // no native callback is registered for the reverse path

  datatype Channel = Channel(
    name: string,
    queue: seq<Message>,
    listener: Option<ListenerRef>,  // set together with the async handle, once
    initialized: bool,
    pending: bool)                  // an async send not yet handled by the loop

  /** The states a channel can reach: the handle, the listener and the
      `initialized` flag agree; only a bound channel can be signalled; and a
      bound channel holding messages always has a flush scheduled. */
  predicate Valid(c: Channel) {
    && (c.initialized <==> c.listener.Some?)
    && (c.pending ==> c.initialized)
    && (c.initialized && c.queue != [] ==> c.pending)
  }

  function NewChannel(name: string): (c: Channel)
    ensures c.name == name && c.queue == []
    ensures c.listener == None && !c.initialized && !c.pending
    ensures Valid(c)
  {
    Channel(name, [], None, false, false)
  }

  /** Binds the listener. Succeeds only on a channel that has no handle yet,
      and then immediately signals a flush so that messages queued before the
      bind are drained. A second bind raises and changes nothing. */
  function SetNapiRefs(c: Channel, l: ListenerRef): (r: Result<Channel, BridgeError>)
    ensures r.Success? <==> c.listener.None?
    ensures r.Success? ==>
      && r.value.listener == Some(l) && r.value.initialized && r.value.pending
      && r.value.name == c.name && r.value.queue == c.queue
    ensures r.Failure? ==> r.error == ChannelAlreadyExists
    ensures Valid(c) && r.Success? ==> Valid(r.value)
  {
    if c.listener.None? then
      Success(c.(listener := Some(l), initialized := true, pending := true))
    else
      Failure(ChannelAlreadyExists)
  }

  /** Appends a message at the tail of the queue; signals a flush iff the
      channel is bound. No listener is invoked from the producer side. */
  function QueueMessage(c: Channel, m: Message): (r: Channel)
    ensures r.queue == c.queue + [m]
    ensures r.pending == (c.pending || c.initialized)
    ensures r.name == c.name && r.listener == c.listener && r.initialized == c.initialized
    ensures Valid(c) ==> Valid(r)
  {
    c.(queue := c.queue + [m], pending := c.pending || c.initialized)
  }

  /** The outcome of one flush step: the channel afterwards and the listener call it made, if any. */
  datatype Flushed = Flushed(channel: Channel, delivered: Option<Call>)

  /** Pops at most one message and delivers it with (channel name, message);
      re-signals only if the queue is still non-empty after the pop. Only the
      async handle runs this, and the handle exists only once bound. */
  function FlushQueue(c: Channel): (r: Flushed)
    requires c.listener.Some?
    ensures c.queue == [] ==> r.channel == c && r.delivered == None
    ensures c.queue != [] ==>
      && r.delivered == Some(Call(c.listener.value, c.name, c.queue[0]))
      && r.channel.queue == c.queue[1..]
      && r.channel.pending == (c.pending || |c.queue| > 1)
    ensures r.channel.name == c.name && r.channel.listener == c.listener
    ensures r.channel.initialized == c.initialized
  {
    if c.queue == [] then
      Flushed(c, None)
    else
      var head := c.queue[0];
      var rest := c.queue[1..];
      Flushed(c.(queue := rest, pending := c.pending || rest != []),
              Some(Call(c.listener.value, c.name, head)))
  }

  /** The event loop handling the channel's async handle: a pending signal is
      consumed and one flush step runs; without a signal nothing happens. */
  function AsyncFire(c: Channel): (r: Flushed)
    requires c.listener.Some?
    ensures !c.pending ==> r.channel == c && r.delivered == None
    ensures Valid(c) ==> Valid(r.channel)
    ensures r.channel.name == c.name && r.channel.listener == c.listener
    ensures r.channel.initialized == c.initialized
    ensures c.pending ==> r.channel.queue == (if c.queue == [] then [] else c.queue[1..])
    ensures c.pending && c.queue != [] ==> r.delivered == Some(Call(c.listener.value, c.name, c.queue[0]))
    ensures c.pending ==> r.channel.pending == (|c.queue| > 1)
    ensures c.queue == [] ==> r.delivered == None
  {
    if c.pending then FlushQueue(c.(pending := false)) else Flushed(c, None)
  }

  /** The listener calls that delivering `msgs` in order on channel `name` makes. */
  function Deliveries(l: ListenerRef, name: string, msgs: seq<Message>): (calls: seq<Call>)
    ensures |calls| == |msgs|
    ensures forall i :: 0 <= i < |msgs| ==> calls[i] == Call(l, name, msgs[i])
  {
    seq(|msgs|, i requires 0 <= i < |msgs| => Call(l, name, msgs[i]))
  }

  /** The calls a flush step made, as a sequence. */
  function Made(f: Flushed): seq<Call> {
    if f.delivered.Some? then [f.delivered.value] else []
  }

  /** One signalled wakeup delivers the head of the queue and leaves the rest
      for later wakeups, in order. */
  lemma AsyncFireDelivers(c: Channel)
    requires Valid(c) && c.listener.Some? && c.pending
    ensures Deliveries(c.listener.value, c.name, c.queue)
            == Made(AsyncFire(c)) + Deliveries(c.listener.value, c.name, AsyncFire(c).channel.queue)
  {
    var step := AsyncFire(c);
    if c.queue != [] {
      assert Made(step) == [Call(c.listener.value, c.name, c.queue[0])];
    }
  }

  /** The event loop servicing one bound channel until its handle is no longer
      pending. Every queued message is delivered exactly once, in queue order,
      to the bound listener, and the channel ends idle and empty. */
  method RunUntilIdle(c0: Channel) returns (c: Channel, calls: seq<Call>)
    requires Valid(c0) && c0.listener.Some?
    ensures calls == Deliveries(c0.listener.value, c0.name, c0.queue)
    ensures c == c0.(queue := [], pending := false)
    ensures Valid(c)
  {
    var l := c0.listener.value;
    c := c0;
    calls := [];
    while c.pending
      invariant Valid(c)
      invariant c.name == c0.name && c.listener == c0.listener && c.initialized == c0.initialized
      invariant calls + Deliveries(l, c0.name, c.queue) == Deliveries(l, c0.name, c0.queue)
      decreases |c.queue| + (if c.pending then 1 else 0)
    {
      var step := AsyncFire(c);
      AsyncFireDelivers(c);
      calls := calls + Made(step);
      c := step.channel;
    }
  }
}
