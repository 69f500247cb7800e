/**
 * Properties of the native bridge over arbitrary sequences of operations:
 * the registry only grows, each channel keeps its first listener, messages
 * are delivered in enqueue order exactly once, and a bound channel drains
 * completely, including what was queued before the bind.
 */
module BridgeProperties {
  import opened Wrappers
  import opened Channels
  import opened NodeBridge

  /** The names that sends and binds have referred to. */
  function Mentioned(ops: seq<Op>): set<string>
    decreases |ops|
  {
    if ops == [] then {}
    else
      var last := ops[|ops| - 1];
      Mentioned(ops[..|ops| - 1]) + (if last.Send? || last.Register? then {last.channel} else {})
  }

  /** The messages sent to channel `n`, in order. */
  function SentTo(ops: seq<Op>, n: string): seq<Message>
    decreases |ops|
  {
    if ops == [] then []
    else
      var last := ops[|ops| - 1];
      SentTo(ops[..|ops| - 1], n) + (if last.Send? && last.channel == n then [last.message] else [])
  }

  /** The listener of channel `n` after `op`, given the one before. */
  function NextListener(bound: Option<ListenerRef>, op: Op, n: string): Option<ListenerRef> {
    if bound.Some? then bound
    else if op.Register? && op.channel == n then Some(op.listener)
    else None
  }

  /** The listener of the first bind on channel `n`, if any. */
  function FirstListener(ops: seq<Op>, n: string): Option<ListenerRef>
    decreases |ops|
  {
    if ops == [] then None
    else NextListener(FirstListener(ops[..|ops| - 1], n), ops[|ops| - 1], n)
  }

  /** The messages the listener calls in `calls` delivered on channel `n`, in order. */
  function Received(calls: seq<Call>, n: string): seq<Message>
    decreases |calls|
  {
    if calls == [] then []
    else
      var last := calls[|calls| - 1];
      Received(calls[..|calls| - 1], n) + (if last.channel == n then [last.message] else [])
  }

  function QueueOf(b: Bridge, n: string): seq<Message> {
    if n in b.channels then b.channels[n].queue else []
  }

  function Sends(n: string, msgs: seq<Message>): (ops: seq<Op>)
    ensures |ops| == |msgs|
    ensures forall i :: 0 <= i < |msgs| ==> ops[i] == Send(n, msgs[i])
  {
    seq(|msgs|, i requires 0 <= i < |msgs| => Send(n, msgs[i]))
  }

  function Ticks(n: string, k: nat): (ops: seq<Op>)
    ensures |ops| == k
    ensures forall i :: 0 <= i < k ==> ops[i] == Tick(n)
  {
    seq(k, _ => Tick(n))
  }

  lemma ReceivedAppend(calls: seq<Call>, c: Call, n: string)
    ensures Received(calls + [c], n) == Received(calls, n) + (if c.channel == n then [c.message] else [])
  {
    assert (calls + [c])[..|calls|] == calls;
  }

  lemma ExecAppend(b: Bridge, xs: seq<Op>, ys: seq<Op>)
    requires WellFormed(b)
    ensures Exec(b, xs + ys) == Exec(Exec(b, xs), ys)
    decreases |ys|
  {
    if ys == [] {
      assert xs + ys == xs;
    } else {
      var ys' := ys[..|ys| - 1];
      assert (xs + ys)[..|xs + ys| - 1] == xs + ys';
      ExecAppend(b, xs, ys');
    }
  }

  lemma ExecSnoc(b: Bridge, ops: seq<Op>, op: Op)
    requires WellFormed(b)
    ensures Exec(b, ops + [op]) == Step(Exec(b, ops), op)
  {
    assert (ops + [op])[..|ops|] == ops;
  }

  /** Channels are created on first reference by either side and never removed. */
  lemma {:induction false} RegistryIsMentioned(ops: seq<Op>)
    ensures Exec(Init(), ops).channels.Keys == Mentioned(ops)
    decreases |ops|
  {
    if ops != [] {
      RegistryIsMentioned(ops[..|ops| - 1]);
    }
  }

  /** The messages delivered on channel `n` followed by those it still queues. */
  function Accounted(b: Bridge, n: string): seq<Message> {
    Received(b.calls, n) + QueueOf(b, n)
  }

  /** The change one operation makes to channel `n`'s delivered-plus-queued
      messages: a send to `n` appends its message, everything else keeps it. */
  lemma StepFifo(b: Bridge, op: Op, n: string)
    requires WellFormed(b)
    ensures Accounted(Step(b, op), n)
            == Accounted(b, n) + (if op.Send? && op.channel == n then [op.message] else [])
  {
    match op
    case Send(m, msg) =>
      SendFifo(b, m, msg, n);
    case Register(m, l) =>
      RegisterFifo(b, m, l, n);
    case Tick(m) =>
      if m in b.channels && b.channels[m].pending && b.channels[m].queue != [] {
        FireFifo(b, m, n);
      } else {
        assert Fire(b, m).calls == b.calls && QueueOf(Fire(b, m), n) == QueueOf(b, n);
      }
    case SetCallback(cb) =>
      assert Step(b, op).calls == b.calls && Step(b, op).channels == b.channels;
    case Reverse(args) =>
      assert Step(b, op).calls == b.calls && Step(b, op).channels == b.channels;
  }

  lemma SendFifo(b: Bridge, m: string, msg: Message, n: string)
    requires WellFormed(b)
    ensures Accounted(SendMessageToNodeChannel(b, m, msg), n)
            == Accounted(b, n) + (if m == n then [msg] else [])
  {
  }

  lemma RegisterFifo(b: Bridge, m: string, l: ListenerRef, n: string)
    requires WellFormed(b)
    ensures Accounted(Step(b, Register(m, l)), n) == Accounted(b, n)
  {
    var r := BindListener(b, m, l);
    if r.Success? {
      assert r.value.calls == b.calls;
      assert QueueOf(r.value, n) == QueueOf(b, n);
    }
  }

  lemma FireFifo(b: Bridge, m: string, n: string)
    requires WellFormed(b) && m in b.channels && b.channels[m].pending && b.channels[m].queue != []
    ensures Accounted(Step(b, Tick(m)), n) == Accounted(b, n)
  {
    var c := b.channels[m];
    assert Valid(c);
    FireBound(b, m);
    var r := Step(b, Tick(m));
    ReceivedAppend(b.calls, Call(c.listener.value, m, c.queue[0]), n);
    if m == n {
      assert c.queue == [c.queue[0]] + c.queue[1..];
    } else {
      assert QueueOf(r, n) == QueueOf(b, n);
    }
  }

  /** Every message sent to a channel is either still queued or has been
      delivered, never both, never twice, and in the order it was sent. */
  lemma {:induction false} FifoExactlyOnce(ops: seq<Op>, n: string)
    ensures Received(Exec(Init(), ops).calls, n) + QueueOf(Exec(Init(), ops), n) == SentTo(ops, n)
    decreases |ops|
  {
    if ops != [] {
      var prev := ops[..|ops| - 1];
      FifoExactlyOnce(prev, n);
      StepFifo(Exec(Init(), prev), ops[|ops| - 1], n);
      assert Exec(Init(), ops) == Step(Exec(Init(), prev), ops[|ops| - 1]);
    }
  }

  /** Channel `n` is bound to `bound` exactly when it is registered with a
      listener, and every delivery on it so far went to `bound`. */
  predicate ListenerFacts(b: Bridge, n: string, bound: Option<ListenerRef>) {
    && (n in b.channels ==> b.channels[n].listener == bound)
    && (n !in b.channels ==> bound == None)
    && (forall i :: 0 <= i < |b.calls| && b.calls[i].channel == n ==> bound == Some(b.calls[i].listener))
  }

  lemma StepListener(b: Bridge, op: Op, n: string, bound: Option<ListenerRef>)
    requires WellFormed(b) && ListenerFacts(b, n, bound)
    ensures ListenerFacts(Step(b, op), n, NextListener(bound, op, n))
  {
    match op
    case Send(m, msg) =>
      SendListener(b, m, msg, n, bound);
    case Register(m, l) =>
      RegisterListener(b, m, l, n, bound);
    case Tick(m) =>
      if m in b.channels && b.channels[m].pending && b.channels[m].queue != [] {
        assert Valid(b.channels[m]);
        FireBound(b, m);
        CallsExtended(b, Step(b, op), n, bound);
      }
    case SetCallback(cb) =>
    case Reverse(args) =>
      assert Step(b, op).calls == b.calls && Step(b, op).channels == b.channels;
  }

  lemma SendListener(b: Bridge, m: string, msg: Message, n: string, bound: Option<ListenerRef>)
    requires WellFormed(b) && ListenerFacts(b, n, bound)
    ensures ListenerFacts(SendMessageToNodeChannel(b, m, msg), n, bound)
  {
  }

  lemma RegisterListener(b: Bridge, m: string, l: ListenerRef, n: string, bound: Option<ListenerRef>)
    requires WellFormed(b) && ListenerFacts(b, n, bound)
    ensures ListenerFacts(Step(b, Register(m, l)), n, NextListener(bound, Register(m, l), n))
  {
    var r := BindListener(b, m, l);
    if r.Success? {
      assert r.value.calls == b.calls;
    }
  }

  /** Appending one call made by channel `n`'s bound listener, or by another channel, keeps the listener facts. */
  lemma CallsExtended(b: Bridge, r: Bridge, n: string, bound: Option<ListenerRef>)
    requires ListenerFacts(b, n, bound)
    requires r.channels.Keys == b.channels.Keys
    requires n in b.channels ==> r.channels[n].listener == b.channels[n].listener
    requires |r.calls| == |b.calls| + 1 && r.calls[..|b.calls|] == b.calls
    requires var c := r.calls[|b.calls|];
      c.channel == n ==> n in b.channels && b.channels[n].listener == Some(c.listener)
    ensures ListenerFacts(r, n, bound)
  {
    forall i | 0 <= i < |r.calls| && r.calls[i].channel == n
      ensures bound == Some(r.calls[i].listener)
    {
      if i < |b.calls| {
        assert r.calls[i] == b.calls[i];
      }
    }
  }

  /** A channel's listener is the one of its first bind, and every delivery
      on the channel goes to that listener: a later bind never displaces it. */
  lemma {:induction false} ListenerIsFirstBinder(ops: seq<Op>, n: string)
    ensures var r := Exec(Init(), ops);
      && (n in r.channels ==> r.channels[n].listener == FirstListener(ops, n))
      && (n !in r.channels ==> FirstListener(ops, n) == None)
      && (forall i :: 0 <= i < |r.calls| && r.calls[i].channel == n ==>
            FirstListener(ops, n) == Some(r.calls[i].listener))
    decreases |ops|
  {
    if ops != [] {
      var prev := ops[..|ops| - 1];
      ListenerIsFirstBinder(prev, n);
      StepListener(Exec(Init(), prev), ops[|ops| - 1], n, FirstListener(prev, n));
    }
  }

  lemma DeliveriesSnoc(l: ListenerRef, n: string, msgs: seq<Message>, m: Message)
    ensures Deliveries(l, n, msgs + [m]) == Deliveries(l, n, msgs) + [Call(l, n, m)]
  {
  }

  /** Delivering the head of `q[k - 1..]` extends the deliveries of `q[..k - 1]` to those of `q[..k]`. */
  lemma NextDelivery(calls: seq<Call>, l: ListenerRef, n: string, q: seq<Message>, k: nat)
    requires 0 < k <= |q|
    ensures q[k - 1..] != [] && q[k - 1..][1..] == q[k..]
    ensures calls + Deliveries(l, n, q[..k - 1]) + [Call(l, n, q[k - 1..][0])]
            == calls + Deliveries(l, n, q[..k])
  {
    assert q[..k] == q[..k - 1] + [q[k - 1]];
    DeliveriesSnoc(l, n, q[..k - 1], q[k - 1]);
  }

  /** Firing a bound channel that holds messages delivers exactly its head. */
  lemma FireBound(b: Bridge, n: string)
    requires WellFormed(b) && n in b.channels && b.channels[n].listener.Some?
    requires b.channels[n].queue != []
    ensures var r := Step(b, Tick(n)); var c := b.channels[n];
      && n in r.channels
      && r.channels[n].queue == c.queue[1..]
      && r.channels[n].listener == c.listener
      && r.calls == b.calls + [Call(c.listener.value, n, c.queue[0])]
  {
    assert Valid(b.channels[n]);
  }

  /** Firing a bound channel `k` times delivers the first `k` queued
      messages, in order, to its listener. */
  lemma {:induction false} TicksDeliverPrefix(b: Bridge, n: string, k: nat)
    requires WellFormed(b) && n in b.channels && b.channels[n].listener.Some?
    requires k <= |b.channels[n].queue|
    ensures var r := Exec(b, Ticks(n, k));
      && n in r.channels
      && r.channels[n].queue == b.channels[n].queue[k..]
      && r.channels[n].listener == b.channels[n].listener
      && r.calls == b.calls + Deliveries(b.channels[n].listener.value, n, b.channels[n].queue[..k])
    decreases k
  {
    var q := b.channels[n].queue;
    var l := b.channels[n].listener.value;
    if k == 0 {
      assert Ticks(n, 0) == [];
    } else {
      assert Ticks(n, k) == Ticks(n, k - 1) + [Tick(n)];
      TicksDeliverPrefix(b, n, k - 1);
      var mid := Exec(b, Ticks(n, k - 1));
      ExecSnoc(b, Ticks(n, k - 1), Tick(n));
      FireBound(mid, n);
      NextDelivery(b.calls, l, n, q, k);
    }
  }

  lemma {:induction false} SentToIgnoresTicks(ops: seq<Op>, n: string, m: string, k: nat)
    ensures SentTo(ops + Ticks(m, k), n) == SentTo(ops, n)
    decreases k
  {
    if k == 0 {
      assert ops + Ticks(m, 0) == ops;
    } else {
      assert (ops + Ticks(m, k))[..|ops| + k - 1] == ops + Ticks(m, k - 1);
      SentToIgnoresTicks(ops, n, m, k - 1);
    }
  }

  /** Once a channel is bound, letting the event loop service it until it is
      idle delivers every message ever sent to it, in order, exactly once. */
  lemma EventualDelivery(ops: seq<Op>, n: string)
    requires FirstListener(ops, n).Some?
    ensures var k := |QueueOf(Exec(Init(), ops), n)|;
      Received(Exec(Init(), ops + Ticks(n, k)).calls, n) == SentTo(ops, n)
  {
    var b := Exec(Init(), ops);
    var k := |QueueOf(b, n)|;
    ListenerIsFirstBinder(ops, n);
    ExecAppend(Init(), ops, Ticks(n, k));
    TicksDeliverPrefix(b, n, k);
    FifoExactlyOnce(ops + Ticks(n, k), n);
    SentToIgnoresTicks(ops, n, n, k);
  }

  /** A send to `n` on a bridge whose only channel, if any, is an unbound `n`. */
  lemma SendToUnbound(b: Bridge, n: string, msg: Message)
    requires WellFormed(b) && b.calls == []
    requires b.channels == map[] || (b.channels.Keys == {n} && b.channels[n].listener == None)
    ensures var r := Step(b, Send(n, msg));
      && r.calls == [] && r.channels.Keys == {n}
      && r.channels[n].listener == None && r.channels[n].queue == QueueOf(b, n) + [msg]
  {
  }

  lemma {:induction false} SendsBeforeBind(n: string, msgs: seq<Message>)
    ensures var r := Exec(Init(), Sends(n, msgs));
      && r.calls == []
      && (msgs == [] ==> r.channels == map[])
      && (msgs != [] ==> r.channels.Keys == {n} && r.channels[n].queue == msgs
                         && r.channels[n].listener == None)
    decreases |msgs|
  {
    if msgs != [] {
      var k := |msgs| - 1;
      assert Sends(n, msgs) == Sends(n, msgs[..k]) + [Send(n, msgs[k])];
      SendsBeforeBind(n, msgs[..k]);
      var prev := Exec(Init(), Sends(n, msgs[..k]));
      ExecSnoc(Init(), Sends(n, msgs[..k]), Send(n, msgs[k]));
      SendToUnbound(prev, n, msgs[k]);
      assert QueueOf(prev, n) == msgs[..k];
      assert msgs == msgs[..k] + [msgs[k]];
    }
  }

  /** Binding a channel that has no listener keeps its queue and the call log. */
  lemma BindUnbound(b: Bridge, n: string, l: ListenerRef)
    requires WellFormed(b) && (n !in b.channels || b.channels[n].listener == None)
    ensures var r := Step(b, Register(n, l));
      && n in r.channels && r.channels[n].listener == Some(l)
      && r.channels[n].queue == QueueOf(b, n) && r.calls == b.calls
  {
  }

  /** Messages queued before any listener is bound are all delivered, in
      enqueue order, once the listener is bound and the loop runs. */
  lemma QueuedBeforeBindDelivered(n: string, msgs: seq<Message>, l: ListenerRef)
    ensures Exec(Init(), Sends(n, msgs) + [Register(n, l)] + Ticks(n, |msgs|)).calls
            == Deliveries(l, n, msgs)
  {
    var pre := Sends(n, msgs) + [Register(n, l)];
    SendsBeforeBind(n, msgs);
    var queued := Exec(Init(), Sends(n, msgs));
    ExecSnoc(Init(), Sends(n, msgs), Register(n, l));
    BindUnbound(queued, n, l);
    var bound := Exec(Init(), pre);
    ExecAppend(Init(), pre, Ticks(n, |msgs|));
    TicksDeliverPrefix(bound, n, |msgs|);
    assert msgs[..|msgs|] == msgs;
  }

  /** Scenario: "a", "b", "c" queued on "log" before a listener is bound. */
  lemma ScenarioLog(l: ListenerRef)
    ensures Exec(Init(), [Send("log", "a"), Send("log", "b"), Send("log", "c"), Register("log", l),
                          Tick("log"), Tick("log"), Tick("log")]).calls
            == [Call(l, "log", "a"), Call(l, "log", "b"), Call(l, "log", "c")]
  {
    var msgs := ["a", "b", "c"];
    QueuedBeforeBindDelivered("log", msgs, l);
    assert Sends("log", msgs) + [Register("log", l)] + Ticks("log", 3)
        == [Send("log", "a"), Send("log", "b"), Send("log", "c"), Register("log", l),
            Tick("log"), Tick("log"), Tick("log")];
  }

  /** A second bind on a bound channel raises and changes nothing. */
  lemma SecondBindRejected(b: Bridge, n: string, l1: ListenerRef, l2: ListenerRef)
    requires WellFormed(b)
    requires BindListener(b, n, l1).Success?
    ensures var bound := BindListener(b, n, l1).value;
      && BindListener(bound, n, l2) == Failure(ChannelAlreadyExists)
      && Step(bound, Register(n, l2)) == bound
  {
  }

  /** Scenario: a second bind on "x" fails and the first listener still
      receives the message that was pending. */
  lemma ScenarioSecondBind(l1: ListenerRef, l2: ListenerRef)
    ensures var ops := [Register("x", l1), Send("x", "m"), Register("x", l2), Tick("x")];
      && BindListener(Exec(Init(), ops[..2]), "x", l2) == Failure(ChannelAlreadyExists)
      && Exec(Init(), ops).calls == [Call(l1, "x", "m")]
  {
    var ops := [Register("x", l1), Send("x", "m"), Register("x", l2), Tick("x")];
    assert ops[..1] == [Register("x", l1)] && ops[..1][..0] == [];
    assert ops[..2][..1] == ops[..1] && ops[..3][..2] == ops[..2] && ops[..4][..3] == ops[..3];
    assert ops[..4] == ops;
    assert Exec(Init(), ops[..1]) == Step(Init(), Register("x", l1));
    assert "x" !in Init().channels;
    var bound := Exec(Init(), ops[..1]);
    assert bound.channels["x"] == Channel("x", [], Some(l1), true, true);
    var sent := Exec(Init(), ops[..2]);
    assert sent.channels["x"] == Channel("x", ["m"], Some(l1), true, true);
    assert Exec(Init(), ops[..3]) == sent;
    assert Exec(Init(), ops) == Fire(sent, "x");
  }

  /** The callback the reverse path uses is the one registered last; none
      when nothing was registered or the last registration was NULL. */
  function LastCallback(ops: seq<Op>): Option<CallbackRef>
    decreases |ops|
  {
    if ops == [] then None
    else if ops[|ops| - 1].SetCallback? then ops[|ops| - 1].callback
    else LastCallback(ops[..|ops| - 1])
  }

  lemma {:induction false} CallbackIsLastRegistered(ops: seq<Op>)
    ensures Exec(Init(), ops).callback == LastCallback(ops)
    decreases |ops|
  {
    if ops != [] {
      CallbackIsLastRegistered(ops[..|ops| - 1]);
    }
  }

  /** A well-formed `sendMessage` after any history reaches the callback
      registered last, and raises "no callback" exactly when nothing was
      registered or the last registration was NULL. */
  lemma ReverseUsesLastCallback(ops: seq<Op>, args: seq<JsValue>)
    requires |args| == 2 && args[0].JsString? && Coerce(args[1]).Some?
    ensures var b := Exec(Init(), ops);
      && (SendMessage(b, args).Success? <==> LastCallback(ops).Some?)
      && (LastCallback(ops).None? ==> SendMessage(b, args) == Failure(NoCallback))
      && (LastCallback(ops).Some? ==>
          SendMessage(b, args).value.reverse
          == b.reverse + [ReverseCall(LastCallback(ops).value, args[0].s, Coerce(args[1]).value)])
  {
    CallbackIsLastRegistered(ops);
  }
}
