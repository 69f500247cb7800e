/**
 * The Java-side router between NativeScript and Node: a readiness state
 * machine over `nodeIsReady`, the NativeScript callback slot and the buffer
 * of messages that arrived before their side was ready.
 *
 * The native send to Node and the NativeScript callback are appends to one
 * output log. A `NullPointerException` from the NativeScript callback slot
 * being empty during a replay is the `threw` flag of an `Outcome`; the
 * static fields keep whatever was changed before it, as in Java.
 */
module Router {
  import opened Wrappers

  const SystemChannel: string := "_SYSTEM_"
  const NodeReady: string := "Node Ready"
  const NativescriptReady: string := "Nativescript Ready"
  const StartNode: string := "Start Node"

  /** Identity of the NativeScript callback object. */
  type CallRef = nat

  datatype Dest = ToNode | ToNativeScript

  /** A buffered message with its destination. */
  datatype BridgeMessage = BridgeMessage(dest: Dest, channel: string, message: string)

  datatype Output =
    | NodeSend(channel: string, message: string)   // native send to a Node channel
    | NsCallback(call: CallRef, message: string)   // NativeScript callback; the channel is dropped

  datatype Router = Router(
    call: Option<CallRef>,
    nodeIsReady: bool,
    waiting: seq<BridgeMessage>,
    out: seq<Output>)

  /** What a replay does with its buffer: `AsWritten` keeps it whole, as the
      source does; `Draining` removes each message once it has been replayed. */
  datatype ReplayPolicy = AsWritten | Draining

  /** The state after a call, and whether the call ended with an exception. */
  datatype Outcome = Outcome(state: Router, threw: bool)

  /** What a message is, regardless of how it travels: Node deliveries keep
      their channel, NativeScript deliveries only carry the message. */
  datatype Key = ForNode(channel: string, message: string) | ForNs(message: string)

  function KeyOfMsg(m: BridgeMessage): Key {
    if m.dest == ToNode then ForNode(m.channel, m.message) else ForNs(m.message)
  }

  function KeyOfOut(o: Output): Key {
    match o
    case NodeSend(ch, m) => ForNode(ch, m)
    case NsCallback(_, m) => ForNs(m)
  }

  function WaitingKeys(w: seq<BridgeMessage>): (ks: seq<Key>)
    ensures |ks| == |w|
    ensures forall i :: 0 <= i < |w| ==> ks[i] == KeyOfMsg(w[i])
  {
    seq(|w|, i requires 0 <= i < |w| => KeyOfMsg(w[i]))
  }

  function OutKeys(out: seq<Output>): (ks: seq<Key>)
    ensures |ks| == |out|
    ensures forall i :: 0 <= i < |out| ==> ks[i] == KeyOfOut(out[i])
  {
    seq(|out|, i requires 0 <= i < |out| => KeyOfOut(out[i]))
  }

  function Init(): (r: Router)
    ensures r.call == None && !r.nodeIsReady && r.waiting == [] && r.out == []
  {
    Router(None, false, [], [])
  }

  /** Forwards straight to Node once Node is ready; buffers otherwise. */
  function SendToNode(r: Router, channel: string, msg: string): (r': Router)
    ensures r.nodeIsReady ==> r' == r.(out := r.out + [NodeSend(channel, msg)])
    ensures !r.nodeIsReady ==> r' == r.(waiting := r.waiting + [BridgeMessage(ToNode, channel, msg)])
  {
    if r.nodeIsReady then r.(out := r.out + [NodeSend(channel, msg)])
    else r.(waiting := r.waiting + [BridgeMessage(ToNode, channel, msg)])
  }

  /** The result of replaying a buffer: what was emitted, how many buffered
      messages were handled, and whether the replay stopped on an exception. */
  datatype Replayed = Replayed(out: seq<Output>, sent: nat, threw: bool)

  /** Replays `msgs` in insertion order: Node messages go to their channel,
      the others to the NativeScript callback, and an empty callback slot
      throws at the first NativeScript message, ending the replay there. */
  function Replay(call: Option<CallRef>, msgs: seq<BridgeMessage>): (r: Replayed)
    ensures r.sent <= |msgs| && |r.out| == r.sent
    ensures r.threw <==> r.sent < |msgs|
    ensures r.threw ==> call.None? && msgs[r.sent].dest == ToNativeScript
    ensures forall i :: 0 <= i < r.sent && msgs[i].dest == ToNode ==>
      r.out[i] == NodeSend(msgs[i].channel, msgs[i].message)
    ensures forall i :: 0 <= i < r.sent && msgs[i].dest == ToNativeScript ==>
      call.Some? && r.out[i] == NsCallback(call.value, msgs[i].message)
    decreases |msgs|
  {
    if msgs == [] then Replayed([], 0, false)
    else
      var m := msgs[0];
      match (m.dest, call)
      case (ToNode, _) =>
        var rest := Replay(call, msgs[1..]);
        Replayed([NodeSend(m.channel, m.message)] + rest.out, rest.sent + 1, rest.threw)
      case (ToNativeScript, None) =>
        Replayed([], 0, true)
      case (ToNativeScript, Some(c)) =>
        var rest := Replay(call, msgs[1..]);
        Replayed([NsCallback(c, m.message)] + rest.out, rest.sent + 1, rest.threw)
  }

  /** Replays the whole buffer. As written the buffer is left untouched;
      `Draining` removes exactly the messages that were replayed. */
  function TriggerReady(r: Router, p: ReplayPolicy): (o: Outcome)
    ensures o.state.call == r.call && o.state.nodeIsReady == r.nodeIsReady
    ensures p == AsWritten ==> o.state.waiting == r.waiting
    ensures |r.out| <= |o.state.out| && o.state.out[..|r.out|] == r.out
    ensures |o.state.out| - |r.out| <= |r.waiting|
    ensures forall i :: |r.out| <= i < |o.state.out| ==>
      KeyOfOut(o.state.out[i]) == KeyOfMsg(r.waiting[i - |r.out|])
    ensures p == Draining ==> o.state.waiting == r.waiting[|o.state.out| - |r.out|..]
    ensures o.threw <==> |o.state.out| - |r.out| < |r.waiting|
    ensures r.call.Some? ==> !o.threw
    ensures o.threw ==> r.call.None? && r.waiting[|o.state.out| - |r.out|].dest == ToNativeScript
    ensures forall i :: |r.out| <= i < |o.state.out| && r.waiting[i - |r.out|].dest == ToNativeScript ==>
      r.call.Some? && o.state.out[i] == NsCallback(r.call.value, r.waiting[i - |r.out|].message)
    ensures forall i :: |r.out| <= i < |o.state.out| && r.waiting[i - |r.out|].dest == ToNode ==>
      o.state.out[i] == NodeSend(r.waiting[i - |r.out|].channel, r.waiting[i - |r.out|].message)
  {
    var rp := Replay(r.call, r.waiting);
    assert forall i :: 0 <= i < rp.sent ==> KeyOfOut(rp.out[i]) == KeyOfMsg(r.waiting[i]);
    var rest := if p == Draining then r.waiting[rp.sent..] else r.waiting;
    Outcome(r.(out := r.out + rp.out, waiting := rest), rp.threw)
  }

  /** The handler of system-channel messages. "Node Ready" marks Node ready
      and replays if NativeScript is ready; "Nativescript Ready" replays if
      Node is ready. `StartNode` only updates the user interface and any
      other message is ignored: neither changes the router. */
  function SystemMessage(r: Router, msg: string, p: ReplayPolicy): (o: Outcome)
    ensures msg == NodeReady ==> o.state.nodeIsReady
    ensures msg != NodeReady ==> o.state.nodeIsReady == r.nodeIsReady
    ensures o.state.call == r.call
    ensures msg == NodeReady && r.call.None? ==> o == Outcome(r.(nodeIsReady := true), false)
    ensures msg == NodeReady && r.call.Some? ==> o == TriggerReady(r.(nodeIsReady := true), p)
    ensures msg == NativescriptReady ==>
      o == (if r.nodeIsReady then TriggerReady(r, p) else Outcome(r, false))
    ensures msg != NodeReady && msg != NativescriptReady ==> o == Outcome(r, false)
    ensures msg == StartNode ==> o == Outcome(r, false)
  {
    if msg == NodeReady then
      var ready := r.(nodeIsReady := true);
      if ready.call.Some? then TriggerReady(ready, p) else Outcome(ready, false)
    else if msg == NativescriptReady then
      if r.nodeIsReady then TriggerReady(r, p) else Outcome(r, false)
    else
      Outcome(r, false)
  }

  /** Stores the NativeScript callback, then handles "Nativescript Ready". */
  function SetCall(r: Router, c: Option<CallRef>, p: ReplayPolicy): (o: Outcome)
    ensures o.state.call == c && o.state.nodeIsReady == r.nodeIsReady
    ensures !r.nodeIsReady ==> o == Outcome(r.(call := c), false)
    ensures r.nodeIsReady ==> o == TriggerReady(r.(call := c), p)
  {
    SystemMessage(r.(call := c), NativescriptReady, p)
  }

  /** A message from Node: on an ordinary channel it goes to the NativeScript
      callback without its channel name, or is buffered when there is no
      callback; on the system channel it goes to the system handler and is
      never forwarded. */
  function ReceiveFromNode(r: Router, channel: string, msg: string, p: ReplayPolicy): (o: Outcome)
    ensures channel != SystemChannel && r.call.Some? ==>
      o == Outcome(r.(out := r.out + [NsCallback(r.call.value, msg)]), false)
    ensures channel != SystemChannel && r.call.None? ==>
      o == Outcome(r.(waiting := r.waiting + [BridgeMessage(ToNativeScript, channel, msg)]), false)
    ensures channel == SystemChannel ==> o == SystemMessage(r, msg, p)
  {
    if channel != SystemChannel then
      match r.call
      case Some(c) => Outcome(r.(out := r.out + [NsCallback(c, msg)]), false)
      case None => Outcome(r.(waiting := r.waiting + [BridgeMessage(ToNativeScript, channel, msg)]), false)
    else
      SystemMessage(r, msg, p)
  }

  /** The calls into the router, in the order they happen. */
  datatype RouterOp =
    | FromNs(channel: string, message: string)    // sendToNode
    | SetCallOp(call: Option<CallRef>)            // setCall
    | FromNode(channel: string, message: string)  // receiveMessageFromNode

  /** One call; an exception ends the call but keeps its state changes. */
  function Apply(r: Router, op: RouterOp, p: ReplayPolicy): Router {
    match op
    case FromNs(ch, m) => SendToNode(r, ch, m)
    case SetCallOp(c) => SetCall(r, c, p).state
    case FromNode(ch, m) => ReceiveFromNode(r, ch, m, p).state
  }

  function Run(r: Router, ops: seq<RouterOp>, p: ReplayPolicy): Router
    decreases |ops|
  {
    if ops == [] then r else Apply(Run(r, ops[..|ops| - 1], p), ops[|ops| - 1], p)
  }
}
