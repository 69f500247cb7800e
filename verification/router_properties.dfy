/**
 * Properties of the router over arbitrary call sequences: once both sides
 * are ready every message handed to the router has reached its side at
 * least once; as written a second ready event replays the buffer again, and
 * with a draining replay every message is delivered exactly once.
 */
module RouterProperties {
  import opened Wrappers
  import opened Router

  /** The messages handed to the router by a call, as keys. */
  function SubmittedBy(op: RouterOp): seq<Key> {
    match op
    case FromNs(ch, m) => [ForNode(ch, m)]
    case SetCallOp(_) => []
    case FromNode(ch, m) => if ch != SystemChannel then [ForNs(m)] else []
  }

  function Submitted(ops: seq<RouterOp>): seq<Key>
    decreases |ops|
  {
    if ops == [] then [] else Submitted(ops[..|ops| - 1]) + SubmittedBy(ops[|ops| - 1])
  }

  predicate BothReady(r: Router) {
    r.nodeIsReady && r.call.Some?
  }

  /** Every message handed over is buffered or delivered, counted with
      multiplicity, and once both sides are ready every message handed over
      has been delivered at least as often as it was handed over. */
  predicate Covered(r: Router, submitted: seq<Key>) {
    && multiset(submitted) <= multiset(OutKeys(r.out)) + multiset(WaitingKeys(r.waiting))
    && (BothReady(r) ==> multiset(submitted) <= multiset(OutKeys(r.out)))
  }

  /** What a replay does to the keys it holds, with multiplicity: each
      buffered message stays buffered or is delivered, nothing new is
      buffered, nothing delivered is lost, and with a callback present the
      whole buffer is delivered. */
  lemma TriggerReadyCovers(r: Router, p: ReplayPolicy)
    ensures var o := TriggerReady(r, p).state;
      && multiset(OutKeys(r.out)) + multiset(WaitingKeys(r.waiting))
         <= multiset(OutKeys(o.out)) + multiset(WaitingKeys(o.waiting))
      && (r.call.Some? ==>
          multiset(OutKeys(o.out)) == multiset(OutKeys(r.out)) + multiset(WaitingKeys(r.waiting)))
      && multiset(WaitingKeys(o.waiting)) <= multiset(WaitingKeys(r.waiting))
      && multiset(OutKeys(r.out)) <= multiset(OutKeys(o.out))
  {
    var rp := Replay(r.call, r.waiting);
    var o := TriggerReady(r, p).state;
    var ks := WaitingKeys(r.waiting);
    var s := rp.sent;
    assert o.out == r.out + rp.out;
    assert o.waiting == if p == Draining then r.waiting[s..] else r.waiting;
    ReplayKeys(r.call, r.waiting);
    OutKeysConcat(r.out, rp.out);
    WaitingKeysSuffix(r.waiting, s);
    assert OutKeys(o.out) == OutKeys(r.out) + ks[..s];
    assert WaitingKeys(o.waiting) == if p == Draining then ks[s..] else ks;
    CoverSplit(OutKeys(r.out), ks, s, OutKeys(o.out), WaitingKeys(o.waiting));
  }

  /** Moving a prefix of a buffer to the end of an output keeps every key
      somewhere, and moving all of it puts every key in the output. */
  lemma CoverSplit(out: seq<Key>, ks: seq<Key>, s: nat, out': seq<Key>, rest: seq<Key>)
    requires s <= |ks| && out' == out + ks[..s] && (rest == ks[s..] || rest == ks)
    ensures multiset(out) + multiset(ks) <= multiset(out') + multiset(rest)
    ensures s == |ks| ==> multiset(out') == multiset(out) + multiset(ks)
    ensures multiset(rest) <= multiset(ks)
    ensures multiset(out) <= multiset(out')
  {
    MultisetSplit(ks, s);
    assert s == |ks| ==> ks[..s] == ks;
  }

  lemma AppendKeys(w: seq<BridgeMessage>, out: seq<Output>, m: BridgeMessage, o: Output)
    ensures WaitingKeys(w + [m]) == WaitingKeys(w) + [KeyOfMsg(m)]
    ensures OutKeys(out + [o]) == OutKeys(out) + [KeyOfOut(o)]
  {
  }

  lemma {:induction false} ApplyCovers(r: Router, op: RouterOp, p: ReplayPolicy, submitted: seq<Key>)
    requires Covered(r, submitted)
    ensures Covered(Apply(r, op, p), submitted + SubmittedBy(op))
  {
    var r' := Apply(r, op, p);
    match op
    case FromNs(ch, m) =>
      AppendKeys(r.waiting, r.out, BridgeMessage(ToNode, ch, m), NodeSend(ch, m));
    case FromNode(ch, m) =>
      AppendKeys(r.waiting, r.out, BridgeMessage(ToNativeScript, ch, m), NsCallback(if r.call.Some? then r.call.value else 0, m));
      if ch == SystemChannel {
        if m == NodeReady {
          TriggerReadyCovers(r.(nodeIsReady := true), p);
        } else if m == NativescriptReady {
          TriggerReadyCovers(r, p);
        }
      }
    case SetCallOp(c) =>
      TriggerReadyCovers(r.(call := c), p);
  }

  lemma {:induction false} RunCovers(ops: seq<RouterOp>, p: ReplayPolicy)
    ensures Covered(Run(Init(), ops, p), Submitted(ops))
    decreases |ops|
  {
    if ops != [] {
      RunCovers(ops[..|ops| - 1], p);
      ApplyCovers(Run(Init(), ops[..|ops| - 1], p), ops[|ops| - 1], p, Submitted(ops[..|ops| - 1]));
    }
  }

  /** Once Node and NativeScript are both ready, every message handed to the
      router so far, in either direction, has been delivered at least as many
      times as it was handed over. */
  lemma AtLeastOnceWhenReady(ops: seq<RouterOp>, p: ReplayPolicy)
    requires BothReady(Run(Init(), ops, p))
    ensures multiset(Submitted(ops)) <= multiset(OutKeys(Run(Init(), ops, p).out))
  {
    RunCovers(ops, p);
  }

  /** With a draining replay the delivered and the buffered messages together
      are exactly the submitted ones, each counted once; when both sides are
      ready nothing stays buffered. */
  predicate Balanced(r: Router, submitted: seq<Key>) {
    && multiset(OutKeys(r.out)) + multiset(WaitingKeys(r.waiting)) == multiset(submitted)
    && (BothReady(r) ==> r.waiting == [])
  }

  lemma ReplayKeys(call: Option<CallRef>, msgs: seq<BridgeMessage>)
    ensures var rp := Replay(call, msgs); OutKeys(rp.out) == WaitingKeys(msgs)[..rp.sent]
  {
  }

  lemma OutKeysConcat(a: seq<Output>, b: seq<Output>)
    ensures OutKeys(a + b) == OutKeys(a) + OutKeys(b)
  {
  }

  lemma WaitingKeysSuffix(w: seq<BridgeMessage>, s: nat)
    requires s <= |w|
    ensures WaitingKeys(w[s..]) == WaitingKeys(w)[s..]
  {
  }

  lemma MultisetSplit(ks: seq<Key>, s: nat)
    requires s <= |ks|
    ensures multiset(ks[..s]) + multiset(ks[s..]) == multiset(ks)
  {
    assert ks == ks[..s] + ks[s..];
  }

  lemma DrainingTriggerKeys(r: Router)
    ensures var o := TriggerReady(r, Draining).state;
      multiset(OutKeys(o.out)) + multiset(WaitingKeys(o.waiting))
      == multiset(OutKeys(r.out)) + multiset(WaitingKeys(r.waiting))
  {
    var rp := Replay(r.call, r.waiting);
    var o := TriggerReady(r, Draining).state;
    var ks := WaitingKeys(r.waiting);
    assert o.out == r.out + rp.out && o.waiting == r.waiting[rp.sent..];
    ReplayKeys(r.call, r.waiting);
    OutKeysConcat(r.out, rp.out);
    WaitingKeysSuffix(r.waiting, rp.sent);
    MultisetSplit(ks, rp.sent);
    assert multiset(OutKeys(o.out)) == multiset(OutKeys(r.out)) + multiset(ks[..rp.sent]);
  }

  /** A draining replay keeps the balance and, with a callback present,
      leaves nothing buffered. */
  lemma TriggerBalanced(r: Router, submitted: seq<Key>)
    requires multiset(OutKeys(r.out)) + multiset(WaitingKeys(r.waiting)) == multiset(submitted)
    ensures Balanced(TriggerReady(r, Draining).state, submitted)
  {
    DrainingTriggerKeys(r);
  }

  lemma BalancedForward(r: Router, submitted: seq<Key>, o: Output)
    requires Balanced(r, submitted)
    ensures Balanced(r.(out := r.out + [o]), submitted + [KeyOfOut(o)])
  {
    OutKeysConcat(r.out, [o]);
  }

  lemma BalancedBuffer(r: Router, submitted: seq<Key>, m: BridgeMessage)
    requires Balanced(r, submitted) && !BothReady(r)
    ensures Balanced(r.(waiting := r.waiting + [m]), submitted + [KeyOfMsg(m)])
  {
    assert WaitingKeys(r.waiting + [m]) == WaitingKeys(r.waiting) + [KeyOfMsg(m)];
  }

  lemma {:induction false} ApplyBalanced(r: Router, op: RouterOp, submitted: seq<Key>)
    requires Balanced(r, submitted)
    ensures Balanced(Apply(r, op, Draining), submitted + SubmittedBy(op))
  {
    match op
    case FromNs(ch, m) =>
      if r.nodeIsReady {
        BalancedForward(r, submitted, NodeSend(ch, m));
      } else {
        BalancedBuffer(r, submitted, BridgeMessage(ToNode, ch, m));
      }
    case FromNode(ch, m) =>
      if ch != SystemChannel {
        if r.call.Some? {
          BalancedForward(r, submitted, NsCallback(r.call.value, m));
        } else {
          BalancedBuffer(r, submitted, BridgeMessage(ToNativeScript, ch, m));
        }
      } else {
        assert submitted + SubmittedBy(op) == submitted;
        if m == NodeReady {
          if r.call.Some? {
            TriggerBalanced(r.(nodeIsReady := true), submitted);
          }
        } else if m == NativescriptReady && r.nodeIsReady {
          TriggerBalanced(r, submitted);
        }
      }
    case SetCallOp(c) =>
      assert submitted + SubmittedBy(op) == submitted;
      if r.nodeIsReady {
        TriggerBalanced(r.(call := c), submitted);
      }
  }

  /** The corrected router delivers every message handed to it exactly once:
      what it has delivered plus what it still buffers is exactly what it
      was given, and once both sides are ready it buffers nothing. */
  lemma {:induction false} DrainingExactlyOnce(ops: seq<RouterOp>)
    ensures var r := Run(Init(), ops, Draining);
      && multiset(OutKeys(r.out)) + multiset(WaitingKeys(r.waiting)) == multiset(Submitted(ops))
      && (BothReady(r) ==> multiset(OutKeys(r.out)) == multiset(Submitted(ops)))
    decreases |ops|
  {
    if ops != [] {
      DrainingExactlyOnce(ops[..|ops| - 1]);
      var prev := Run(Init(), ops[..|ops| - 1], Draining);
      assert Balanced(prev, Submitted(ops[..|ops| - 1]));
      ApplyBalanced(prev, ops[|ops| - 1], Submitted(ops[..|ops| - 1]));
    }
  }

  lemma RunSnoc(r: Router, ops: seq<RouterOp>, op: RouterOp, p: ReplayPolicy)
    ensures Run(r, ops + [op], p) == Apply(Run(r, ops, p), op, p)
  {
    assert (ops + [op])[..|ops|] == ops;
  }

  /** Runs four calls one after another. */
  lemma RunFour(a: RouterOp, b: RouterOp, c: RouterOp, d: RouterOp, p: ReplayPolicy)
    ensures Run(Init(), [a, b, c, d], p)
            == Apply(Apply(Apply(Apply(Init(), a, p), b, p), c, p), d, p)
  {
    RunSnoc(Init(), [], a, p);
    RunSnoc(Init(), [a], b, p);
    RunSnoc(Init(), [a, b], c, p);
    RunSnoc(Init(), [a, b, c], d, p);
    assert [] + [a] == [a] && [a] + [b] == [a, b] && [a, b] + [c] == [a, b, c] && [a, b, c] + [d] == [a, b, c, d];
  }

  /** A message sent towards Node before anything is ready, then "Node Ready"
      while no callback is set: Node is ready and the message is buffered. */
  lemma HeldUntilCallback(ch: string, m: string, p: ReplayPolicy)
    ensures Apply(Apply(Init(), FromNs(ch, m), p), FromNode(SystemChannel, NodeReady), p)
            == Router(None, true, [BridgeMessage(ToNode, ch, m)], [])
  {
    assert Apply(Init(), FromNs(ch, m), p) == Router(None, false, [BridgeMessage(ToNode, ch, m)], []);
  }

  /** Registering a callback once Node is ready replays a held Node message. */
  lemma SetCallReplaysHeld(r: Router, ch: string, m: string, c: CallRef, p: ReplayPolicy)
    requires r.nodeIsReady && r.waiting == [BridgeMessage(ToNode, ch, m)]
    ensures Apply(r, SetCallOp(Some(c)), p)
            == r.(call := Some(c), out := r.out + [NodeSend(ch, m)],
                  waiting := if p == AsWritten then r.waiting else [])
  {
    assert Replay(Some(c), r.waiting) == Replayed([NodeSend(ch, m)], 1, false);
  }

  lemma SetCallReplaysNothing(r: Router, c: CallRef, p: ReplayPolicy)
    requires r.nodeIsReady && r.waiting == []
    ensures Apply(r, SetCallOp(Some(c)), p) == r.(call := Some(c))
  {
    assert Replay(Some(c), []) == Replayed([], 0, false);
  }

  lemma ReplayTwiceTrace(p: ReplayPolicy)
    ensures Run(Init(), [FromNs("c", "m"), FromNode(SystemChannel, NodeReady),
                         SetCallOp(Some(1)), SetCallOp(Some(1))], p).out
            == if p == AsWritten then [NodeSend("c", "m"), NodeSend("c", "m")] else [NodeSend("c", "m")]
  {
    RunFour(FromNs("c", "m"), FromNode(SystemChannel, NodeReady), SetCallOp(Some(1)), SetCallOp(Some(1)), p);
    HeldUntilCallback("c", "m", p);
    var r2 := Router(None, true, [BridgeMessage(ToNode, "c", "m")], []);
    SetCallReplaysHeld(r2, "c", "m", 1, p);
    var r3 := Apply(r2, SetCallOp(Some(1)), p);
    if p == AsWritten {
      SetCallReplaysHeld(r3, "c", "m", 1, p);
    } else {
      SetCallReplaysNothing(r3, 1, p);
    }
  }

  /** As written, a second ready event replays the buffer again: a message
      sent towards Node before it was ready reaches Node twice when
      NativeScript registers its callback twice. Draining sends it once. */
  lemma AsWrittenReplaysTwice()
    ensures var ops := [FromNs("c", "m"), FromNode(SystemChannel, NodeReady),
                        SetCallOp(Some(1)), SetCallOp(Some(1))];
      && Submitted(ops) == [ForNode("c", "m")]
      && Run(Init(), ops, AsWritten).out == [NodeSend("c", "m"), NodeSend("c", "m")]
      && Run(Init(), ops, Draining).out == [NodeSend("c", "m")]
  {
    var ops := [FromNs("c", "m"), FromNode(SystemChannel, NodeReady),
                SetCallOp(Some(1)), SetCallOp(Some(1))];
    ReplayTwiceTrace(AsWritten);
    ReplayTwiceTrace(Draining);
    SubmittedSnoc([], ops[0]);
    SubmittedSnoc(ops[..1], ops[1]);
    SubmittedSnoc(ops[..2], ops[2]);
    SubmittedSnoc(ops[..3], ops[3]);
    assert [] + [ops[0]] == ops[..1] && ops[..1] + [ops[1]] == ops[..2];
    assert ops[..2] + [ops[2]] == ops[..3] && ops[..3] + [ops[3]] == ops;
  }

  lemma SubmittedSnoc(ops: seq<RouterOp>, op: RouterOp)
    ensures Submitted(ops + [op]) == Submitted(ops) + SubmittedBy(op)
  {
    assert (ops + [op])[..|ops|] == ops;
  }

  /** "Node Ready" without a NativeScript callback marks Node ready but does
      not replay: a Node-bound message sent afterwards overtakes one buffered
      before, under either replay policy. */
  lemma NodeReadyBeforeCallbackReorders(p: ReplayPolicy)
    ensures Run(Init(), [FromNs("c", "a"), FromNode(SystemChannel, NodeReady),
                         FromNs("c", "b"), SetCallOp(Some(1))], p).out
            == [NodeSend("c", "b"), NodeSend("c", "a")]
  {
    RunFour(FromNs("c", "a"), FromNode(SystemChannel, NodeReady), FromNs("c", "b"), SetCallOp(Some(1)), p);
    HeldUntilCallback("c", "a", p);
    var r2 := Router(None, true, [BridgeMessage(ToNode, "c", "a")], []);
    var r3 := Apply(r2, FromNs("c", "b"), p);
    assert r3 == r2.(out := [NodeSend("c", "b")]);
    SetCallReplaysHeld(r3, "c", "a", 1, p);
  }
}
