# Node bridge: channel registry, wakeup/flush state machine and Java router

This project models the message bridge between Android's Java side and an
embedded Node runtime, and proves properties of that model in Dafny.

The native half is the channel bridge in `node-bridge.cpp`:

- a registry maps channel names to channels, with get-or-create and no removal;
- each channel holds a FIFO queue, a bind-once listener slot and a libuv async wakeup;
- the flush step, run by the event loop, delivers one message at a time and
  re-arms the wakeup while messages remain;
- one process-wide native callback carries messages from JavaScript back to native code.

The Java half is the router in `Listener.java`. It is a readiness state machine:

- messages are forwarded to Node or to NativeScript as soon as their side is ready;
- until then they are buffered;
- the `_SYSTEM_` channel's "Node Ready" and "Nativescript Ready" messages replay the buffer.

Each locked critical section of the C++ code is one pure transition over
immutable state. `uv_async_send` sets a coalescing `pending` flag. The event
loop servicing a handle clears the flag and runs one flush step. Listener
invocations, native sends and NativeScript callbacks are appends to output
logs.

Modules:

- `Wrappers`: `Option` and `Result`.
- `Channels`: the per-channel state, `SetNapiRefs`, `QueueMessage`,
  `FlushQueue`, the event-loop step `AsyncFire` and the loop `RunUntilIdle`.
- `NodeBridge`: the registry, the reverse callback slot, and the JavaScript
  entry points `registerChannel` and `sendMessage` reduced to their
  observable outcome (an error, or a call into the core). It also defines
  operation sequences (`Op`, `Exec`).
- `BridgeProperties`: theorems over arbitrary operation sequences:
  - FIFO, exactly-once delivery;
  - the first listener is kept;
  - complete drain after binding;
  - the registry only grows.
- `Router` and `RouterProperties`: `Listener.java` and its theorems.

Two behaviours of the native entry points are worth stating:

- `registerChannel` accepts an empty channel name.
- `sendMessage` coerces and copies the message before it checks the callback
  slot, so an uncoercible message raises the coercion error even when no
  callback is registered.

The router sends a Node-bound message in two cases: directly, once
`nodeIsReady` holds, and when the buffer is replayed. A replay happens on
"Node Ready" only when a NativeScript callback is set, and on `setCall` or a
"Nativescript Ready" system message whenever `nodeIsReady` holds, even with
an empty callback slot (after `setCall(null)`, or when Node itself sends
"Nativescript Ready"); such a replay sends the Node-bound messages ahead of
the first NativeScript-bound one and then stops on the exception. So when
"Node Ready" arrives before NativeScript has registered its callback, a
later Node-bound message overtakes one buffered earlier.
`RouterProperties.NodeReadyBeforeCallbackReorders` exhibits this. Whether it
is intended is not evident, so it is recorded here and not as a finding.

## Model

| member | source | states |
|---|---|---|
| Channels.NewChannel | test-app/app/src/main/cpp/node-bridge.cpp:64-76 | a new channel has an empty queue, no listener, is not initialized and has no signal pending, which is a valid channel state |
| Channels.SetNapiRefs | test-app/app/src/main/cpp/node-bridge.cpp:80-95 | binding succeeds iff no handle exists yet; on success the listener is stored, `initialized` set and a flush signalled with the queue kept; otherwise "Channel already exists." is raised; validity is preserved |
| Channels.QueueMessage | test-app/app/src/main/cpp/node-bridge.cpp:99-107 | the message goes to the tail of the queue; a flush is signalled iff the channel is initialized; listener and name unchanged; validity preserved |
| Channels.FlushQueue | test-app/app/src/main/cpp/node-bridge.cpp:111-131 | on an empty queue nothing is delivered and nothing re-signalled; otherwise exactly the head is removed and delivered to the bound listener with (channel name, message), and a flush is re-signalled iff messages remain |
| Channels.AsyncFire | test-app/app/src/main/cpp/node-bridge.cpp:164-167 | the loop consumes a pending signal and runs one flush step, which delivers the head if there is one, delivers nothing on an empty queue, and leaves the signal set iff more than one message was queued; without a signal nothing happens; validity is preserved |
| Channels.RunUntilIdle | test-app/app/src/main/cpp/node-bridge.cpp:111-131 | servicing a bound channel until it is no longer pending delivers every queued message exactly once, in queue order, to the bound listener, and leaves the channel empty and idle |
| NodeBridge.Init | test-app/app/src/main/cpp/node-bridge.cpp:161-162 | the bridge starts with an empty registry, no listener calls, no reverse calls and an empty callback slot (the NULL initialiser at line 58), which is well-formed |
| NodeBridge.GetOrCreateChannel | test-app/app/src/main/cpp/node-bridge.cpp:169-181 | returns the registered channel for a known name, else registers a fresh one; keys only grow by that name and other entries are unchanged |
| NodeBridge.SendMessageToNodeChannel | test-app/app/src/main/cpp/node-bridge.cpp:278-285 | enqueues the message on the named channel, creating it if absent; other channels, the call logs and the callback slot are unchanged |
| NodeBridge.BindListener | test-app/app/src/main/cpp/node-bridge.cpp:213-214 | binding succeeds iff the named channel is absent or unbound; on success the listener is set, a flush signalled and the queue kept; on failure the error is "already exists" |
| NodeBridge.RegisterChannel | test-app/app/src/main/cpp/node-bridge.cpp:183-216 | a wrong argument count, a non-string name and a non-function listener raise their errors; otherwise the outcome is that of binding |
| NodeBridge.Fire | test-app/app/src/main/cpp/node-bridge.cpp:164-167 | only a registered, signalled channel changes; its head, if any, is delivered and logged, and its signal stays set iff messages remain after the pop; other channels are unchanged; well-formedness is preserved |
| NodeBridge.RegisterBridgeCallback | test-app/app/src/main/cpp/node-bridge.cpp:58-62 | the callback slot holds the new callback, whatever it held before, and a NULL registration empties it; nothing else changes |
| NodeBridge.Coerce | test-app/app/src/main/cpp/node-bridge.cpp:246-250 | a string message is passed through unchanged |
| NodeBridge.SendMessage | test-app/app/src/main/cpp/node-bridge.cpp:219-263 | errors for argument count, non-string name, failed coercion, and no registered callback, in that order; it succeeds iff none applies, and then the callback is called once with (name, coerced message) and channels are untouched |
| NodeBridge.Step | test-app/app/src/main/cpp/node-bridge.cpp:161-285 | every operation keeps the bridge well-formed, never removes a channel and only appends to the listener call log; only a callback registration changes the callback slot, only a reverse send appends a reverse call, and neither touches channels or listener calls |
| NodeBridge.Exec | test-app/app/src/main/cpp/node-bridge.cpp:161-285 | any operation sequence keeps the bridge well-formed, never removes a registry entry and only appends to the listener call log |
| BridgeProperties.RegistryIsMentioned | test-app/app/src/main/cpp/node-bridge.cpp:169-181 | the registered names are exactly those any send or bind has referred to: created on first reference by either side, never removed |
| BridgeProperties.FifoExactlyOnce | test-app/app/src/main/cpp/node-bridge.cpp:99-131 | for every channel, the messages delivered followed by those still queued are exactly the messages sent to it, in send order |
| BridgeProperties.ListenerIsFirstBinder | test-app/app/src/main/cpp/node-bridge.cpp:80-95 | a channel's listener is that of its first bind, and every delivery on the channel goes to that listener |
| BridgeProperties.TicksDeliverPrefix | test-app/app/src/main/cpp/node-bridge.cpp:111-131 | k loop runs on a bound channel deliver exactly its first k queued messages, in order, to its listener |
| BridgeProperties.EventualDelivery | test-app/app/src/main/cpp/node-bridge.cpp:86-90 | once a channel is bound, servicing it until its queue is empty delivers every message ever sent to it, in order, exactly once |
| BridgeProperties.QueuedBeforeBindDelivered | test-app/app/src/main/cpp/node-bridge.cpp:86-90 | messages queued before any listener is bound are all delivered to it, in enqueue order, after the bind |
| BridgeProperties.ScenarioLog | test-app/app/src/main/cpp/node-bridge.cpp:99-131 | "a", "b", "c" queued on "log" before binding listener L are delivered as ("log","a"), ("log","b"), ("log","c") |
| BridgeProperties.SecondBindRejected | test-app/app/src/main/cpp/node-bridge.cpp:80-95 | a second bind on a bound channel fails with "already exists" and leaves the bridge unchanged |
| BridgeProperties.ScenarioSecondBind | test-app/app/src/main/cpp/node-bridge.cpp:80-131 | after a rejected second bind on "x", the first listener still receives the pending message |
| BridgeProperties.CallbackIsLastRegistered | test-app/app/src/main/cpp/node-bridge.cpp:58-62 | the reverse callback in effect is the one registered last, and none when nothing or NULL was registered last |
| BridgeProperties.ReverseUsesLastCallback | test-app/app/src/main/cpp/node-bridge.cpp:219-263 | after any history, a well-formed `sendMessage` succeeds iff the last registered callback is not NULL, then calls exactly that callback once with (name, message), and otherwise raises "no callback" |
| Router.Init | test-app/app/src/main/java/io/gigasource/nodebridge/Listener.java:15-42 | the router starts with no callback and Node not ready (lines 15-16), an empty buffer (line 42) and no output |
| Router.SendToNode | test-app/app/src/main/java/io/gigasource/nodebridge/Listener.java:46-52 | with Node ready the message is sent to its Node channel and nothing is buffered; otherwise a TO_NODE entry is appended and nothing is sent |
| Router.Replay | test-app/app/src/main/java/io/gigasource/nodebridge/Listener.java:63-65 | buffered messages are emitted in insertion order, Node messages with their channel and the others to the NativeScript callback; an empty callback slot throws at the first NativeScript message and stops there |
| Router.TriggerReady | test-app/app/src/main/java/io/gigasource/nodebridge/Listener.java:80-88 | replays the buffer in order without changing readiness or callback: each Node entry is sent to its channel and each NativeScript entry to the current callback; as written the buffer is left unchanged; it throws exactly when it reaches a NativeScript entry with an empty callback slot, and stops there |
| Router.SystemMessage | test-app/app/src/main/java/io/gigasource/nodebridge/Listener.java:91-115 | "Node Ready" sets Node ready and replays iff a callback is set; "Nativescript Ready" replays iff Node is ready; any other message changes nothing |
| Router.SetCall | test-app/app/src/main/java/io/gigasource/nodebridge/Listener.java:58-61 | the callback is stored, and the buffer is replayed iff Node is ready |
| Router.ReceiveFromNode | test-app/app/src/main/java/io/gigasource/nodebridge/Listener.java:68-78 | an ordinary-channel message goes to the callback without its channel when one is set, else is buffered as TO_NATIVESCRIPT; a `_SYSTEM_` message goes only to the system handler |
| RouterProperties.TriggerReadyCovers | test-app/app/src/main/java/io/gigasource/nodebridge/Listener.java:80-88 | a replay loses nothing, counted with multiplicity: each buffered message stays buffered or is delivered, nothing new is buffered, nothing delivered is lost, and with a callback set the whole buffer is delivered |
| RouterProperties.ApplyCovers | test-app/app/src/main/java/io/gigasource/nodebridge/Listener.java:46-115 | every call keeps the submitted messages, as a multiset, within the delivered plus the buffered ones, and within the delivered ones alone once both sides are ready |
| RouterProperties.AtLeastOnceWhenReady | test-app/app/src/main/java/io/gigasource/nodebridge/Listener.java:46-115 | once Node and NativeScript are both ready, every message handed to the router in either direction has been delivered at least as many times as it was handed over (multiset inclusion) |
| RouterProperties.AsWrittenReplaysTwice | test-app/app/src/main/java/io/gigasource/nodebridge/Listener.java:80-88 | as written, a message buffered for Node is sent to Node twice when NativeScript registers its callback twice after "Node Ready" |
| RouterProperties.DrainingExactlyOnce | test-app/app/src/main/java/io/gigasource/nodebridge/Listener.java:80-88 | with a replay that removes what it sent, delivered plus buffered messages are exactly the submitted ones, each once; when both sides are ready every message has been delivered exactly once |
| RouterProperties.NodeReadyBeforeCallbackReorders | test-app/app/src/main/java/io/gigasource/nodebridge/Listener.java:93-98 | "Node Ready" before a callback exists lets a later Node-bound message overtake one buffered earlier |

## Left out

- NAPI marshalling is not modelled: argument reading, UTF-8 copies and the "Couldn't fully copy" assertions. Only their outcome is kept: the argument-count, string, function and coercion errors, or a call into the core. A failure of any other `napi_*` call is not modelled.
- What string coercion yields for a non-string JavaScript value is an input of the model (a field of `JsValue`); JavaScript's `ToString` is not modelled.
- C strings end at the first NUL byte, so a name or message containing one would be truncated by `strlen`/`strncpy`. Strings here are plain character sequences and this is not modelled.
- Threads and mutexes are not modelled. Each critical section is one atomic step. In `queueMessage`, the push and the unsynchronised read of `initialized` form one step.
- The router assumes the NativeScript callback and the native `sendMessageToNodeChannel` return normally. `Listener.java` calls both without a `try`, so an exception from either would end `triggerReady`'s iteration and leave the rest of the buffer unreplayed; only the `NullPointerException` from an empty callback slot is modelled. `AtLeastOnceWhenReady` and `DrainingExactlyOnce` rest on this assumption.
- The router's calls are treated as serialised, one after another. `Listener.java` has no locking, yet its static fields are reached both from Node's thread (through `receiveMessageFromNode`) and from NativeScript (through `sendToNode` and `setCall`). An interleaving can leave a message buffered with both sides ready: `sendToNode` reads `nodeIsReady` as false, "Node Ready" then replays, and only then is the message appended. A concurrent append during the replay's iteration can also raise `ConcurrentModificationException`. `AtLeastOnceWhenReady` and `DrainingExactlyOnce` rest on the serialisation assumption.
- libuv handle allocation, `uv_async_init` and the real `uv_async_send` are not modelled. NAPI handle scopes and the JavaScript call itself are not modelled either. A listener invocation is an entry in the call log. `invokeNodeListener` ignores the status of the JavaScript call and leaves any pending exception in place; the model assumes every listener call returns normally, and exactly-once delivery rests on that assumption.
- `malloc`/`calloc`/`free` of message buffers and the references created for listeners are manual memory management, not behaviour.
- Module initialisation and registration (`Init`, `NAPI_MODULE_X`) are foreign-API glue.
- The "Start Node" branch only updates the Android user interface, so it is a no-op on router state.
- The router's `sendMessageToNodeChannel` is an entry in its output log. The native glue that connects it to the bridge's `SendMessageToNodeChannel` is not part of this model.
- Null channel names or messages given to the router (a `NullPointerException` in `equals` or `switch`) are not modelled. Only the empty NativeScript callback slot is.
- `MainActivity.java`, `NodeRunner.java` and `node-bridge.h` hold Android lifecycle, thread start-up and declarations only.
- The unused router fields are not modelled: `EVENT_CHANNEL`, `hasSendQueuedMsg`, the web view and the logo.

## Findings

| source | as written | input that shows it | evidently intended | confidence | as-written member | corrected member |
|---|---|---|---|---|---|---|
| test-app/app/src/main/java/io/gigasource/nodebridge/Listener.java:80-88 | `triggerReady` replays `waitingMsg` but never clears it, so every later ready event replays the whole buffer again | `sendToNode("c","m")` before Node is ready, then "Node Ready" on `_SYSTEM_`, then `setCall` twice: Node receives ("c","m") twice | a buffered message is replayed once and then leaves the buffer (the declared but unused `hasSendQueuedMsg` flag points the same way) | medium, not executed | RouterProperties.AsWrittenReplaysTwice | RouterProperties.DrainingExactlyOnce |

The router functions take a `ReplayPolicy`:

- `AsWritten` is the source's behaviour.
- `Draining` is the correction. It removes each buffered message once it has been replayed.

A replay interrupted by the empty-callback exception keeps the messages it did not reach. `AtLeastOnceWhenReady` holds under both policies. Exactly-once delivery holds only under `Draining`.
