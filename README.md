# Memory engine of a Bayeux publish/subscribe server, in Dafny

This project models the in-memory engine of the Faye publish/subscribe server. The engine exists twice with the same behaviour: the Ruby class `Faye::Engine::Memory` (`lib/faye/engines/memory.rb`) and the JavaScript `Faye.Engine.Memory` (`javascript/engines/memory.js`). One Dafny class, `Memory.MemoryEngine`, models both.

The engine keeps three maps and changes them in place:

- `clients`: client id → set of channel names it subscribes to;
- `channels`: channel name → set of subscriber ids;
- `messages`: client id → set of messages waiting for a connection.

It also keeps one liveness timer per client. The class holds these as fields of type `map<_, set<_>>`, plus `timers: map<ClientId, int>` (client → delay of its pending timer). Every method states its whole new state in terms of the old one. The object invariant `Valid()` holds two facts: both indices describe the same relation (`ch ∈ clients[c] ⇔ c ∈ channels[ch]`), and every queue belongs to a registered client. The constructor establishes it. `CreateClient`, `DestroyClient`, `Ping`, `Fire`, `Subscribe`, `Unsubscribe`, `Publish` and `EmptyQueue` each preserve it (`old(Valid()) ==> Valid()`). `FanOut` and `Enqueue` are the inner steps of `Publish` and preserve it only when their clients are registered: an enqueue for an unregistered id creates a queue that no client owns. No method requires the invariant, because the source does not.

The two map edits the engine repeats are modelled once, in module `SetMaps` (`set_maps.dfy`):
- `Insert` is the `m[k] ||= Set.new; m[k].add(v)` idiom.
- `Remove` is the `m[k].delete(v) if m.has_key?(k)` idiom.
- `RemoveFrom` is the cumulative effect of the destroy loop.

Their contracts state how the relation `Holds(m, k, v)` changes and which keys exist afterwards.

Collaborators outside the engine are modelled as follows:
- Wildcard expansion of a channel is the function `expand`, given to the constructor. No matching rule is assumed.
- The id generator's result is an argument of `CreateClient`.
- The set of clients that currently have a connection is an argument of `Publish` and `EmptyQueue`.
- Each call of a connection's `deliver` appends one `Delivery(client, message)` to the ghost `log`. It also appends to the ghost `attached` whether the receiving client's queue was still an entry of `messages` at that moment. `Detached` states that every hand-off of a call found that queue already removed.
- A timer expiring is the method `Fire`.

`scenarios.dfy` holds client code. Each method there derives, from the contracts alone, one of these outcomes:
- a message stays queued until a connection appears, then is handed over once;
- destroying a client discards its queue;
- subscribing an unknown id makes it exist;
- the double hand-off described below.

Four behaviours of the code are worth stating outright:

- Subscribe then unsubscribe does not restore the maps. A key that was new keeps an empty set, so only the relation is restored (`SetMaps.RemoveUndoesInsert`).
- `subscribe` creates a `clients` entry for any id, including one `createClient` never produced, and `clientExists` then reports true for it (`Scenarios.SubscribeRegistersUnknownId`).
- `createClient` does not check the generated id against existing ones and would overwrite `clients[id]`. The model requires the generated id to be fresh (`Fresh`), which is the generator's guarantee.
- A client without a connection gets a published message queued once, since its queue is a set. A connected client subscribed to k of the expanded patterns is handed the message k times, because each `empty_queue` detaches the queue and the next pattern starts a new one. `Publish` states the exact count (`Matches`), and `Scenarios.HandedOncePerMatchingPattern` shows k = 2.

## Model

| member | source | states |
|---|---|---|
| Memory.MemoryEngine.constructor | lib/faye/engines/memory.rb:5-11 | the engine starts with no clients, subscriptions, queues or timers (likewise javascript/engines/memory.js:4-11), and the index invariant holds |
| Memory.MemoryEngine.CreateClient | lib/faye/engines/memory.rb:13-19 | for a fresh id: the id is registered with an empty channel set, and the timer is re-armed exactly as `Ping` does. The id is returned. Nothing else changes, and the index invariant is preserved (likewise javascript/engines/memory.js:13-19) |
| Memory.MemoryEngine.DestroyClient | lib/faye/engines/memory.rb:21-31 | an unknown id changes nothing. For a known id: its entry, queue and timer are removed, and it is removed from every channel set it subscribed to (a snapshot of its set). The index invariant is preserved, and under it the id is left in no channel set and has no queue (likewise javascript/engines/memory.js:21-32) |
| Memory.MemoryEngine.ClientExists | lib/faye/engines/memory.rb:33-35 | reports exactly whether the id has an entry in `clients`, and changes nothing (likewise javascript/engines/memory.js:34-36) |
| Memory.MemoryEngine.Ping | lib/faye/engines/memory.rb:37-43 | without a numeric timeout, nothing changes. Otherwise the client ends with exactly one pending timer, of delay twice the timeout, whatever it had before. The index invariant is preserved (likewise javascript/engines/memory.js:38-46) |
| Memory.MemoryEngine.Fire | lib/faye/engines/memory.rb:42 | the expiry of a pending timer consumes it and destroys the client, with DestroyClient's outcome (the callback of javascript/engines/memory.js:43-45) |
| Memory.MemoryEngine.Subscribe | lib/faye/engines/memory.rb:45-52 | adds the pair to both indices, creating either set when absent, even for an unregistered id. No other pair changes, the result is always true, and the index invariant is preserved (likewise javascript/engines/memory.js:48-56) |
| Memory.MemoryEngine.Unsubscribe | javascript/engines/memory.js:58-64 | removes the pair from whichever of the two sets exists and never fails. A missing side is left exactly as it was, no other pair changes, the result is always true, and the index invariant is preserved (likewise lib/faye/engines/memory.rb:54-59) |
| Memory.MemoryEngine.Publish | lib/faye/engines/memory.rb:61-73 | patterns without a subscriber set are skipped. Every connected recipient ends with no queue, every other recipient's queue gains the message, and non-recipients' queues are unchanged. Each hand-off goes to a connected client. The message is handed to a connected client once per matching pattern, and each message it had pending exactly once. Every hand-off happens after the receiving queue was removed. The index invariant is preserved (likewise javascript/engines/memory.js:66-82) |
| Memory.MemoryEngine.FanOut | javascript/engines/memory.js:75-80 | for one pattern's subscriber set, each subscriber's queue gains the message and is offered to its connection. A connected subscriber's whole queue, message included, is handed over once, after its queue was removed. Other clients are untouched. The index invariant is preserved when every subscriber is registered (likewise lib/faye/engines/memory.rb:66-71) |
| Memory.MemoryEngine.Enqueue | javascript/engines/memory.js:77-79 | the queue is created if absent and gains the message. A connected client then has its queue removed and its whole queue handed over once, each hand-off after the removal. A disconnected client keeps it. The index invariant is preserved for a registered client (likewise lib/faye/engines/memory.rb:68-70) |
| Memory.MemoryEngine.EmptyQueue | lib/faye/engines/memory.rb:77-82 | without a connection or without a queue, nothing changes. Otherwise the queue is removed from `messages` before the first delivery: every hand-off of the call records, in `attached`, that the queue was already gone (`Detached`). Each of its messages is handed over exactly once, and the index invariant is preserved (likewise javascript/engines/memory.js:84-91) |
| Memory.Tag | lib/faye/engines/memory.rb:81 | the hand-offs of a queue are exactly one delivery of each queued message to that client |
| Memory.Matches | javascript/engines/memory.js:72-75 | counts the expanded patterns whose subscriber set holds the client. The count is positive exactly when some pattern does |
| Memory.Recipients | lib/faye/engines/memory.rb:63-66 | a client is reached by a publish exactly when it is in the subscriber set of one of the expanded patterns |
| Memory.RecipientsAreClients | lib/faye/engines/memory.rb:65-66 | under the two-way index invariant, every client a publish reaches is registered, so publishing creates no queue for an unknown client |
| Memory.DepositStep | lib/faye/engines/memory.rb:68-70 | one enqueue-and-offer step turns "deposited for done" into "deposited for done plus this client", and the client's queue before the step is its queue before the fan-out |
| Memory.HandOffCompose | lib/faye/engines/memory.rb:64-72 | the hand-offs of the fan-out for pattern i, added to those of the patterns before it, are those of the first i+1 patterns |
| Memory.PublishStep | lib/faye/engines/memory.rb:64-72 | the fan-out for pattern i, run after the fan-outs of the earlier patterns, turns the outcome of the first i patterns (queues and hand-offs) into that of the first i+1 |
| Memory.PublishOutcome | javascript/engines/memory.js:72-80 | the outcome of a whole publish: the queues as `Deposited` gives them for all recipients, and the hand-off count client by client. That is once per matching pattern for the published message, exactly once for each earlier pending message, and nothing without a connection |
| SetMaps.Insert | javascript/engines/memory.js:50-53 | after the lazy create-and-add, the relation is the old one plus the pair, and the key set is the old one plus the key |
| SetMaps.Remove | lib/faye/engines/memory.rb:55-56 | after the guarded delete, the relation is the old one minus the pair. No key appears or disappears, and a missing key leaves the map unchanged |
| SetMaps.RemoveFrom | javascript/engines/memory.js:24-26 | removing a client from the sets of a whole group of channels removes exactly those pairs and keeps every key |
| SetMaps.RemoveFromStep | lib/faye/engines/memory.rb:23-25 | one more unsubscribe in the destroy loop extends the cumulative removal by that channel |
| SetMaps.InsertIdempotent | lib/faye/engines/memory.rb:46-49 | subscribing the same pair twice leaves the same maps as subscribing it once |
| SetMaps.RemoveIdempotent | javascript/engines/memory.js:60-61 | a second unsubscribe of the same pair changes nothing |
| SetMaps.RemoveUndoesInsert | lib/faye/engines/memory.rb:46-56 | unsubscribing a freshly subscribed pair restores the old map exactly, except that a key which had no entry keeps an empty set. So the maps differ from the original whenever that key was new |

## Left out

- Wildcard expansion (`Channel.expand`, `Faye.Channel.expand`) is not part of this model. It is the uninterpreted parameter `expand`, and no matching rule is assumed.
- The timer mechanism (`add_timeout`/`remove_timeout` of the engine base class) and the clock are not part of this model. Timers are a map from client to delay, and expiry is the explicit event `Fire`. So "a renewal before expiry prevents destruction" is not stated.
- Ping: the timer's action is not stored with the timer. `Fire` is what the action does.
- Connection lookup (`connection(client_id, false)`) and `deliver` are transport code. The connected clients are an input set, and deliveries go to a ghost log. The order of deliveries within a queue is set-iteration order and is not specified.
- `Namespace.generate` is external. Its result is an argument, and its uniqueness is the requirement `Fresh`.
- Debug logging, the callback and scope plumbing, and `register` are left out. Return values replace callbacks.
- Concurrency is left out: the engine runs on a single-threaded event loop.
- Timeouts are integers (`Option<int>`, None for a non-numeric option). Floating-point timeouts are not modelled.
- A message is `Message(channel, data)`, standing for the message hash. Equality is structural, as the set semantics of the queues needs.
- JavaScript's `hasOwnProperty` on plain objects is modelled as map membership. Keys that collide with inherited object properties are not modelled.
