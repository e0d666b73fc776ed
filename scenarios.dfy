/**
 * Client code of the engine: short runs of operations whose outcome follows
 * from the engine's contracts alone.
 */
module Scenarios {
  import opened SetMaps
  import opened Memory

  /**
   * A message published while its only subscriber has no connection waits in
   * the subscriber's queue; once a connection exists, emptying the queue
   * hands the message over exactly once and leaves no queue behind.
   */
  method QueuedUntilConnected() {
    var engine := new MemoryEngine(Some(10), (ch: Channel) => [ch]);
    var c1 := engine.CreateClient("c1");
    assert engine.timers["c1"] == 20;
    var accepted := engine.Subscribe(c1, "/foo");
    var m := Message("/foo", "x");
    assert Holds(engine.channels, ["/foo"][0], c1);
    engine.Publish(m, {});
    assert engine.messages[c1] == {m};
    ghost var handedBefore := engine.log;
    engine.EmptyQueue(c1, {c1});
    assert c1 !in engine.messages;
    assert multiset(Tag(c1, {m})) == multiset{Delivery(c1, m)};
    assert multiset(engine.log[|handedBefore|..]) == multiset{Delivery(c1, m)};
  }

  /**
   * A connected client subscribed to two of the patterns a channel expands
   * to is handed the same message twice.
   */
  method HandedOncePerMatchingPattern() {
    var engine := new MemoryEngine(None, (ch: Channel) => [ch, "/**"]);
    var c1 := "c1";
    var accepted := engine.Subscribe(c1, "/foo");
    accepted := engine.Subscribe(c1, "/**");
    var m := Message("/foo", "x");
    var patterns := ["/foo", "/**"];
    assert patterns[..1] == ["/foo"];
    assert Matches(engine.channels, patterns, c1) == 2;
    engine.Publish(m, {c1});
    assert multiset(engine.log[0..])[Delivery(c1, m)] == 2;
  }

  /** Destroying a client discards what it had queued and unregisters it. */
  method DestroyDiscardsQueue() {
    var engine := new MemoryEngine(Some(10), (ch: Channel) => [ch]);
    var c1 := engine.CreateClient("c1");
    var accepted := engine.Subscribe(c1, "/foo");
    assert Holds(engine.channels, ["/foo"][0], c1);
    engine.Publish(Message("/foo", "x"), {});
    assert c1 in engine.messages;
    engine.DestroyClient(c1);
    var found := engine.ClientExists(c1);
    assert !found && c1 !in engine.messages && c1 !in engine.timers;
    ghost var handedBefore := engine.log;
    engine.EmptyQueue(c1, {c1});
    assert engine.log == handedBefore;
  }

  /** Subscribing an id the generator never produced makes it exist. */
  method SubscribeRegistersUnknownId() {
    var engine := new MemoryEngine(None, (ch: Channel) => [ch]);
    var accepted := engine.Subscribe("ghost", "/foo");
    var found := engine.ClientExists("ghost");
    assert found;
  }
}
