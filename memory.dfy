/**
 * The in-memory engine of a Bayeux publish/subscribe server: the registry of
 * live clients, the two-way client <-> channel subscription index, the
 * per-client queues of pending messages, the per-client liveness timers, and
 * the publish -> fan-out -> hand-off pipeline.
 *
 * One class models both implementations of the engine (the Ruby class
 * `Faye::Engine::Memory` and the JavaScript `Faye.Engine.Memory`); they
 * behave alike. Collaborators that live outside the engine are parameters:
 * wildcard expansion of a channel name is the `expand` function given at
 * construction, the id generator's output is an argument of CreateClient, the
 * set of clients that currently hold a connection is an argument of Publish
 * and EmptyQueue, and every call of a connection's `deliver` is recorded as
 * one entry of the ghost `log`.
 */
module Memory {
  import opened SetMaps

  type ClientId = string
  type Channel = string

  datatype Option<T> = None | Some(value: T)

  /** A published message: its routing channel and the rest of its content. */
  datatype Message = Message(channel: Channel, data: string)

  /** One call of `deliver(message)` on the connection of `client`. */
  datatype Delivery = Delivery(client: ClientId, message: Message)

  /** The deliveries that hand every message of `queue` to `client`. */
  function Tag(client: ClientId, queue: set<Message>): (r: set<Delivery>)
    ensures forall d :: d in r <==> d.client == client && d.message in queue
  {
    set m | m in queue :: Delivery(client, m)
  }

  /**
   * How many of the expanded `patterns` have `client` among their subscribers
   * in the channel -> clients `index`, counting a repeated pattern each time.
   */
  function Matches(index: map<Channel, set<ClientId>>, patterns: seq<Channel>, client: ClientId): (n: nat)
    ensures n <= |patterns|
    ensures n > 0 <==> exists i :: 0 <= i < |patterns| && Holds(index, patterns[i], client)
  {
    if patterns == [] then 0
    else
      var last := |patterns| - 1;
      assert forall i :: 0 <= i < last ==> patterns[..last][i] == patterns[i];
      Matches(index, patterns[..last], client) + (if Holds(index, patterns[last], client) then 1 else 0)
  }

  /** Every client subscribed to at least one of the expanded `patterns`. */
  function Recipients(index: map<Channel, set<ClientId>>, patterns: seq<Channel>): (r: set<ClientId>)
    ensures forall c :: c in r <==> exists i :: 0 <= i < |patterns| && Holds(index, patterns[i], c)
  {
    if patterns == [] then {}
    else
      var last := |patterns| - 1;
      assert forall i :: 0 <= i < last ==> patterns[..last][i] == patterns[i];
      Recipients(index, patterns[..last]) + Lookup(index, patterns[last])
  }

  /**
   * The number of times Publish hands `d` to a connection: the published
   * message once per expanded pattern the client is subscribed to, each
   * message the client already had pending exactly once, and nothing at all
   * to a client without a connection or outside the recipients.
   */
  function HandOffs(
    before: map<ClientId, set<Message>>, index: map<Channel, set<ClientId>>,
    patterns: seq<Channel>, message: Message, connected: set<ClientId>, d: Delivery): nat
  {
    if d.client !in connected then 0
    else if d.message == message then Matches(index, patterns, d.client)
    else if d.client in Recipients(index, patterns) && Holds(before, d.client, d.message) then 1
    else 0
  }

  /**
   * The number of times one fan-out to `subscribers` hands `d` to a
   * connection: every connected subscriber receives its whole queue, the new
   * message included, once.
   */
  function FanOutHandOffs(
    before: map<ClientId, set<Message>>, subscribers: set<ClientId>,
    message: Message, connected: set<ClientId>, d: Delivery): nat
  {
    if d.client in subscribers && d.client in connected && (d.message == message || Holds(before, d.client, d.message))
    then 1 else 0
  }

  /**
   * The queues after `message` has been added to the queue of every client in
   * `done` and each of those queues has been offered to its connection: a
   * connected client's queue is gone, a disconnected one's holds the message,
   * and every other client's queue is as it was.
   */
  ghost predicate Deposited(
    before: map<ClientId, set<Message>>, after: map<ClientId, set<Message>>,
    done: set<ClientId>, message: Message, connected: set<ClientId>)
  {
    && (forall c :: c in done && c in connected ==> c !in after)
    && (forall c :: c in done && c !in connected ==> c in after && after[c] == Lookup(before, c) + {message})
    && (forall c :: c !in done ==> (c in after <==> c in before) && Lookup(after, c) == Lookup(before, c))
  }

  /**
   * Between the snapshots (`logBefore`, `attachedBefore`) and (`logAfter`,
   * `attachedAfter`) both logs only grew, by the same number of entries, and
   * every hand-off in between found the receiving client's queue already
   * detached from the engine.
   */
  ghost predicate Detached(logBefore: seq<Delivery>, logAfter: seq<Delivery>, attachedBefore: seq<bool>, attachedAfter: seq<bool>) {
    && logBefore <= logAfter
    && attachedBefore <= attachedAfter
    && |attachedAfter| - |attachedBefore| == |logAfter| - |logBefore|
    && forall j :: |attachedBefore| <= j < |attachedAfter| ==> !attachedAfter[j]
  }

  lemma SuffixSplit<T>(a: seq<T>, b: seq<T>, c: seq<T>)
    requires a <= b <= c
    ensures multiset(c[|a|..]) == multiset(b[|a|..]) + multiset(c[|b|..])
  {
    assert c[|a|..] == b[|a|..] + c[|b|..];
  }

  /** One subscriber step of a fan-out, seen from the queues. */
  lemma DepositStep(
    before: map<ClientId, set<Message>>, mid: map<ClientId, set<Message>>, after: map<ClientId, set<Message>>,
    done: set<ClientId>, client: ClientId, message: Message, connected: set<ClientId>)
    requires client !in done
    requires Deposited(before, mid, done, message, connected)
    requires client in connected ==> after == mid - {client}
    requires client !in connected ==> after == Insert(mid, client, message)
    ensures Deposited(before, after, done + {client}, message, connected)
    ensures Lookup(mid, client) == Lookup(before, client)
  {
  }

  /** One subscriber step of a fan-out, seen from the hand-offs. */
  lemma FanOutStep(
    before: map<ClientId, set<Message>>, done: set<ClientId>, client: ClientId, message: Message,
    connected: set<ClientId>, sofar: multiset<Delivery>, added: multiset<Delivery>, queue: set<Message>)
    requires client !in done
    requires forall d :: sofar[d] == FanOutHandOffs(before, done, message, connected, d)
    requires client in connected ==> added == multiset(Tag(client, queue)) && queue == Lookup(before, client) + {message}
    requires client !in connected ==> added == multiset{}
    ensures forall d :: (sofar + added)[d] == FanOutHandOffs(before, done + {client}, message, connected, d)
  {
  }

  /** Two fan-outs in a row deposit into the union of their subscribers. */
  lemma DepositCompose(
    before: map<ClientId, set<Message>>, mid: map<ClientId, set<Message>>, after: map<ClientId, set<Message>>,
    first: set<ClientId>, second: set<ClientId>, message: Message, connected: set<ClientId>)
    requires Deposited(before, mid, first, message, connected)
    requires Deposited(mid, after, second, message, connected)
    ensures Deposited(before, after, first + second, message, connected)
  {
  }

  /** Extending the expanded patterns by one pattern. */
  lemma PrefixStep(index: map<Channel, set<ClientId>>, patterns: seq<Channel>, i: nat)
    requires i < |patterns|
    ensures Recipients(index, patterns[..i + 1]) == Recipients(index, patterns[..i]) + Lookup(index, patterns[i])
    ensures forall c ::
      Matches(index, patterns[..i + 1], c) == Matches(index, patterns[..i], c) + (if Holds(index, patterns[i], c) then 1 else 0)
  {
    assert patterns[..i + 1][..i] == patterns[..i];
  }

  /** The fan-out for pattern `i` extends the hand-offs of the patterns before it. */
  lemma HandOffCompose(
    before: map<ClientId, set<Message>>, mid: map<ClientId, set<Message>>, index: map<Channel, set<ClientId>>,
    patterns: seq<Channel>, i: nat, message: Message, connected: set<ClientId>,
    sofar: multiset<Delivery>, added: multiset<Delivery>)
    requires i < |patterns|
    requires Deposited(before, mid, Recipients(index, patterns[..i]), message, connected)
    requires forall d :: sofar[d] == HandOffs(before, index, patterns[..i], message, connected, d)
    requires forall d :: added[d] == FanOutHandOffs(mid, Lookup(index, patterns[i]), message, connected, d)
    ensures forall d :: (sofar + added)[d] == HandOffs(before, index, patterns[..i + 1], message, connected, d)
  {
    PrefixStep(index, patterns, i);
    var subscribers := Lookup(index, patterns[i]);
    forall d
      ensures (sofar + added)[d] == HandOffs(before, index, patterns[..i + 1], message, connected, d)
    {
      var c := d.client;
      if c !in connected {
      } else if d.message == message {
        assert added[d] == (if c in subscribers then 1 else 0);
      } else if c in Recipients(index, patterns[..i]) {
        assert c !in mid;
      } else {
        assert Lookup(mid, c) == Lookup(before, c);
      }
    }
  }

  /**
   * The outcome of the fan-outs of the first `i` expanded patterns of a
   * publish: the queues went from `before` to `after` as `Deposited` says for
   * the recipients so far, and the hand-offs appended to the log since
   * `logBefore` are counted by `HandOffs`.
   */
  ghost predicate PublishedUpTo(
    before: map<ClientId, set<Message>>, after: map<ClientId, set<Message>>,
    index: map<Channel, set<ClientId>>, patterns: seq<Channel>, i: nat, message: Message, connected: set<ClientId>,
    logBefore: seq<Delivery>, logAfter: seq<Delivery>)
    requires i <= |patterns|
  {
    && Deposited(before, after, Recipients(index, patterns[..i]), message, connected)
    && logBefore <= logAfter
    && forall d :: multiset(logAfter[|logBefore|..])[d] == HandOffs(before, index, patterns[..i], message, connected, d)
  }

  /**
   * One pattern of a publish: the fan-out to that pattern's subscribers,
   * following the fan-outs of the patterns before it, extends the outcome of
   * the first `i` patterns to the first `i + 1`, for the queues and for the
   * hand-offs alike.
   */
  lemma PublishStep(
    before: map<ClientId, set<Message>>, mid: map<ClientId, set<Message>>, after: map<ClientId, set<Message>>,
    index: map<Channel, set<ClientId>>, patterns: seq<Channel>, i: nat, message: Message, connected: set<ClientId>,
    logBefore: seq<Delivery>, logMid: seq<Delivery>, logAfter: seq<Delivery>)
    requires i < |patterns|
    requires PublishedUpTo(before, mid, index, patterns, i, message, connected, logBefore, logMid)
    requires Deposited(mid, after, Lookup(index, patterns[i]), message, connected)
    requires logMid <= logAfter
    requires forall d :: multiset(logAfter[|logMid|..])[d] == FanOutHandOffs(mid, Lookup(index, patterns[i]), message, connected, d)
    ensures PublishedUpTo(before, after, index, patterns, i + 1, message, connected, logBefore, logAfter)
  {
    HandOffCompose(before, mid, index, patterns, i, message, connected,
      multiset(logMid[|logBefore|..]), multiset(logAfter[|logMid|..]));
    DepositCompose(before, mid, after, Recipients(index, patterns[..i]), Lookup(index, patterns[i]), message, connected);
    SuffixSplit(logBefore, logMid, logAfter);
    PrefixStep(index, patterns, i);
  }

  /** Before the first pattern, nothing has been handed off. */
  lemma NoHandOffsYet(
    before: map<ClientId, set<Message>>, index: map<Channel, set<ClientId>>,
    patterns: seq<Channel>, message: Message, connected: set<ClientId>, log: seq<Delivery>)
    ensures PublishedUpTo(before, before, index, patterns, 0, message, connected, log, log)
  {
  }

  /**
   * The outcome of a whole publish: the queues, and the hand-off counts
   * client by client.
   */
  lemma PublishOutcome(
    before: map<ClientId, set<Message>>, after: map<ClientId, set<Message>>,
    index: map<Channel, set<ClientId>>, patterns: seq<Channel>, message: Message, connected: set<ClientId>,
    logBefore: seq<Delivery>, logAfter: seq<Delivery>)
    requires PublishedUpTo(before, after, index, patterns, |patterns|, message, connected, logBefore, logAfter)
    ensures Deposited(before, after, Recipients(index, patterns), message, connected)
    ensures logBefore <= logAfter
    ensures forall c :: c in connected ==> multiset(logAfter[|logBefore|..])[Delivery(c, message)] == Matches(index, patterns, c)
    ensures forall c, x :: x != message ==>
      multiset(logAfter[|logBefore|..])[Delivery(c, x)] ==
        if c in connected && c in Recipients(index, patterns) && Holds(before, c, x) then 1 else 0
    ensures forall d :: d in multiset(logAfter[|logBefore|..]) ==> d.client in connected
  {
    assert patterns[..|patterns|] == patterns;
  }

  /** Under the two-way index invariant, everyone a publish reaches is a registered client. */
  lemma RecipientsAreClients(
    clients: map<ClientId, set<Channel>>, index: map<Channel, set<ClientId>>, patterns: seq<Channel>)
    requires Dual(clients, index)
    ensures Recipients(index, patterns) <= clients.Keys
  {
  }

  /** The client -> channels and channel -> clients indices describe the same relation. */
  ghost predicate Dual(clients: map<ClientId, set<Channel>>, channels: map<Channel, set<ClientId>>) {
    forall c, ch :: Holds(clients, c, ch) <==> Holds(channels, ch, c)
  }

  class MemoryEngine {
    /** The configured liveness timeout; None when the option is not numeric. */
    const timeout: Option<int>
    /** Wildcard expansion of a published channel into the patterns it matches. */
    const expand: Channel -> seq<Channel>

    /** client id -> channels it is subscribed to */
    var clients: map<ClientId, set<Channel>>
    /** channel -> ids of its subscribers */
    var channels: map<Channel, set<ClientId>>
    /** client id -> messages waiting for a connection */
    var messages: map<ClientId, set<Message>>
    /** client id -> delay of its pending liveness timer */
    var timers: map<ClientId, int>
    /** every message handed to a connection so far, in hand-off order */
    ghost var log: seq<Delivery>
    /**
     * one entry per hand-off, appended alongside `log`: whether the receiving
     * client's queue was still an entry of `messages` when `deliver` was called
     */
    ghost var attached: seq<bool>

    /**
     * The two indices describe the same subscription relation, and no queue
     * belongs to a client the registry does not know.
     */
    ghost predicate Valid()
      reads this
    {
      && Dual(clients, channels)
      && messages.Keys <= clients.Keys
    }

    /** What the id generator guarantees: the id appears nowhere in the engine. */
    ghost predicate Fresh(clientId: ClientId)
      reads this
    {
      && clientId !in clients
      && clientId !in messages
      && clientId !in timers
      && (forall ch :: !Holds(channels, ch, clientId))
    }

    constructor (timeout: Option<int>, expand: Channel -> seq<Channel>)
      ensures this.timeout == timeout && this.expand == expand
      ensures clients == map[] && channels == map[] && messages == map[] && timers == map[]
      ensures log == [] && attached == []
      ensures Valid()
    {
      this.timeout := timeout;
      this.expand := expand;
      clients, channels, messages, timers := map[], map[], map[], map[];
      log, attached := [], [];
    }

    /** Register the generated id with no subscriptions and arm its timer. */
    method CreateClient(generated: ClientId) returns (clientId: ClientId)
      requires Fresh(generated)
      modifies this`clients, this`timers
      ensures clientId == generated
      ensures clients == old(clients)[clientId := {}]
      ensures timeout.None? ==> timers == old(timers)
      ensures timeout.Some? ==> timers == old(timers)[clientId := 2 * timeout.value]
      ensures old(Valid()) ==> Valid()
    {
      clientId := generated;
      clients := clients[clientId := {}];
      Ping(clientId);
    }

    /**
     * Forget a known client: unsubscribe it from every channel it holds,
     * cancel its timer, drop its registry entry and its queue. An unknown id
     * is left alone.
     */
    method DestroyClient(clientId: ClientId)
      modifies this`clients, this`channels, this`messages, this`timers
      ensures clientId !in old(clients) ==>
        clients == old(clients) && channels == old(channels) &&
        messages == old(messages) && timers == old(timers)
      ensures clientId in old(clients) ==>
        && clients == old(clients) - {clientId}
        && channels == RemoveFrom(old(channels), old(clients)[clientId], clientId)
        && messages == old(messages) - {clientId}
        && timers == old(timers) - {clientId}
      ensures clientId !in clients
      ensures old(Valid()) ==> Valid() && clientId !in messages && forall ch :: !Holds(channels, ch, clientId)
    {
      if clientId !in clients {
        return;
      }
      // The loop runs over a snapshot of the subscription set, which each
      // Unsubscribe call shrinks underneath it.
      var subscribed := clients[clientId];
      var rest := subscribed;
      RemoveFromNothing(channels, clientId);
      while rest != {}
        invariant rest <= subscribed
        invariant clients == old(clients)[clientId := rest]
        invariant channels == RemoveFrom(old(channels), subscribed - rest, clientId)
        invariant messages == old(messages) && timers == old(timers)
        decreases rest
      {
        var channel :| channel in rest;
        var accepted := Unsubscribe(clientId, channel);
        RemoveFromStep(old(channels), subscribed - rest, channel, clientId);
        assert (subscribed - rest) + {channel} == subscribed - (rest - {channel});
        rest := rest - {channel};
      }
      timers := timers - {clientId};
      clients := clients - {clientId};
      messages := messages - {clientId};
    }

    /** Whether the id is registered. */
    method ClientExists(clientId: ClientId) returns (found: bool)
      ensures found <==> clientId in clients
    {
      found := clientId in clients;
    }

    /**
     * Re-arm the liveness timer: with a numeric timeout, cancel any pending
     * timer of the client and start one of twice the timeout; otherwise do
     * nothing.
     */
    method Ping(clientId: ClientId)
      modifies this`timers
      ensures timeout.None? ==> timers == old(timers)
      ensures timeout.Some? ==> timers == old(timers)[clientId := 2 * timeout.value]
      ensures old(Valid()) ==> Valid()
    {
      if timeout.None? {
        return;
      }
      timers := timers - {clientId};
      timers := timers[clientId := 2 * timeout.value];
    }

    /** The pending timer of the client expires: it is consumed and the client destroyed. */
    method Fire(clientId: ClientId)
      requires clientId in timers
      modifies this`clients, this`channels, this`messages, this`timers
      ensures clientId !in clients && clientId !in timers
      ensures clients == old(clients) - {clientId}
      ensures timers == old(timers) - {clientId}
      ensures clientId in old(clients) ==>
        && channels == RemoveFrom(old(channels), old(clients)[clientId], clientId)
        && messages == old(messages) - {clientId}
      ensures clientId !in old(clients) ==> channels == old(channels) && messages == old(messages)
      ensures old(Valid()) ==> Valid() && clientId !in messages && forall ch :: !Holds(channels, ch, clientId)
    {
      timers := timers - {clientId};
      DestroyClient(clientId);
    }

    /** Add the pair to both indices, creating either set if absent. */
    method Subscribe(clientId: ClientId, channel: Channel) returns (accepted: bool)
      modifies this`clients, this`channels
      ensures accepted
      ensures clients == Insert(old(clients), clientId, channel)
      ensures channels == Insert(old(channels), channel, clientId)
      ensures old(Valid()) ==> Valid()
    {
      clients := Insert(clients, clientId, channel);
      channels := Insert(channels, channel, clientId);
      accepted := true;
    }

    /** Remove the pair from whichever of the two sets exist. */
    method Unsubscribe(clientId: ClientId, channel: Channel) returns (accepted: bool)
      modifies this`clients, this`channels
      ensures accepted
      ensures clients == Remove(old(clients), clientId, channel)
      ensures channels == Remove(old(channels), channel, clientId)
      ensures old(Valid()) ==> Valid()
    {
      clients := Remove(clients, clientId, channel);
      channels := Remove(channels, channel, clientId);
      accepted := true;
    }

    /**
     * Queue the message for every subscriber of every pattern the message's
     * channel expands to, offering each queue to its connection right after
     * the message joins it. A client reached through several patterns while it
     * has a connection is handed the message once per pattern, since each
     * hand-off detaches the queue and the next pattern starts a new one.
     */
    method Publish(message: Message, connected: set<ClientId>)
      modifies this`messages, this`log, this`attached
      ensures Deposited(old(messages), messages, Recipients(channels, expand(message.channel)), message, connected)
      ensures old(log) <= log
      ensures forall c :: c in connected ==>
        multiset(log[|old(log)|..])[Delivery(c, message)] == Matches(channels, expand(message.channel), c)
      ensures forall c, x :: x != message ==>
        multiset(log[|old(log)|..])[Delivery(c, x)] ==
          if c in connected && c in Recipients(channels, expand(message.channel)) && Holds(old(messages), c, x) then 1 else 0
      ensures forall d :: d in multiset(log[|old(log)|..]) ==> d.client in connected
      ensures Detached(old(log), log, old(attached), attached)
      ensures old(Valid()) ==> Valid()
    {
      var patterns := expand(message.channel);
      ghost var before := messages;
      ghost var logBefore := log;
      NoHandOffsYet(before, channels, patterns, message, connected, log);
      var i := 0;
      while i < |patterns|
        invariant 0 <= i <= |patterns|
        invariant PublishedUpTo(before, messages, channels, patterns, i, message, connected, logBefore, log)
        invariant Detached(old(log), log, old(attached), attached)
      {
        var pattern := patterns[i];
        ghost var queuesMid := messages;
        ghost var logMid := log;
        if pattern in channels {
          FanOut(channels[pattern], message, connected);
        } else {
          assert log[|logMid|..] == [];
        }
        PublishStep(before, queuesMid, messages, channels, patterns, i, message, connected, logBefore, logMid, log);
        i := i + 1;
      }
      PublishOutcome(before, messages, channels, patterns, message, connected, logBefore, log);
      if old(Valid()) {
        RecipientsAreClients(clients, channels, patterns);
      }
    }

    /**
     * Queue the message for each of one pattern's subscribers in turn,
     * offering each queue to its connection right after the message joins it.
     */
    method FanOut(subscribers: set<ClientId>, message: Message, connected: set<ClientId>)
      modifies this`messages, this`log, this`attached
      ensures Deposited(old(messages), messages, subscribers, message, connected)
      ensures old(log) <= log
      ensures forall d :: multiset(log[|old(log)|..])[d] == FanOutHandOffs(old(messages), subscribers, message, connected, d)
      ensures Detached(old(log), log, old(attached), attached)
      ensures old(Valid()) && subscribers <= clients.Keys ==> Valid()
    {
      var rest := subscribers;
      while rest != {}
        invariant rest <= subscribers
        invariant Deposited(old(messages), messages, subscribers - rest, message, connected)
        invariant old(log) <= log
        invariant forall d :: multiset(log[|old(log)|..])[d] == FanOutHandOffs(old(messages), subscribers - rest, message, connected, d)
        invariant Detached(old(log), log, old(attached), attached)
        invariant old(Valid()) && subscribers <= clients.Keys ==> Valid()
        decreases rest
      {
        var clientId :| clientId in rest;
        ghost var queuesMid := messages;
        ghost var logMid := log;
        Enqueue(clientId, message, connected);
        DepositStep(old(messages), queuesMid, messages, subscribers - rest, clientId, message, connected);
        SuffixSplit(old(log), logMid, log);
        FanOutStep(old(messages), subscribers - rest, clientId, message, connected,
          multiset(logMid[|old(log)|..]), multiset(log[|logMid|..]), Lookup(queuesMid, clientId) + {message});
        assert (subscribers - rest) + {clientId} == subscribers - (rest - {clientId});
        rest := rest - {clientId};
      }
    }

    /**
     * Add the message to the client's queue, creating the queue if absent,
     * and offer the queue to the client's connection.
     */
    method Enqueue(clientId: ClientId, message: Message, connected: set<ClientId>)
      modifies this`messages, this`log, this`attached
      ensures old(log) <= log
      ensures clientId in connected ==>
        && messages == old(messages) - {clientId}
        && multiset(log[|old(log)|..]) == multiset(Tag(clientId, Lookup(old(messages), clientId) + {message}))
      ensures clientId !in connected ==>
        messages == Insert(old(messages), clientId, message) && log == old(log)
      ensures Detached(old(log), log, old(attached), attached)
      ensures old(Valid()) && clientId in clients ==> Valid()
    {
      messages := Insert(messages, clientId, message);
      EmptyQueue(clientId, connected);
    }

    /**
     * Hand the client's queue to its connection: when the client is connected
     * and has a queue, detach the queue first, then deliver each of its
     * messages once; otherwise leave everything as it is.
     */
    method EmptyQueue(clientId: ClientId, connected: set<ClientId>)
      modifies this`messages, this`log, this`attached
      ensures old(log) <= log
      ensures clientId in connected && clientId in old(messages) ==>
        && messages == old(messages) - {clientId}
        && multiset(log[|old(log)|..]) == multiset(Tag(clientId, old(messages)[clientId]))
      ensures !(clientId in connected && clientId in old(messages)) ==>
        messages == old(messages) && log == old(log)
      ensures Detached(old(log), log, old(attached), attached)
      ensures old(Valid()) ==> Valid()
    {
      if clientId !in connected || clientId !in messages {
        return;
      }
      var queue := messages[clientId];
      messages := messages - {clientId};
      var rest := queue;
      while rest != {}
        invariant rest <= queue
        invariant messages == old(messages) - {clientId}
        invariant old(log) <= log
        invariant multiset(log[|old(log)|..]) == multiset(Tag(clientId, queue - rest))
        invariant Detached(old(log), log, old(attached), attached)
        decreases rest
      {
        var m :| m in rest;
        ghost var delivered := Tag(clientId, queue - rest);
        assert Tag(clientId, queue - (rest - {m})) == delivered + {Delivery(clientId, m)};
        assert Delivery(clientId, m) !in delivered;
        SuffixSplit(old(log), log, log + [Delivery(clientId, m)]);
        log := log + [Delivery(clientId, m)];
        attached := attached + [clientId in messages];
        rest := rest - {m};
      }
    }
  }
}
