/**
 * The message envelope exchanged between agents and the in-memory
 * publish/subscribe bus.
 *
 * The envelope's generated id (a UUID) and timestamp (the clock) are
 * parameters. Handlers are callbacks the bus cannot see into: a handler is
 * an identifier, and whether calling it raises is a parameter of `Publish`,
 * which reports the handlers it called and the ones whose exception it
 * caught.
 */
module Communication {
  import opened Wrappers
  import opened JsonData

  datatype MessageType = Request | Response | Error | Event {
    /** The enum's string value. */
    function Value(): (v: string) {
      match this
      case Request => "request"
      case Response => "response"
      case Error => "error"
      case Event => "event"
    }
  }

  /** Each message type has its own string value. */
  lemma MessageTypeValuesDistinct(a: MessageType, b: MessageType)
    ensures a.Value() == b.Value() <==> a == b
  {
    if a != b {
      assert a.Value()[0] != b.Value()[0] || a.Value()[2] != b.Value()[2];
    }
  }

  datatype AgentMessage = AgentMessage(
    id: string,
    timestamp: string,
    sender: string,
    receiver: string,
    messageType: MessageType,
    content: Fields,
    correlationId: Option<string>,
    metadata: Fields)

  /**
   * `AgentMessage(sender=..., receiver=..., message_type=..., content=...)`:
   * the id and timestamp are what the default factories produced; the
   * correlation id defaults to `None` and the metadata to `{}`.
   */
  function NewMessage(id: string, timestamp: string, sender: string, receiver: string,
                      messageType: MessageType, content: Fields): (m: AgentMessage)
    ensures m.correlationId.None? && m.metadata == []
    ensures m.id == id && m.sender == sender && m.receiver == receiver
    ensures m.messageType == messageType && m.content == content
  {
    AgentMessage(id, timestamp, sender, receiver, messageType, content, None, [])
  }

  function OptionalString(s: Option<string>): Json {
    if s.Some? then JStr(s.value) else JNull
  }

  /** `model_dump()`: the fields in declaration order, the message type by its value. */
  function MessageDump(m: AgentMessage): Json {
    JObject([("id", JStr(m.id)),
             ("timestamp", JStr(m.timestamp)),
             ("sender", JStr(m.sender)),
             ("receiver", JStr(m.receiver)),
             ("message_type", JStr(m.messageType.Value())),
             ("content", JObject(m.content)),
             ("correlation_id", OptionalString(m.correlationId)),
             ("metadata", JObject(m.metadata))])
  }

  /** The dump reads back the envelope's sender, receiver, type, content and correlation id. */
  lemma MessageDumpReadsBack(m: AgentMessage)
    ensures var f := MessageDump(m).fields;
      && Get(f, "sender") == Some(JStr(m.sender))
      && Get(f, "receiver") == Some(JStr(m.receiver))
      && Get(f, "message_type") == Some(JStr(m.messageType.Value()))
      && Get(f, "content") == Some(JObject(m.content))
      && Get(f, "correlation_id") == Some(OptionalString(m.correlationId))
  {
    var f := MessageDump(m).fields;
    assert DistinctKeys(f);
    GetDistinct(f, 2);
    GetDistinct(f, 3);
    GetDistinct(f, 4);
    GetDistinct(f, 5);
    GetDistinct(f, 6);
  }

  /** A subscriber callback, by identity. */
  datatype Handler = Handler(id: nat)

  /** The handlers subscribed to exactly `topic`, in subscription order. */
  function SubscribersOf(subscribers: map<string, seq<Handler>>, topic: string): seq<Handler> {
    if topic in subscribers then subscribers[topic] else []
  }

  /** The subscriber table after `subscribe(topic, handler)`. */
  function Subscribed(subscribers: map<string, seq<Handler>>, topic: string, handler: Handler): map<string, seq<Handler>> {
    subscribers[topic := SubscribersOf(subscribers, topic) + [handler]]
  }

  /** Subscribing appends to that topic's list, creating it if needed, and touches no other topic. */
  lemma SubscribeAppends(subscribers: map<string, seq<Handler>>, topic: string, handler: Handler, t: string)
    ensures t == topic ==> SubscribersOf(Subscribed(subscribers, topic, handler), t) == SubscribersOf(subscribers, t) + [handler]
    ensures t != topic ==> SubscribersOf(Subscribed(subscribers, topic, handler), t) == SubscribersOf(subscribers, t)
    ensures SubscribersOf(subscribers, t) <= SubscribersOf(Subscribed(subscribers, topic, handler), t)
  {
  }

  /** The handlers among `handlers` whose call raises, in calling order. */
  function Failing(handlers: seq<Handler>, raises: Handler -> bool): (r: seq<Handler>) {
    if handlers == [] then []
    else
      var init := Failing(handlers[..|handlers| - 1], raises);
      if raises(handlers[|handlers| - 1]) then init + [handlers[|handlers| - 1]] else init
  }

  /** The caught failures are exactly the handlers that raise, each of which was called. */
  lemma {:induction false} FailingExactly(handlers: seq<Handler>, raises: Handler -> bool)
    ensures |Failing(handlers, raises)| <= |handlers|
    ensures forall h :: h in Failing(handlers, raises) <==> h in handlers && raises(h)
  {
    if handlers != [] {
      var init := handlers[..|handlers| - 1];
      FailingExactly(init, raises);
      assert handlers == init + [handlers[|handlers| - 1]];
    }
  }

  /** When no handler raises, no failure is reported. */
  lemma NoneRaiseNoneFail(handlers: seq<Handler>, raises: Handler -> bool)
    requires forall h :: h in handlers ==> !raises(h)
    ensures Failing(handlers, raises) == []
  {
    FailingExactly(handlers, raises);
  }

  class MessageBus {
    var subscribers: map<string, seq<Handler>>
    var history: seq<AgentMessage>

    constructor()
      ensures subscribers == map[] && history == []
    {
      subscribers := map[];
      history := [];
    }

    /** `subscribe(topic, handler)`. */
    method Subscribe(topic: string, handler: Handler)
      modifies this
      ensures subscribers == Subscribed(old(subscribers), topic, handler)
      ensures history == old(history)
    {
      if topic !in subscribers {
        subscribers := subscribers[topic := []];
      }
      subscribers := subscribers[topic := subscribers[topic] + [handler]];
    }

    /**
     * `publish(topic, message)`: the message joins the history once, then
     * every handler of exactly that topic is called in subscription order; an
     * exception from one is caught and the next is still called.
     */
    method Publish(topic: string, message: AgentMessage, raises: Handler -> bool)
      returns (called: seq<Handler>, failed: seq<Handler>)
      modifies this
      ensures history == old(history) + [message]
      ensures subscribers == old(subscribers)
      ensures called == SubscribersOf(subscribers, topic)
      ensures failed == Failing(called, raises)
    {
      history := history + [message];
      called := [];
      failed := [];
      if topic in subscribers {
        var handlers := subscribers[topic];
        var i := 0;
        while i < |handlers|
          invariant 0 <= i <= |handlers|
          invariant called == handlers[..i]
          invariant failed == Failing(handlers[..i], raises)
        {
          var handler := handlers[i];
          called := called + [handler];
          if raises(handler) {
            failed := failed + [handler];
          }
          assert handlers[..i + 1][..i] == handlers[..i];
          i := i + 1;
        }
        assert handlers[..i] == handlers;
      }
    }

    /** `get_history()`: every published message, in publish order. */
    method GetHistory() returns (messages: seq<AgentMessage>)
      ensures messages == history
    {
      messages := history;
    }
  }
}
