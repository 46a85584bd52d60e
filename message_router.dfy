/**
 * The message router: it listens on topic "router", logs every message it
 * handles, and routes a request by logging it, publishing it on the
 * receiver's topic and answering either with the request itself or, for an
 * unknown receiver, with an error message.
 *
 * The log file is a sequence of JSON documents, one per line; whether the
 * file can be written is a property of the logger, and a failed write is
 * swallowed. `route_request` has no `await` inside, so it is a plain method.
 * `bool(agent)` of a registered instance is a parameter of the router.
 */
module MessageRouting {
  import opened Wrappers
  import opened JsonData
  import opened Communication
  import opened AgentRegistryModel

  const RouterTopic := "router"
  const RouterName := "router"

  /** The topic a request for `receiver` is published on. */
  function AgentTopic(receiver: string): (t: string)
    ensures |t| == 6 + |receiver| && t[..6] == "agent." && t[6..] == receiver
  {
    "agent." + receiver
  }

  /** Routing never publishes on the router's own topic, so it never triggers the router's handler. */
  lemma AgentTopicIsNotRouter(receiver: string)
    ensures AgentTopic(receiver) != RouterTopic
  {
    assert AgentTopic(receiver)[0] == 'a' != RouterTopic[0];
  }

  /** The log entries a logger adds for `messages`: their dumps, or nothing when writes fail. */
  function Logged(writable: bool, messages: seq<AgentMessage>): (entries: seq<Json>)
    ensures writable ==> |entries| == |messages| && forall i :: 0 <= i < |messages| ==> entries[i] == MessageDump(messages[i])
    ensures !writable ==> entries == []
  {
    if writable then seq(|messages|, i requires 0 <= i < |messages| => MessageDump(messages[i])) else []
  }

  class MessageLogger {
    /** The documents in the log file, one per line. */
    var entries: seq<Json>
    /** Whether opening the log file for appending succeeds. */
    var writable: bool

    constructor(writable: bool)
      ensures entries == [] && this.writable == writable
    {
      entries := [];
      this.writable := writable;
    }

    /** `log(message)`: one line with the message's JSON, or nothing if the write fails. */
    method Log(message: AgentMessage)
      modifies this
      ensures entries == old(entries) + Logged(writable, [message])
      ensures writable == old(writable)
    {
      if writable {
        entries := entries + [MessageDump(message)];
      }
    }
  }

  /** `if not agent`: the receiver counts as missing when unregistered or when its instance is falsy. */
  predicate Routable<Agent>(agents: map<string, Agent>, receiver: string, truthy: Agent -> bool) {
    receiver in agents && truthy(agents[receiver])
  }

  /** The request envelope `route_request` creates. */
  function RequestMessage(id: string, timestamp: string, sender: string, receiver: string, content: Fields): (m: AgentMessage)
    ensures m.messageType == Request && m.correlationId.None?
  {
    NewMessage(id, timestamp, sender, receiver, Request, content)
  }

  /** The error reply for a request whose receiver is missing. */
  function NotFound(request: AgentMessage, id: string, timestamp: string): (m: AgentMessage)
    ensures m.sender == RouterName && m.receiver == request.sender
    ensures m.messageType == Error && m.correlationId == Some(request.id)
    ensures m.content == [("error", JStr("Agent " + request.receiver + " not found"))]
  {
    NewMessage(id, timestamp, RouterName, request.sender, Error,
               [("error", JStr("Agent " + request.receiver + " not found"))])
      .(correlationId := Some(request.id))
  }

  /** The error reply answers the request: it goes back to its sender and names the request. */
  lemma NotFoundAnswersRequest(sender: string, receiver: string, content: Fields, id: string, timestamp: string,
                               errorId: string, errorTime: string)
    ensures var request := RequestMessage(id, timestamp, sender, receiver, content);
      var reply := NotFound(request, errorId, errorTime);
      && reply.receiver == sender && reply.correlationId == Some(id) && reply.messageType != request.messageType
      && Get(reply.content, "error") == Some(JStr("Agent " + receiver + " not found"))
  {
  }

  /** The first log line of a routed request reads back its sender, receiver and content. */
  lemma RequestLogReadsBack(sender: string, receiver: string, content: Fields, id: string, timestamp: string)
    ensures var entry := MessageDump(RequestMessage(id, timestamp, sender, receiver, content));
      && Get(entry.fields, "sender") == Some(JStr(sender))
      && Get(entry.fields, "receiver") == Some(JStr(receiver))
      && Get(entry.fields, "content") == Some(JObject(content))
      && Get(entry.fields, "message_type") == Some(JStr("request"))
  {
    MessageDumpReadsBack(RequestMessage(id, timestamp, sender, receiver, content));
  }

  class MessageRouter<Agent> {
    const registry: AgentRegistry<Agent>
    const bus: MessageBus
    const logger: MessageLogger
    /** The identity of the bound method `self._handle_message`. */
    const handler: Handler
    /** `bool(agent)` for a registered instance. */
    const truthy: Agent -> bool

    /** `MessageRouter(registry, bus, log_dir)`: a fresh logger, and the handler subscribed to "router". */
    constructor(registry: AgentRegistry<Agent>, bus: MessageBus, handler: Handler,
                truthy: Agent -> bool, logWritable: bool)
      modifies bus
      ensures this.registry == registry && this.bus == bus && this.handler == handler && this.truthy == truthy
      ensures fresh(logger) && logger.entries == [] && logger.writable == logWritable
      ensures bus.subscribers == Subscribed(old(bus.subscribers), RouterTopic, handler)
      ensures bus.history == old(bus.history)
    {
      this.registry := registry;
      this.bus := bus;
      this.handler := handler;
      this.truthy := truthy;
      logger := new MessageLogger(logWritable);
      new;
      bus.Subscribe(RouterTopic, handler);
    }

    /** `_handle_message(message)`: log it. */
    method HandleMessage(message: AgentMessage)
      modifies logger
      ensures logger.entries == old(logger.entries) + Logged(logger.writable, [message])
      ensures logger.writable == old(logger.writable)
    {
      logger.Log(message);
    }

    /**
     * `route_request(sender, receiver, content)`: log the request, publish it
     * on "agent." + receiver, then answer with the request itself when the
     * receiver is registered (and truthy), or else log and return the error
     * reply.
     */
    method RouteRequest(sender: string, receiver: string, content: Fields,
                        requestId: string, requestTime: string, errorId: string, errorTime: string,
                        raises: Handler -> bool)
      returns (response: AgentMessage, called: seq<Handler>)
      modifies logger, bus
      ensures var request := RequestMessage(requestId, requestTime, sender, receiver, content);
        && bus.history == old(bus.history) + [request]
        && bus.subscribers == old(bus.subscribers)
        && called == SubscribersOf(bus.subscribers, AgentTopic(receiver))
        && logger.writable == old(logger.writable)
        && (Routable(registry.agents, receiver, truthy) ==>
              response == request
              && logger.entries == old(logger.entries) + Logged(logger.writable, [request]))
        && (!Routable(registry.agents, receiver, truthy) ==>
              response == NotFound(request, errorId, errorTime)
              && logger.entries == old(logger.entries) + Logged(logger.writable, [request, response]))
    {
      var request := RequestMessage(requestId, requestTime, sender, receiver, content);
      logger.Log(request);
      var failed;
      called, failed := bus.Publish(AgentTopic(receiver), request, raises);
      var agent := registry.GetAgent(receiver);
      if agent.None? || !truthy(agent.value) {
        var errorMessage := NotFound(request, errorId, errorTime);
        logger.Log(errorMessage);
        assert Logged(logger.writable, [request]) + Logged(logger.writable, [errorMessage])
            == Logged(logger.writable, [request, errorMessage]);
        return errorMessage, called;
      }
      response := request;
    }
  }
}
