/**
 * The parts of Spring's STOMP client that the connection code drives: the
 * client object, with the settings it is given and the connections it is
 * asked to open, and a session, with the subscriptions made on it. The
 * protocol itself is not part of this model.
 */
module Stomp {
  import opened Wrappers
  import Scheduling

  /** The converter payloads are decoded with. */
  datatype MessageConverter = DefaultConverter | JacksonJson

  /** One connectAsync(url, handler) request. */
  datatype ConnectAttempt = ConnectAttempt(url: string, handler: object)

  /** A WebSocketStompClient. */
  class WebSocketStompClient {
    var messageConverter: MessageConverter
    var taskScheduler: Scheduling.LoggingTaskScheduler?
    /** The heartbeat intervals in milliseconds (outgoing, incoming); None is the library's default. */
    var defaultHeartbeat: Option<(int, int)>
    /** Every connection requested of this client, in order. */
    var attempts: seq<ConnectAttempt>

    constructor()
      ensures messageConverter == DefaultConverter && taskScheduler == null
      ensures defaultHeartbeat == None && attempts == []
    {
      messageConverter := DefaultConverter;
      taskScheduler := null;
      defaultHeartbeat := None;
      attempts := [];
    }

    /** connectAsync: starts a connection and returns at once; its outcome arrives through `handler`. */
    method ConnectAsync(url: string, handler: object)
      modifies this`attempts
      ensures attempts == old(attempts) + [ConnectAttempt(url, handler)]
    {
      attempts := attempts + [ConnectAttempt(url, handler)];
    }
  }

  /** A connected StompSession. */
  class StompSession {
    /** The destinations subscribed to on this session, in order. */
    var subscriptions: seq<string>

    constructor()
      ensures subscriptions == []
    {
      subscriptions := [];
    }

    method Subscribe(destination: string)
      modifies this
      ensures subscriptions == old(subscriptions) + [destination]
    {
      subscriptions := subscriptions + [destination];
    }
  }
}
