/**
 * WebSocketConnectionManager: keeps one STOMP connection to the server,
 * subscribed to the client's personal topic, hands every alert that arrives
 * to all registered alert handlers, and after a failure schedules a single
 * reconnect.
 *
 * Threads and the wall clock are replaced by a sequential model: the
 * manager's methods are the events (a connect, a callback of the STOMP
 * library, the reconnect task firing), taken one at a time, and `now` is a
 * logical clock in seconds.
 */
module Connection {
  import opened Wrappers
  import opened Alerts
  import Stomp
  import Scheduling

  /** The heartbeat the STOMP client is configured with, in milliseconds. */
  const HEARTBEAT_MS: (int, int) := (30000, 30000)
  const TOPIC_PREFIX: string := "/topic/"

  /** The destination the manager subscribes to: "/topic/" + personalKey. */
  function Topic(personalKey: string): (destination: string)
    ensures KeyOfTopic(destination) == Some(personalKey)
  {
    assert (TOPIC_PREFIX + personalKey)[..|TOPIC_PREFIX|] == TOPIC_PREFIX;
    assert (TOPIC_PREFIX + personalKey)[|TOPIC_PREFIX|..] == personalKey;
    TOPIC_PREFIX + personalKey
  }

  /** The personal key a destination belongs to, if it is a topic destination. */
  function KeyOfTopic(destination: string): Option<string> {
    if |destination| >= |TOPIC_PREFIX| && destination[..|TOPIC_PREFIX|] == TOPIC_PREFIX
    then Some(destination[|TOPIC_PREFIX|..])
    else None
  }

  /** Every personal key gets its own topic, and a topic names exactly one key. */
  lemma TopicRoundTrip(personalKey: string, destination: string)
    ensures KeyOfTopic(Topic(personalKey)) == Some(personalKey)
    ensures KeyOfTopic(destination) == Some(personalKey) <==> destination == Topic(personalKey)
  {
    var t := Topic(personalKey);
    assert t[..|TOPIC_PREFIX|] == TOPIC_PREFIX;
    assert t[|TOPIC_PREFIX|..] == personalKey;
    if KeyOfTopic(destination) == Some(personalKey) {
      assert destination == destination[..|TOPIC_PREFIX|] + destination[|TOPIC_PREFIX|..];
    }
  }

  /** A registered alert handler, known by its bean name. */
  datatype AlertHandlerRef = AlertHandlerRef(name: string)

  /** One handleAlert call made while dispatching a frame. */
  datatype Delivery = Delivery(handlerIndex: nat, handler: AlertHandlerRef, alert: Alert)

  /** What dispatching `alert` to `handlers` does: each handler once, in registration order, with that alert. */
  function FanOut(handlers: seq<AlertHandlerRef>, alert: Alert): (ds: seq<Delivery>)
    ensures |ds| == |handlers|
    decreases |handlers|
  {
    if handlers == [] then []
    else FanOut(handlers[..|handlers| - 1], alert) + [Delivery(|handlers| - 1, handlers[|handlers| - 1], alert)]
  }

  /**
   * A dispatch reaches every handler exactly once: the i-th call goes to
   * the i-th registered handler, and every call carries the same alert.
   */
  lemma {:induction false} FanOutReachesEachHandlerOnce(handlers: seq<AlertHandlerRef>, alert: Alert)
    ensures forall i :: 0 <= i < |handlers| ==>
              FanOut(handlers, alert)[i] == Delivery(i, handlers[i], alert)
    ensures forall i, j :: 0 <= i < j < |handlers| ==>
              FanOut(handlers, alert)[i].handlerIndex != FanOut(handlers, alert)[j].handlerIndex
    decreases |handlers|
  {
    if handlers != [] {
      var front := handlers[..|handlers| - 1];
      FanOutReachesEachHandlerOnce(front, alert);
      forall i | 0 <= i < |front|
        ensures FanOut(handlers, alert)[i] == Delivery(i, handlers[i], alert)
      {
        assert FanOut(handlers, alert)[i] == FanOut(front, alert)[i];
      }
    }
  }

  /** The reconnect task: when it is due, and whether it has run (ScheduledFuture.isDone). */
  datatype ReconnectTask = ReconnectTask(fireTime: int, done: bool)

  /** A reconnect is pending: a task exists and has not run yet. */
  predicate IsPending(task: Option<ReconnectTask>) {
    task.Some? && !task.value.done
  }

  /**
   * The task scheduleReconnect leaves behind when called at `now`: a new one
   * due `delay` seconds later when there is no task or the last one has run,
   * and otherwise the pending task, untouched.
   */
  function NextReconnectTask(task: Option<ReconnectTask>, now: int, delay: int): (r: Option<ReconnectTask>)
    ensures IsPending(r)
    ensures IsPending(task) ==> r == task
    ensures !IsPending(task) ==> r == Some(ReconnectTask(now + delay, false))
  {
    if task.None? || task.value.done then Some(ReconnectTask(now + delay, false)) else task
  }

  /** The task after a run of failure callbacks, the i-th arriving at clock reading `nows[i]`. */
  function AfterFailures(task: Option<ReconnectTask>, nows: seq<int>, delay: int): Option<ReconnectTask>
    decreases |nows|
  {
    if nows == [] then task else AfterFailures(NextReconnectTask(task, nows[0], delay), nows[1..], delay)
  }

  /** How many of those callbacks schedule a task. */
  function SchedulesIn(task: Option<ReconnectTask>, nows: seq<int>, delay: int): nat
    decreases |nows|
  {
    if nows == [] then 0
    else (if IsPending(task) then 0 else 1) + SchedulesIn(NextReconnectTask(task, nows[0], delay), nows[1..], delay)
  }

  /**
   * No duplicate reconnects: however many failure callbacks arrive before the
   * task runs, at most one task is scheduled, due `delay` seconds after the
   * first callback that found none pending; later callbacks neither add a
   * task nor move its firing time.
   */
  lemma {:induction false} FailureBurstSchedulesOnce(task: Option<ReconnectTask>, nows: seq<int>, delay: int)
    requires |nows| > 0
    ensures SchedulesIn(task, nows, delay) == if IsPending(task) then 0 else 1
    ensures AfterFailures(task, nows, delay) ==
            if IsPending(task) then task else Some(ReconnectTask(nows[0] + delay, false))
    decreases |nows|
  {
    var next := NextReconnectTask(task, nows[0], delay);
    if |nows| > 1 {
      FailureBurstSchedulesOnce(next, nows[1..], delay);
    }
  }

  /** WebSocketConnectionManager. */
  class WebSocketConnectionManager {
    /** The server URL, the reconnect delay in seconds and the personal key, from configuration. */
    const url: string
    const reconnectDelaySeconds: int
    const personalKey: string
    /** The handlers, copied once from the constructor's collection and never changed. */
    const alertHandlers: seq<AlertHandlerRef>
    /** The heartbeat scheduler wrapped around the executor's scheduler. */
    const loggingScheduler: Scheduling.LoggingTaskScheduler

    /** stompClient: made by the first connect and kept. */
    var stompClient: Stomp.WebSocketStompClient?
    /** reconnectTask; None is Java's null. */
    var reconnectTask: Option<ReconnectTask>
    /** The logical clock, in seconds. */
    var now: int

    /** The firing time of every reconnect ever scheduled, in order. */
    ghost var scheduled: seq<int>
    /** How many of those have run. */
    ghost var fired: nat
    /** Every handleAlert call made by frame dispatch, in order. */
    ghost var deliveries: seq<Delivery>

    /**
     * The manager's invariant. At most one scheduled reconnect has not yet
     * run; the reconnect task is the last one scheduled and is pending
     * exactly when it has not run; a STOMP client, once made, is configured
     * as connect configures it.
     */
    ghost predicate Valid()
      reads this, stompClient
    {
      && fired <= |scheduled| <= fired + 1
      && (reconnectTask.None? <==> scheduled == [])
      && (reconnectTask.Some? ==>
            && reconnectTask.value.fireTime == scheduled[|scheduled| - 1]
            && (reconnectTask.value.done <==> fired == |scheduled|))
      && (stompClient != null ==>
            && stompClient.messageConverter == Stomp.JacksonJson
            && stompClient.taskScheduler == loggingScheduler
            && stompClient.defaultHeartbeat == Some(HEARTBEAT_MS))
    }

    /** The constructor: registers the handlers in the collection's order; nothing is connected or scheduled. */
    constructor(url: string, reconnectDelaySeconds: int, personalKey: string,
                handlers: seq<AlertHandlerRef>, now: int)
      ensures Valid()
      ensures this.url == url && this.reconnectDelaySeconds == reconnectDelaySeconds
      ensures this.personalKey == personalKey && alertHandlers == handlers
      ensures stompClient == null && reconnectTask == None && this.now == now
      ensures scheduled == [] && fired == 0 && deliveries == []
    {
      this.url := url;
      this.reconnectDelaySeconds := reconnectDelaySeconds;
      this.personalKey := personalKey;
      var executor := new Scheduling.ConcurrentTaskScheduler();
      loggingScheduler := new Scheduling.LoggingTaskScheduler(executor);
      alertHandlers := [] + handlers;
      stompClient := null;
      reconnectTask := None;
      this.now := now;
      scheduled := [];
      fired := 0;
      deliveries := [];
    }

    /**
     * The STOMP client after a connect: the same object as before if there
     * was one, and otherwise a new one; either way one more connection has
     * been requested of it, with `handler`.
     */
    twostate predicate ConnectRequested(new handler: StompSessionHandler)
      reads this, stompClient
    {
      && stompClient != null
      && (old(stompClient) != null ==> stompClient == old(stompClient))
      && (old(stompClient) == null ==> fresh(stompClient))
      && stompClient.attempts ==
           (if old(stompClient) == null then [] else old(stompClient.attempts)) +
           [Stomp.ConnectAttempt(url, handler)]
      && fresh(handler) && handler.owner == this
    }

    /**
     * connect: makes and configures the STOMP client only if there is none,
     * then asks it to connect, with a new session handler. The handler is
     * returned so that the library's callbacks can be delivered to it.
     */
    method Connect() returns (handler: StompSessionHandler)
      requires Valid()
      modifies this, stompClient
      ensures Valid()
      ensures ConnectRequested(handler)
      ensures reconnectTask == old(reconnectTask) && now == old(now)
      ensures scheduled == old(scheduled) && fired == old(fired) && deliveries == old(deliveries)
    {
      if stompClient == null {
        stompClient := new Stomp.WebSocketStompClient();
        stompClient.messageConverter := Stomp.JacksonJson;
        stompClient.taskScheduler := loggingScheduler;
        stompClient.defaultHeartbeat := Some(HEARTBEAT_MS);
      }
      handler := new StompSessionHandler(this);
      stompClient.ConnectAsync(url, handler);
    }

    /**
     * What scheduleReconnect does: the reconnect task becomes
     * NextReconnectTask at the current time; a task is added to the schedule
     * only when none was pending; nothing else changes.
     */
    twostate predicate ReconnectRequested()
      reads this
    {
      && reconnectTask == NextReconnectTask(old(reconnectTask), now, reconnectDelaySeconds)
      && scheduled == old(scheduled) + (if IsPending(old(reconnectTask)) then [] else [now + reconnectDelaySeconds])
      && now == old(now) && fired == old(fired) && deliveries == old(deliveries)
      && stompClient == old(stompClient)
    }

    /** scheduleReconnect: schedules a connect `reconnectDelaySeconds` from now unless one is pending. */
    method ScheduleReconnect()
      requires Valid()
      modifies this
      ensures Valid()
      ensures ReconnectRequested()
    {
      if reconnectTask.None? || reconnectTask.value.done {
        reconnectTask := Some(ReconnectTask(now + reconnectDelaySeconds, false));
        scheduled := scheduled + [now + reconnectDelaySeconds];
      }
    }

    /**
     * The executor runs the pending reconnect task, no earlier than it is due:
     * the clock reaches the firing time, the task is done and connect runs.
     */
    method ReconnectTaskFires() returns (handler: StompSessionHandler)
      requires Valid() && IsPending(reconnectTask)
      modifies this, stompClient
      ensures Valid()
      ensures ConnectRequested(handler)
      ensures now == if old(now) < old(reconnectTask).value.fireTime then old(reconnectTask).value.fireTime else old(now)
      ensures reconnectTask == Some(ReconnectTask(old(reconnectTask).value.fireTime, true))
      ensures scheduled == old(scheduled) && fired == old(fired) + 1 && deliveries == old(deliveries)
    {
      var task := reconnectTask.value;
      if now < task.fireTime {
        now := task.fireTime;
      }
      // connect runs inside the task; the task counts as done once it returns,
      // and connect does not look at the task, so it is marked first here
      reconnectTask := Some(task.(done := true));
      fired := fired + 1;
      handler := Connect();
    }

    /** Time passes without any event. */
    method Tick(seconds: nat)
      modifies this`now
      ensures now == old(now) + seconds
    {
      now := now + seconds;
    }

    /** subscribeToMeetings: one subscription on the session, to the personal topic. */
    method SubscribeToMeetings(session: Stomp.StompSession)
      modifies session
      ensures session.subscriptions == old(session.subscriptions) + [Topic(personalKey)]
    {
      session.Subscribe(Topic(personalKey));
    }

    /**
     * handleFrame of the subscription: the decoded alert goes to every
     * registered handler, one after the other in registration order.
     */
    method HandleFrame(alert: Alert)
      modifies this`deliveries
      ensures deliveries == old(deliveries) + FanOut(alertHandlers, alert)
    {
      var i := 0;
      while i < |alertHandlers|
        invariant 0 <= i <= |alertHandlers|
        invariant deliveries == old(deliveries) + FanOut(alertHandlers[..i], alert)
      {
        assert alertHandlers[..i + 1][..i] == alertHandlers[..i];
        deliveries := deliveries + [Delivery(i, alertHandlers[i], alert)];
        i := i + 1;
      }
      assert alertHandlers[..i] == alertHandlers;
    }
  }

  /**
   * StompSessionHandler: the callbacks of one connection attempt, with an
   * explicit reference to the manager that made it.
   */
  class StompSessionHandler {
    const owner: WebSocketConnectionManager

    constructor(owner: WebSocketConnectionManager)
      ensures this.owner == owner
    {
      this.owner := owner;
    }

    /** afterConnected: subscribes the new session to the personal topic. */
    method AfterConnected(session: Stomp.StompSession)
      modifies session
      ensures session.subscriptions == old(session.subscriptions) + [Topic(owner.personalKey)]
    {
      owner.SubscribeToMeetings(session);
    }

    /** handleException: a protocol error; schedules a reconnect, exactly as a transport error does. */
    method HandleException()
      requires owner.Valid()
      modifies owner
      ensures owner.Valid()
      ensures owner.ReconnectRequested()
    {
      owner.ScheduleReconnect();
    }

    /** handleTransportError: a transport error; schedules a reconnect, exactly as a protocol error does. */
    method HandleTransportError()
      requires owner.Valid()
      modifies owner
      ensures owner.Valid()
      ensures owner.ReconnectRequested()
    {
      owner.ScheduleReconnect();
    }
  }

  /**
   * A run of the manager: reconnect delay 5 s, the session fails at t = 0,
   * a second failure arrives at t = 5 before the reconnect has run, then the
   * reconnect runs. Exactly one reconnect was scheduled, due at t = 5 (not
   * moved to t = 10), and it reconnects through the same STOMP client.
   */
  method FailureDuringPendingReconnect() returns (task: Option<ReconnectTask>, attempts: nat, sameClient: bool)
    ensures task == Some(ReconnectTask(5, true))
    ensures attempts == 2 && sameClient
  {
    var manager := new WebSocketConnectionManager("ws://server", 5, "abc123", [AlertHandlerRef("macNotificationHandler")], 0);
    var first := manager.Connect();
    var client := manager.stompClient;
    first.HandleTransportError();
    assert manager.reconnectTask == Some(ReconnectTask(5, false));
    manager.Tick(5);
    first.HandleException();
    assert manager.reconnectTask == Some(ReconnectTask(5, false));
    var second := manager.ReconnectTaskFires();
    task := manager.reconnectTask;
    assert |manager.scheduled| == 1;
    attempts := |manager.stompClient.attempts|;
    sameClient := manager.stompClient == client;
  }
}
