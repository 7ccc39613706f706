/**
 * The task scheduler the STOMP client sends heartbeats through:
 * LoggingTaskScheduler, which logs each request and hands it on.
 */
module Scheduling {

  /** A task the STOMP client asks to have run; its contents are the client's own. */
  datatype Runnable = Runnable(id: nat)
  /** A trigger that computes the next run time; its logic is not part of this model. */
  datatype Trigger = Trigger(id: nat)
  /** The handle a scheduler returns for a scheduled task. */
  datatype Future = Future(id: nat)

  /**
   * One call of the TaskScheduler interface, with its arguments; instants
   * and durations are logical clock readings and lengths.
   */
  datatype ScheduleCall =
    | ScheduleAt(task: Runnable, startTime: int)
    | ScheduleWithTrigger(task: Runnable, trigger: Trigger)
    | FixedRateFrom(task: Runnable, startTime: int, period: int)
    | FixedRate(task: Runnable, period: int)
    | FixedDelayFrom(task: Runnable, startTime: int, delay: int)
    | FixedDelay(task: Runnable, delay: int)

  /**
   * The scheduler that runs tasks on the single-threaded executor. It is a
   * library class: this model records the calls it receives and numbers the
   * futures it hands back.
   */
  class ConcurrentTaskScheduler {
    var calls: seq<ScheduleCall>

    constructor()
      ensures calls == []
    {
      calls := [];
    }

    method Schedule(call: ScheduleCall) returns (future: Future)
      modifies this
      ensures calls == old(calls) + [call]
      ensures future == Future(|old(calls)|)
    {
      future := Future(|calls|);
      calls := calls + [call];
    }
  }

  /** LoggingTaskScheduler: logs every request, then passes it on unchanged. */
  class LoggingTaskScheduler {
    const delegate: ConcurrentTaskScheduler

    constructor(delegate: ConcurrentTaskScheduler)
      ensures this.delegate == delegate
    {
      this.delegate := delegate;
    }

    /**
     * Each of the six schedule methods: the delegate receives exactly this
     * call, with the same task and the same times, and the delegate's future
     * is returned as it is; nothing else changes.
     */
    method Schedule(call: ScheduleCall) returns (future: Future)
      modifies delegate
      ensures delegate.calls == old(delegate.calls) + [call]
      ensures future == Future(|old(delegate.calls)|)
    {
      future := delegate.Schedule(call);
    }
  }
}
