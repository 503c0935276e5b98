/** The four built-in workers: a periodic monitor, a one-shot task, a timer
    with an optional trigger limit and a fixed-count loop. Each holds the base
    worker state as its `core` (composition stands in for inheritance).

    Callbacks are code outside the model. A callback is given by its outcome:
    `cb(k)` is how its k-th invocation ends (for the loop callback, k is also
    the argument it receives). Sleeping and console output are left out. */
module BaseWorkers {
  import opened Workers
  import Decimal

  /** Whether the k-th invocation of an optional callback returns normally
      (an absent callback is never invoked, so it never throws). */
  predicate Returned(callback: Option<int -> Outcome>, k: int) {
    callback.None? || callback.value(k) == Returns
  }

  /** lo, lo + 1, ..., hi (empty when hi < lo). */
  function Range(lo: int, hi: int): (r: seq<int>)
    ensures |r| == if hi >= lo then hi - lo + 1 else 0
    ensures forall k :: 0 <= k < |r| ==> r[k] == lo + k
  {
    seq(if hi >= lo then hi - lo + 1 else 0, k => lo + k)
  }

  /** The messages handed to onError by invocations lo..hi of a callback whose
      std::exception is caught: `prefix` followed by what(), in call order. */
  function FailureMessages(prefix: string, callback: Option<int -> Outcome>, lo: int, hi: int): (msgs: seq<string>)
    ensures |msgs| <= if hi >= lo then hi - lo + 1 else 0
    ensures (forall k :: lo <= k <= hi ==> Returned(callback, k)) ==> msgs == []
    decreases hi - lo
  {
    if hi < lo || callback.None? then []
    else
      FailureMessages(prefix, callback, lo, hi - 1)
      + (if Returned(callback, hi) then [] else [prefix + callback.value(hi).message])
  }

  /** One more invocation adds its message exactly when it throws. */
  lemma FailureMessagesStep(prefix: string, callback: Option<int -> Outcome>, lo: int, hi: int)
    requires lo <= hi + 1
    ensures FailureMessages(prefix, callback, lo, hi + 1)
         == FailureMessages(prefix, callback, lo, hi)
            + (if Returned(callback, hi + 1) then [] else [prefix + callback.value(hi + 1).message])
  {
  }

  /** The invocations among lo..hi that throw. */
  function Throwing(callback: Option<int -> Outcome>, lo: int, hi: int): set<int> {
    set k | lo <= k <= hi && !Returned(callback, k)
  }

  /** Exactly one message per throwing invocation, and a throwing last
      invocation contributes the last message. */
  lemma {:induction false} FailureMessagesCount(prefix: string, callback: Option<int -> Outcome>, lo: int, hi: int)
    ensures |FailureMessages(prefix, callback, lo, hi)| == |Throwing(callback, lo, hi)|
    ensures lo <= hi && !Returned(callback, hi) ==>
              var msgs := FailureMessages(prefix, callback, lo, hi);
              |msgs| > 0 && msgs[|msgs| - 1] == prefix + callback.value(hi).message
    decreases hi - lo
  {
    if hi < lo || callback.None? {
      assert Throwing(callback, lo, hi) == {};
    } else {
      FailureMessagesCount(prefix, callback, lo, hi - 1);
      if Returned(callback, hi) {
        assert Throwing(callback, lo, hi) == Throwing(callback, lo, hi - 1);
      } else {
        assert Throwing(callback, lo, hi) == Throwing(callback, lo, hi - 1) + {hi};
      }
    }
  }

  function Max(a: int, b: int): int { if a < b then b else a }

  const MonitorType := "MonitorWorker"
  const TaskType := "TaskWorker"
  const TimerType := "TimerWorker"
  const LoopType := "LoopWorker"

  /** Runs a callback while the continuation check and `enabled` allow. */
  class MonitorWorker {
    const core: ThreadWorker
    var interval: int  // milliseconds
    const callback: Option<int -> Outcome>
    var enabled: bool
    var iterationCount: int

    constructor (interval: int, callback: Option<int -> Outcome>)
      ensures fresh(core) && core.state == Stopped && !core.shouldStop && !core.shouldPause
      ensures this.interval == interval && this.callback == callback
      ensures enabled && iterationCount == 0
    {
      core := new ThreadWorker();
      this.interval := interval;
      this.callback := callback;
      enabled := true;
      iterationCount := 0;
    }

    function GetType(): (t: string)
      ensures t == "MonitorWorker"
    {
      MonitorType
    }

    /** The description carries the interval in milliseconds. */
    function GetDescription(): (d: string)
      reads this
      ensures Decimal.Framed(d, "Monitor worker with ", interval, "ms interval")
    {
      Decimal.FramedConcat("Monitor worker with ", Decimal.IntToString(interval), interval, "ms interval");
      "Monitor worker with " + Decimal.IntToString(interval) + "ms interval"
    }

    method SetEnabled(enabled: bool)
      modifies this
      ensures this.enabled == enabled
      ensures interval == old(interval) && iterationCount == old(iterationCount)
    {
      this.enabled := enabled;
    }

    method SetInterval(interval: int)
      modifies this
      ensures this.interval == interval
      ensures enabled == old(enabled) && iterationCount == old(iterationCount)
    {
      this.interval := interval;
    }

    /** The monitor's own onStop: it disables the loop. This is the only
        built-in hook that changes anything a run() reads. */
    method OnStop()
      modifies this
      ensures !enabled
      ensures interval == old(interval) && iterationCount == old(iterationCount)
    {
      enabled := false;
    }

    /** The loop body never ends the loop by itself, so a run ends only when
        something outside disables it. The model takes that to be the
        manager's onStop, arriving after `stopAfter` loop bodies have run.
        The callback is not guarded: if it throws, the exception leaves run()
        with the state still RUNNING. */
    method Run(stopAfter: nat) returns (outcome: Outcome, bodies: nat)
      requires !core.shouldPause || core.shouldStop
      modifies this, core
      ensures core.shouldStop == old(core.shouldStop) && core.shouldPause == old(core.shouldPause)
      ensures interval == old(interval)
      ensures iterationCount == old(iterationCount) + bodies
      ensures bodies <= stopAfter
      ensures old(core.shouldStop) || !old(enabled) ==> bodies == 0
      ensures forall k :: 1 <= k < bodies ==> Returned(callback, k)
      ensures outcome.Returns? ==> core.state == Finished && (core.shouldStop || !enabled)
      ensures outcome.Returns? ==> (enabled <==> old(enabled) && bodies < stopAfter)
      ensures outcome.Returns? && bodies > 0 ==> Returned(callback, bodies)
      ensures outcome.Throws? ==> core.state == Running && bodies > 0 && enabled == old(enabled)
                                  && callback.Some? && callback.value(bodies) == outcome
      ensures !old(core.shouldStop) && old(enabled) && (forall k :: 1 <= k <= stopAfter ==> Returned(callback, k))
              ==> outcome == Returns && bodies == stopAfter
    {
      core.SetState(Running);
      outcome, bodies := Returns, 0;
      if stopAfter == 0 {
        OnStop();
      }
      var goOn := core.ShouldContinue();
      while goOn && enabled
        invariant core.shouldStop == old(core.shouldStop) && core.shouldPause == old(core.shouldPause)
        invariant goOn <==> !core.shouldStop
        invariant core.state == Running && interval == old(interval)
        invariant bodies <= stopAfter && (enabled <==> old(enabled) && bodies < stopAfter)
        invariant iterationCount == old(iterationCount) + bodies
        invariant old(core.shouldStop) || !old(enabled) ==> bodies == 0
        invariant forall k :: 1 <= k <= bodies ==> Returned(callback, k)
        decreases stopAfter - bodies
      {
        iterationCount := iterationCount + 1;
        bodies := bodies + 1;
        if callback.Some? && callback.value(bodies).Throws? {
          assert !Returned(callback, bodies);
          outcome := callback.value(bodies);
          return;
        }
        // Without a callback the default logic only prints; the sleep is left out.
        if bodies == stopAfter {
          OnStop();
        }
        goOn := core.ShouldContinue();
      }
      core.SetState(Finished);
    }
  }

  /** Runs one task once and records whether it returned normally. */
  class TaskWorker {
    const core: ThreadWorker
    const task: Option<Outcome>
    const description: string
    var completed: bool

    constructor (task: Option<Outcome>, description: string)
      ensures fresh(core) && core.state == Stopped && !core.shouldStop && !core.shouldPause
      ensures this.task == task && !completed
      ensures this.description == if description == "" then "Unnamed Task" else description
    {
      core := new ThreadWorker();
      this.task := task;
      this.description := if description == "" then "Unnamed Task" else description;
      completed := false;
    }

    function GetType(): (t: string)
      ensures t == "TaskWorker"
    {
      TaskType
    }

    /** The description is never empty: an empty one was replaced at
        construction. */
    function GetDescription(): (d: string)
      ensures d == description
    {
      description
    }

    /** A throwing task is reported to onError and the run still finishes. */
    method Run() returns (errors: seq<string>)
      modifies this, core
      ensures core.state == Finished
      ensures core.shouldStop == old(core.shouldStop) && core.shouldPause == old(core.shouldPause)
      ensures completed <==> old(completed) || task == Some(Returns)
      ensures errors == if task.Some? && task.value.Throws?
                        then ["Task execution failed: " + task.value.message] else []
    {
      core.SetState(Running);
      errors := [];
      if task.Some? {
        match task.value
        case Returns =>
          completed := true;
        case Throws(m) =>
          errors := ["Task execution failed: " + m];
          core.OnError(errors[0]);
      }
      core.SetState(Finished);
    }
  }

  /** The timer description's tail: " (max N triggers)" for a positive
      limit N, " (infinite)" otherwise. */
  function LimitText(maxTriggers: int): (t: string)
    ensures maxTriggers > 0 ==> Decimal.Framed(t, " (max ", maxTriggers, " triggers)")
    ensures maxTriggers <= 0 ==> t == " (infinite)"
  {
    if maxTriggers > 0 then
      Decimal.FramedConcat(" (max ", Decimal.IntToString(maxTriggers), maxTriggers, " triggers)");
      " (max " + Decimal.IntToString(maxTriggers) + " triggers)"
    else " (infinite)"
  }

  /** Where the timer description's two parts meet, and which suffix it has. */
  lemma TimerDescriptionSplit(head: string, tail: string, maxTriggers: int)
    requires maxTriggers > 0 ==> Decimal.Framed(tail, " (max ", maxTriggers, " triggers)")
    requires maxTriggers <= 0 ==> tail == " (infinite)"
    ensures (head + tail)[..|head|] == head && (head + tail)[|head|..] == tail
    ensures maxTriggers > 0 <==> (head + tail)[|head + tail| - 10..] == " triggers)"
    ensures maxTriggers <= 0 <==> (head + tail)[|head + tail| - 11..] == " (infinite)"
  {
    var d := head + tail;
    assert d[..|head|] == head && d[|head|..] == tail;
    assert d[|d| - 10..] == tail[|tail| - 10..];
    assert d[|d| - 11..] == tail[|tail| - 11..];
    if maxTriggers > 0 {
      assert tail[|tail| - 10..] == " triggers)";
      assert d[|d| - 11..][1] == ' ';
    } else {
      assert d[|d| - 10..][0] == '(';
    }
  }

  /** Fires a callback once per interval, up to `maxTriggers` times when that
      is positive, forever otherwise. */
  class TimerWorker {
    const core: ThreadWorker
    var interval: int  // milliseconds
    const callback: Option<int -> Outcome>
    var maxTriggers: int
    var triggerCount: int

    constructor (interval: int, callback: Option<int -> Outcome>, maxTriggers: int)
      ensures fresh(core) && core.state == Stopped && !core.shouldStop && !core.shouldPause
      ensures this.interval == interval && this.callback == callback
      ensures this.maxTriggers == maxTriggers && triggerCount == 0
    {
      core := new ThreadWorker();
      this.interval := interval;
      this.callback := callback;
      this.maxTriggers := maxTriggers;
      triggerCount := 0;
    }

    function GetType(): (t: string)
      ensures t == "TimerWorker"
    {
      TimerType
    }

    /** The description carries the interval, then the limit when there is
        one; the limit is spelled out exactly when it is positive. */
    function GetDescription(): (d: string)
      reads this
      ensures |d| > 11
      ensures exists k :: 0 <= k <= |d|
                && Decimal.Framed(d[..k], "Timer worker with ", interval, "ms interval")
                && (if maxTriggers > 0 then Decimal.Framed(d[k..], " (max ", maxTriggers, " triggers)")
                    else d[k..] == " (infinite)")
      ensures maxTriggers > 0 <==> d[|d| - 10..] == " triggers)"
      ensures maxTriggers <= 0 <==> d[|d| - 11..] == " (infinite)"
    {
      var numeral := Decimal.IntToString(interval);
      Decimal.FramedConcat("Timer worker with ", numeral, interval, "ms interval");
      var head := "Timer worker with " + numeral + "ms interval";
      var tail := LimitText(maxTriggers);
      TimerDescriptionSplit(head, tail, maxTriggers);
      head + tail
    }

    method SetMaxTriggers(maxTriggers: int)
      modifies this
      ensures this.maxTriggers == maxTriggers
      ensures interval == old(interval) && triggerCount == old(triggerCount)
    {
      this.maxTriggers := maxTriggers;
    }

    /** The trigger count is raised before the callback runs; a throwing
        callback is reported to onError and the timer goes on. With no limit
        and no stop request the loop never ends (no built-in hook raises the
        stop flag), so such a run is outside the model. */
    method Run() returns (triggers: seq<int>, errors: seq<string>)
      requires !core.shouldPause || core.shouldStop
      requires maxTriggers > 0 || core.shouldStop
      modifies this, core
      ensures core.state == Finished
      ensures core.shouldStop == old(core.shouldStop) && core.shouldPause == old(core.shouldPause)
      ensures interval == old(interval) && maxTriggers == old(maxTriggers)
      ensures core.shouldStop ==> triggerCount == old(triggerCount)
      ensures !core.shouldStop ==> triggerCount == Max(old(triggerCount), maxTriggers)
      ensures triggers == Range(old(triggerCount) + 1, triggerCount)
      ensures errors == FailureMessages("Timer callback failed: ", callback, old(triggerCount) + 1, triggerCount)
    {
      ghost var start := triggerCount;
      core.SetState(Running);
      triggers, errors := [], [];
      var goOn := core.ShouldContinue();
      while goOn
        invariant core.shouldStop == old(core.shouldStop) && core.shouldPause == old(core.shouldPause)
        invariant goOn <==> !core.shouldStop
        invariant core.state == Running
        invariant interval == old(interval) && maxTriggers == old(maxTriggers)
        invariant core.shouldStop ==> triggerCount == start
        invariant start <= triggerCount <= Max(start, maxTriggers)
        invariant triggers == Range(start + 1, triggerCount)
        invariant errors == FailureMessages("Timer callback failed: ", callback, start + 1, triggerCount)
        decreases Max(start, maxTriggers) - triggerCount
      {
        if maxTriggers > 0 && triggerCount >= maxTriggers {
          break;
        }
        // The sleep between triggers is left out.
        goOn := core.ShouldContinue();
        if !goOn {
          break;
        }
        FailureMessagesStep("Timer callback failed: ", callback, start + 1, triggerCount);
        triggerCount := triggerCount + 1;
        triggers := triggers + [triggerCount];
        if callback.Some? {
          match callback.value(triggerCount)
          case Returns =>
          case Throws(m) =>
            errors := errors + ["Timer callback failed: " + m];
            core.OnError("Timer callback failed: " + m);
        }
        goOn := core.ShouldContinue();
      }
      core.SetState(Finished);
    }
  }

  /** Calls a callback with 1, 2, ..., loopCount, between an optional start
      and an optional end callback. */
  class LoopWorker {
    const core: ThreadWorker
    const loopCount: int
    const loopCallback: Option<int -> Outcome>
    const startCallback: Option<Outcome>
    const endCallback: Option<Outcome>
    var currentLoop: int

    constructor (loopCount: int, loopCallback: Option<int -> Outcome>,
                 startCallback: Option<Outcome>, endCallback: Option<Outcome>)
      ensures fresh(core) && core.state == Stopped && !core.shouldStop && !core.shouldPause
      ensures this.loopCount == loopCount && this.loopCallback == loopCallback
      ensures this.startCallback == startCallback && this.endCallback == endCallback
      ensures currentLoop == 0
    {
      core := new ThreadWorker();
      this.loopCount := loopCount;
      this.loopCallback := loopCallback;
      this.startCallback := startCallback;
      this.endCallback := endCallback;
      currentLoop := 0;
    }

    function GetType(): (t: string)
      ensures t == "LoopWorker"
    {
      LoopType
    }

    /** The description carries the loop count. */
    function GetDescription(): (d: string)
      ensures Decimal.Framed(d, "Loop worker with ", loopCount, " iterations")
    {
      Decimal.FramedConcat("Loop worker with ", Decimal.IntToString(loopCount), loopCount, " iterations");
      "Loop worker with " + Decimal.IntToString(loopCount) + " iterations"
    }

    /** Only the loop callback is guarded: a throwing start or end callback
        leaves run() with the state still RUNNING. `loops` lists the values
        the loop counter took, in order. */
    method Run() returns (outcome: Outcome, loops: seq<int>, errors: seq<string>)
      requires !core.shouldPause || core.shouldStop
      modifies this, core
      ensures core.shouldStop == old(core.shouldStop) && core.shouldPause == old(core.shouldPause)
      ensures startCallback.Some? && startCallback.value.Throws? ==>
                outcome == startCallback.value && loops == [] && errors == []
                && core.state == Running && currentLoop == old(currentLoop)
      ensures !(startCallback.Some? && startCallback.value.Throws?) ==>
                && loops == (if core.shouldStop then [] else Range(1, loopCount))
                && errors == FailureMessages("Loop callback failed: ", loopCallback, 1, |loops|)
                && currentLoop == (if |loops| > 0 then loopCount else old(currentLoop))
                && outcome == (if endCallback.Some? then endCallback.value else Returns)
                && core.state == (if outcome.Returns? then Finished else Running)
    {
      core.SetState(Running);
      loops, errors := [], [];
      if startCallback.Some? && startCallback.value.Throws? {
        outcome := startCallback.value;
        return;
      }
      var i := 1;
      while i <= loopCount
        invariant core.shouldStop == old(core.shouldStop) && core.shouldPause == old(core.shouldPause)
        invariant core.state == Running
        invariant 1 <= i <= Max(loopCount, 0) + 1
        invariant core.shouldStop ==> i == 1
        invariant loops == Range(1, i - 1)
        invariant errors == FailureMessages("Loop callback failed: ", loopCallback, 1, i - 1)
        invariant currentLoop == if i > 1 then i - 1 else old(currentLoop)
        decreases loopCount - i
      {
        var goOn := core.ShouldContinue();
        if !goOn {
          break;
        }
        FailureMessagesStep("Loop callback failed: ", loopCallback, 1, i - 1);
        currentLoop := i;
        loops := loops + [i];
        if loopCallback.Some? {
          match loopCallback.value(i)
          case Returns =>
          case Throws(m) =>
            errors := errors + ["Loop callback failed: " + m];
            core.OnError("Loop callback failed: " + m);
        }
        i := i + 1;
      }
      if endCallback.Some? && endCallback.value.Throws? {
        outcome := endCallback.value;
        return;
      }
      outcome := Returns;
      core.SetState(Finished);
    }
  }

  /** A timer limited to five triggers, run without a stop request, fires
      exactly five times, numbered 1 to 5. */
  method FiveTriggerTimer(callback: Option<int -> Outcome>) returns (count: int, triggers: seq<int>, finished: bool)
    ensures count == 5 && triggers == [1, 2, 3, 4, 5] && finished
  {
    var timer := new TimerWorker(800, callback, 5);
    var errors;
    triggers, errors := timer.Run();
    count := timer.triggerCount;
    finished := timer.core.IsFinished();
  }
}
