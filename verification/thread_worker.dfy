/** The worker contract: the four-valued thread state, the state field and
    the two cooperative flags every worker carries, the state predicates,
    setState, the continuation check, the default lifecycle hooks, and the
    factory's default configuration check. */
module Workers {

  /** The lifecycle state of a worker. */
  datatype ThreadState = Stopped | Running | Paused | Finished

  datatype Option<T> = None | Some(value: T)

  /** How a call into code outside the model ended: it returned normally, or
      it threw a std::exception whose what() text is `message`. */
  datatype Outcome = Returns | Throws(message: string)

  /** A factory registered with the manager. Its createWorker() is code
      outside the model; what one call returns is given to the manager as a
      parameter. */
  datatype Factory = Factory(factoryType: string)

  /** The state and flags that the base class gives every worker. A concrete
      worker holds one of these as its `core`. */
  class ThreadWorker {
    var state: ThreadState
    var shouldStop: bool
    var shouldPause: bool

    /** A new worker is STOPPED and neither flag is raised. */
    constructor ()
      ensures state == Stopped && !shouldStop && !shouldPause
    {
      state := Stopped;
      shouldStop := false;
      shouldPause := false;
    }

    function GetState(): ThreadState
      reads this
    {
      state
    }

    predicate IsRunning() reads this { state == Running }
    predicate IsPaused() reads this { state == Paused }
    predicate IsStopped() reads this { state == Stopped }
    predicate IsFinished() reads this { state == Finished }

    /** Any state may follow any other: FINISHED is not enforced as terminal. */
    method SetState(newState: ThreadState)
      modifies this
      ensures GetState() == newState
      ensures shouldStop == old(shouldStop) && shouldPause == old(shouldPause)
    {
      state := newState;
    }

    /** The continuation check. While the pause flag is up and the stop flag
        is down the source sleeps and polls; no step of this sequential model
        can change the flags during that wait, so only the calls that do not
        wait are modelled. The answer is "go on" exactly when no stop has been
        requested. */
    method ShouldContinue() returns (goOn: bool)
      requires !shouldPause || shouldStop
      ensures goOn <==> !shouldStop
    {
      goOn := !shouldStop;
    }

    // The default hooks do nothing. A concrete worker may override them,
    // which is why each is allowed to change the worker; none of the base
    // versions sets shouldStop or shouldPause.

    method OnInitialize()
      modifies this
      ensures unchanged(this)
    {
    }

    method OnStart()
      modifies this
      ensures unchanged(this)
    {
    }

    method OnStop()
      modifies this
      ensures unchanged(this)
    {
    }

    method OnPause()
      modifies this
      ensures unchanged(this)
    {
    }

    method OnResume()
      modifies this
      ensures unchanged(this)
    {
    }

    method OnError(error: string)
      modifies this
      ensures unchanged(this)
    {
    }
  }

  /** Exactly one of the four state predicates holds, and each is the
      comparison of getState() with its own value. */
  lemma ExactlyOneStatePredicate(w: ThreadWorker)
    ensures w.IsRunning() <==> w.GetState() == Running
    ensures w.IsPaused() <==> w.GetState() == Paused
    ensures w.IsStopped() <==> w.GetState() == Stopped
    ensures w.IsFinished() <==> w.GetState() == Finished
    ensures (if w.IsRunning() then 1 else 0) + (if w.IsPaused() then 1 else 0)
          + (if w.IsStopped() then 1 else 0) + (if w.IsFinished() then 1 else 0) == 1
  {
  }

  /** The default description: the worker's type name followed by " worker". */
  function DefaultDescription(typeName: string): (d: string)
    ensures |d| == |typeName| + 7
    ensures d[..|typeName|] == typeName && d[|typeName|..] == " worker"
  {
    typeName + " worker"
  }

  /** A factory supports every configuration unless it says otherwise. */
  function SupportsConfig(factory: Factory, config: string): (supported: bool)
    ensures supported
  {
    true
  }
}
