/** The thread manager's bookkeeping: the factory table, the entry table,
    the thread cap and the id counter, with the creation, control, cleanup
    and query operations, as a sequential state machine.

    The operating-system threads are abstracted away. The body of the thread
    that startWorker spawns becomes three events the model can fire in
    order: ThreadBegins, any number of WorkerSetsState, and ThreadEnds.
    Joining a thread is a no-op on this state. */
module Manager {
  import opened Workers
  import Decimal

  /** The failure sentinel of the creation calls (SIZE_MAX of a 64-bit size_t). */
  const SIZE_MAX: nat := 0xFFFF_FFFF_FFFF_FFFF

  /** A lifecycle hook the manager calls on a worker. */
  datatype Hook = Initialize | Start | Stop | Pause | Resume | Error(message: string)

  /** What the manager sees of a worker it owns: the type name getType()
      reports, the state getState() reports, and the hooks it has been sent,
      oldest first. Hooks are virtual and may be overridden by any worker, so
      the model records them instead of interpreting them. Each worker is
      owned by exactly one entry, so it is a value here. */
  datatype ManagedWorker = ManagedWorker(typeName: string, state: ThreadState, received: seq<Hook>)

  /** One entry of the table. The thread handle and the start time are left out. */
  datatype ThreadInfo = ThreadInfo(name: string, worker: ManagedWorker, running: bool)

  /** Calls `hook` on the entry's worker; nothing else about the entry changes. */
  function Signal(info: ThreadInfo, hook: Hook): (r: ThreadInfo)
    ensures r.worker.received == info.worker.received + [hook]
    ensures r.worker.typeName == info.worker.typeName && r.worker.state == info.worker.state
    ensures r.name == info.name && r.running == info.running
  {
    info.(worker := info.worker.(received := info.worker.received + [hook]))
  }

  /** The entry startWorker stores. It is default-constructed and only the
      worker (and the start time) are copied into it, so its name is empty
      whatever name the caller gave, and it is not yet running. The worker
      has had onInitialize called. */
  function Started(worker: ManagedWorker): (info: ThreadInfo)
    ensures info.name == "" && !info.running
    ensures info.worker.received == worker.received + [Initialize]
    ensures info.worker.typeName == worker.typeName && info.worker.state == worker.state
  {
    ThreadInfo("", worker.(received := worker.received + [Initialize]), false)
  }

  /** Counted by getActiveThreadCount. */
  predicate Active(info: ThreadInfo) {
    info.worker.state == Running || info.worker.state == Paused
  }

  /** Removed by the cleanup: the thread no longer runs and the worker is FINISHED. */
  predicate Reclaimable(info: ThreadInfo) {
    !info.running && info.worker.state == Finished
  }

  predicate NoneRunning(t: map<nat, ThreadInfo>) {
    forall id :: id in t ==> !t[id].running
  }

  /** The creation calls refuse when a cap is set and already reached. */
  predicate CapReached(count: nat, cap: nat) {
    cap > 0 && count >= cap
  }

  function ActiveIds(t: map<nat, ThreadInfo>): set<nat> {
    set id | id in t && Active(t[id])
  }

  /** The table after cleanup: exactly the reclaimable entries are gone and
      every other entry is kept as it was. */
  function Cleaned(t: map<nat, ThreadInfo>): (r: map<nat, ThreadInfo>)
    ensures forall id :: id in r <==> id in t && !Reclaimable(t[id])
    ensures forall id :: id in r ==> r[id] == t[id]
    ensures NoneRunning(t) ==> forall id :: id in r ==> r[id].worker.state != Finished
  {
    map id | id in t && !Reclaimable(t[id]) :: t[id]
  }

  /** The table after `hook` has been called once on every entry's worker. */
  function AllSignalled(t: map<nat, ThreadInfo>, hook: Hook): (r: map<nat, ThreadInfo>)
    ensures r.Keys == t.Keys
    ensures forall id :: id in t ==> r[id] == Signal(t[id], hook)
  {
    map id | id in t :: Signal(t[id], hook)
  }

  function StateName(s: ThreadState): string {
    match s
    case Running => "RUNNING"
    case Stopped => "STOPPED"
    case Paused => "PAUSED"
    case Finished => "FINISHED"
  }

  /** Different states print differently. */
  lemma StateNameInjective(a: ThreadState, b: ThreadState)
    ensures StateName(a) == StateName(b) ==> a == b
  {
  }

  /** "<name> [<type>]: <STATE>". */
  function StatusLine(info: ThreadInfo): (s: string)
    ensures |s| == |info.name| + |info.worker.typeName| + 5 + |StateName(info.worker.state)|
    ensures s[..|info.name|] == info.name
    ensures s[|info.name|..|info.name| + 2] == " ["
    ensures s[|info.name| + 2..|info.name| + 2 + |info.worker.typeName|] == info.worker.typeName
    ensures s[|info.name| + 2 + |info.worker.typeName|..|info.name| + 5 + |info.worker.typeName|] == "]: "
    ensures s[|s| - |StateName(info.worker.state)|..] == StateName(info.worker.state)
  {
    var head := info.name + " [" + info.worker.typeName + "]: ";
    var s := head + StateName(info.worker.state);
    assert s[..|info.name|] == info.name;
    assert s[|info.name| + 2 + |info.worker.typeName|..|info.name| + 5 + |info.worker.typeName|] == "]: ";
    s
  }

  /** For entries with the same name and type, the status line tells the
      state: the line differs whenever the state does. */
  lemma StatusLineDeterminesState(a: ThreadInfo, b: ThreadInfo)
    requires a.name == b.name && a.worker.typeName == b.worker.typeName
    requires StatusLine(a) == StatusLine(b)
    ensures a.worker.state == b.worker.state
  {
    var head := a.name + " [" + a.worker.typeName + "]: ";
    assert StatusLine(a) == head + StateName(a.worker.state);
    assert StatusLine(b) == head + StateName(b.worker.state);
    assert StatusLine(a)[|head|..] == StateName(a.worker.state);
    assert StatusLine(b)[|head|..] == StateName(b.worker.state);
    StateNameInjective(a.worker.state, b.worker.state);
  }

  lemma MapRemoveSize(t: map<nat, ThreadInfo>, id: nat)
    requires id in t
    ensures |t - {id}| == |t| - 1
  {
    assert (t - {id}).Keys == t.Keys - {id};
  }

  /** The status lines of all entries, one per entry, in no particular
      order (the table is an unordered map). */
  ghost function StatusBag(t: map<nat, ThreadInfo>): multiset<string>
    decreases |t|
  {
    if t == map[] then multiset{}
    else
      assert exists id :: id in t by {
        assert t.Keys != {};
      }
      var id :| id in t;
      MapRemoveSize(t, id);
      StatusBag(t - {id}) + multiset{StatusLine(t[id])}
  }

  lemma StatusBagChoice(t: map<nat, ThreadInfo>) returns (j: nat)
    requires t != map[]
    ensures j in t && StatusBag(t) == StatusBag(t - {j}) + multiset{StatusLine(t[j])}
  {
    j :| j in t && StatusBag(t) == StatusBag(t - {j}) + multiset{StatusLine(t[j])};
  }

  /** Any entry may be listed first: the bag does not depend on the order. */
  lemma {:induction false} StatusBagPick(t: map<nat, ThreadInfo>, id: nat)
    requires id in t
    ensures StatusBag(t) == StatusBag(t - {id}) + multiset{StatusLine(t[id])}
    decreases |t|
  {
    var j: nat := StatusBagChoice(t);
    if j != id {
      var withoutJ := t - {j};
      var withoutId := t - {id};
      var withoutBoth := withoutJ - {id};
      assert withoutBoth == withoutId - {j};
      assert withoutJ[id] == t[id] && withoutId[j] == t[j];
      MapRemoveSize(t, j);
      MapRemoveSize(t, id);
      StatusBagPick(withoutJ, id);
      StatusBagPick(withoutId, j);
      calc {
        StatusBag(t);
        StatusBag(withoutJ) + multiset{StatusLine(t[j])};
        StatusBag(withoutBoth) + multiset{StatusLine(t[id])} + multiset{StatusLine(t[j])};
        StatusBag(withoutBoth) + multiset{StatusLine(t[j])} + multiset{StatusLine(t[id])};
        StatusBag(withoutId) + multiset{StatusLine(t[id])};
      }
    }
  }

  /** There are exactly as many status lines as entries. */
  lemma {:induction false} StatusBagSize(t: map<nat, ThreadInfo>)
    ensures |StatusBag(t)| == |t|
    decreases |t|
  {
    if t != map[] {
      var id :| id in t;
      StatusBagPick(t, id);
      MapRemoveSize(t, id);
      StatusBagSize(t - {id});
    }
  }

  /** Cleanup never removes an active entry, so it leaves the active count alone. */
  lemma CleanedKeepsActive(t: map<nat, ThreadInfo>)
    ensures ActiveIds(Cleaned(t)) == ActiveIds(t)
  {
  }

  /** A second cleanup right after the first removes nothing. */
  lemma CleanedIdempotent(t: map<nat, ThreadInfo>)
    ensures Cleaned(Cleaned(t)) == Cleaned(t)
  {
  }

  /** The active entries are some of the entries. */
  lemma ActiveWithinTotal(t: map<nat, ThreadInfo>)
    ensures |ActiveIds(t)| <= |t|
  {
    SubsetSize(ActiveIds(t), t.Keys);
  }

  lemma {:induction false} SubsetSize(a: set<nat>, b: set<nat>)
    requires a <= b
    ensures |a| <= |b|
    decreases b
  {
    if a != {} {
      var x :| x in a;
      SubsetSize(a - {x}, b - {x});
    }
  }

  class ThreadManager {
    var factories: map<string, Factory>
    var threads: map<nat, ThreadInfo>
    var maxThreads: nat  // 0 means no cap
    var nextId: nat

    /** The counter starts at 1 and only grows, and every id in the table was
        taken from it, so the next id is fresh. */
    ghost predicate Valid()
      reads this
    {
      1 <= nextId && forall id :: id in threads ==> 1 <= id < nextId
    }

    constructor (maxThreads: nat)
      ensures Valid()
      ensures factories == map[] && threads == map[]
      ensures this.maxThreads == maxThreads && nextId == 1
    {
      factories := map[];
      threads := map[];
      this.maxThreads := maxThreads;
      nextId := 1;
    }

    /** A type already registered keeps its factory. */
    method AddFactory(factory: Factory, typeName: string) returns (added: bool)
      requires Valid()
      modifies this
      ensures Valid()
      ensures added <==> typeName !in old(factories)
      ensures factories == if added then old(factories)[typeName := factory] else old(factories)
      ensures threads == old(threads) && maxThreads == old(maxThreads) && nextId == old(nextId)
    {
      if typeName in factories {
        return false;
      }
      factories := factories[typeName := factory];
      return true;
    }

    /** `made` is what the factory's createWorker() returns if it is called;
        `consulted` tells whether it was. The cap is checked first, so a full
        table never reaches the factory. An empty `name` asks for the default
        name "<type>_<n>", which takes one more id from the counter: the id
        returned is then one past n. */
    method CreateThread(typeName: string, name: string, made: Option<ManagedWorker>)
      returns (id: nat, consulted: bool)
      requires Valid()
      modifies this
      ensures Valid()
      ensures factories == old(factories) && maxThreads == old(maxThreads)
      ensures consulted <==> typeName in factories && !CapReached(|old(threads)|, maxThreads)
      ensures !consulted || made.None? ==>
                id == SIZE_MAX && threads == old(threads) && nextId == old(nextId)
      ensures consulted && made.Some? ==>
                && id == old(nextId) + (if name == "" then 1 else 0)
                && nextId == id + 1
                && id !in old(threads)
                && threads == old(threads)[id := Started(made.value)]
      ensures maxThreads > 0 && |old(threads)| <= maxThreads ==> |threads| <= maxThreads
    {
      if typeName !in factories {
        return SIZE_MAX, false;
      }
      // The source reads the table size here without holding its lock.
      if CapReached(|threads|, maxThreads) {
        return SIZE_MAX, false;
      }
      consulted := true;
      if made.None? {
        return SIZE_MAX, true;
      }
      var threadName := name;
      if name == "" {
        threadName := typeName + "_" + Decimal.NatToString(nextId);
        nextId := nextId + 1;
      }
      id := StartWorker(made.value, threadName);
    }

    /** As CreateThread, with the worker supplied by the caller (None is a
        null pointer). The default name uses the worker's type, read before
        the worker is handed over. */
    method CreateThreadWithWorker(worker: Option<ManagedWorker>, name: string) returns (id: nat)
      requires Valid()
      modifies this
      ensures Valid()
      ensures factories == old(factories) && maxThreads == old(maxThreads)
      ensures worker.None? || CapReached(|old(threads)|, maxThreads) ==>
                id == SIZE_MAX && threads == old(threads) && nextId == old(nextId)
      ensures worker.Some? && !CapReached(|old(threads)|, maxThreads) ==>
                && id == old(nextId) + (if name == "" then 1 else 0)
                && nextId == id + 1
                && id !in old(threads)
                && threads == old(threads)[id := Started(worker.value)]
      ensures maxThreads > 0 && |old(threads)| <= maxThreads ==> |threads| <= maxThreads
    {
      if worker.None? {
        return SIZE_MAX;
      }
      // The source reads the table size here without holding its lock.
      if CapReached(|threads|, maxThreads) {
        return SIZE_MAX;
      }
      var threadName := name;
      if name == "" {
        threadName := worker.value.typeName + "_" + Decimal.NatToString(nextId);
        nextId := nextId + 1;
      }
      id := StartWorker(worker.value, threadName);
    }

    /** Takes the next id, calls onInitialize, and stores the entry. The
        returned id is fresh and larger than every id handed out before. The
        spawned thread is modelled by ThreadBegins and ThreadEnds. */
    method StartWorker(worker: ManagedWorker, name: string) returns (id: nat)
      requires Valid()
      modifies this
      ensures Valid()
      ensures id == old(nextId) && nextId == id + 1
      ensures id !in old(threads) && forall k :: k in old(threads) ==> k < id
      ensures threads == old(threads)[id := Started(worker)]
      ensures |threads| == |old(threads)| + 1
      ensures factories == old(factories) && maxThreads == old(maxThreads)
    {
      id := nextId;
      nextId := nextId + 1;
      var initialized := worker.(received := worker.received + [Initialize]);
      // The entry is default-constructed: `name` is not copied into it.
      threads := threads[id := ThreadInfo("", initialized, false)];
      assert threads.Keys == old(threads).Keys + {id};
    }

    /** The first event of a spawned thread: it finds its entry, marks it
        running and calls onStart. A thread that does not find its entry does
        nothing. Each spawned thread fires this at most once, before its
        ThreadEnds; the model does not enforce that order, and its contracts
        hold for any order of events. */
    method ThreadBegins(threadId: nat)
      requires Valid()
      modifies this
      ensures Valid()
      ensures threads == if threadId in old(threads)
                         then old(threads)[threadId := Signal(old(threads)[threadId], Start).(running := true)]
                         else old(threads)
      ensures factories == old(factories) && maxThreads == old(maxThreads) && nextId == old(nextId)
    {
      if threadId in threads {
        var info := threads[threadId];
        threads := threads[threadId := Signal(info.(running := true), Start)];
      }
    }

    /** The worker's own run() calling setState on its thread. The manager
        never writes a state itself. */
    method WorkerSetsState(threadId: nat, newState: ThreadState)
      requires Valid() && threadId in threads
      modifies this
      ensures Valid()
      ensures threads == old(threads)[threadId := old(threads)[threadId].(worker := old(threads)[threadId].worker.(state := newState))]
      ensures factories == old(factories) && maxThreads == old(maxThreads) && nextId == old(nextId)
    {
      var info := threads[threadId];
      threads := threads[threadId := info.(worker := info.worker.(state := newState))];
    }

    /** The last event of a thread that has begun: run() has returned or
        thrown; a std::exception goes to onError. Then the entry stops
        running, whatever state the worker is in. */
    method ThreadEnds(threadId: nat, outcome: Outcome)
      requires Valid() && threadId in threads && threads[threadId].running
      modifies this
      ensures Valid()
      ensures threads == old(threads)[threadId :=
                (if outcome.Throws? then Signal(old(threads)[threadId], Error(outcome.message))
                 else old(threads)[threadId]).(running := false)]
      ensures factories == old(factories) && maxThreads == old(maxThreads) && nextId == old(nextId)
    {
      var info := threads[threadId];
      if outcome.Throws? {
        info := Signal(info, Error(outcome.message));
      }
      threads := threads[threadId := info.(running := false)];
    }

    /** Calls onStop on a known id and keeps its entry; joining the thread is
        not modelled. */
    method StopThread(threadId: nat) returns (stopped: bool)
      requires Valid()
      modifies this
      ensures Valid()
      ensures stopped <==> threadId in old(threads)
      ensures threads == if stopped then old(threads)[threadId := Signal(old(threads)[threadId], Stop)]
                         else old(threads)
      ensures factories == old(factories) && maxThreads == old(maxThreads) && nextId == old(nextId)
    {
      if threadId !in threads {
        return false;
      }
      threads := threads[threadId := Signal(threads[threadId], Stop)];
      return true;
    }

    /** Succeeds, and calls onPause, exactly when the id is known and its
        worker is RUNNING; otherwise nothing changes. */
    method PauseThread(threadId: nat) returns (paused: bool)
      requires Valid()
      modifies this
      ensures Valid()
      ensures paused <==> threadId in old(threads) && old(threads)[threadId].worker.state == Running
      ensures threads == if paused then old(threads)[threadId := Signal(old(threads)[threadId], Pause)]
                         else old(threads)
      ensures factories == old(factories) && maxThreads == old(maxThreads) && nextId == old(nextId)
    {
      if threadId !in threads {
        return false;
      }
      if threads[threadId].worker.state == Running {
        threads := threads[threadId := Signal(threads[threadId], Pause)];
        return true;
      }
      return false;
    }

    /** Succeeds, and calls onResume, exactly when the id is known and its
        worker is PAUSED; otherwise nothing changes. */
    method ResumeThread(threadId: nat) returns (resumed: bool)
      requires Valid()
      modifies this
      ensures Valid()
      ensures resumed <==> threadId in old(threads) && old(threads)[threadId].worker.state == Paused
      ensures threads == if resumed then old(threads)[threadId := Signal(old(threads)[threadId], Resume)]
                         else old(threads)
      ensures factories == old(factories) && maxThreads == old(maxThreads) && nextId == old(nextId)
    {
      if threadId !in threads {
        return false;
      }
      if threads[threadId].worker.state == Paused {
        threads := threads[threadId := Signal(threads[threadId], Resume)];
        return true;
      }
      return false;
    }

    /** Calls onStop once on every entry's worker and joins nothing. */
    method StopAll()
      requires Valid()
      modifies this
      ensures Valid()
      ensures threads == AllSignalled(old(threads), Stop)
      ensures factories == old(factories) && maxThreads == old(maxThreads) && nextId == old(nextId)
    {
      ghost var start := threads;
      var pending := threads.Keys;
      while pending != {}
        invariant pending <= start.Keys && threads.Keys == start.Keys
        invariant forall id :: id in start ==>
                    threads[id] == if id in pending then start[id] else Signal(start[id], Stop)
        invariant factories == old(factories) && maxThreads == old(maxThreads) && nextId == old(nextId)
        decreases pending
      {
        var id :| id in pending;
        threads := threads[id := Signal(threads[id], Stop)];
        pending := pending - {id};
      }
    }

    /** The wait of waitForAll ends once no entry is running; the model takes
        the call at that moment, then performs the same cleanup. Afterwards no
        entry is running and none is FINISHED. */
    method WaitForAll()
      requires Valid() && NoneRunning(threads)
      modifies this
      ensures Valid()
      ensures threads == Cleaned(old(threads))
      ensures forall id :: id in threads ==> !threads[id].running && threads[id].worker.state != Finished
      ensures factories == old(factories) && maxThreads == old(maxThreads) && nextId == old(nextId)
    {
      var finished := AllThreadsFinished();
      assert finished;
      CleanupFinishedThreadsUnsafe();
    }

    /** Whether no entry is running. */
    method AllThreadsFinished() returns (finished: bool)
      ensures finished <==> NoneRunning(threads)
    {
      var pending := threads.Keys;
      while pending != {}
        invariant pending <= threads.Keys
        invariant forall id :: id in threads && id !in pending ==> !threads[id].running
        decreases pending
      {
        var id :| id in pending;
        if threads[id].running {
          return false;
        }
        pending := pending - {id};
      }
      return true;
    }

    method CleanupFinishedThreads()
      requires Valid()
      modifies this
      ensures Valid()
      ensures threads == Cleaned(old(threads))
      ensures factories == old(factories) && maxThreads == old(maxThreads) && nextId == old(nextId)
    {
      CleanupFinishedThreadsUnsafe();
    }

    /** Erases the reclaimable entries, one visited entry at a time; every
        other entry is kept unchanged. Joining is not modelled. */
    method CleanupFinishedThreadsUnsafe()
      requires Valid()
      modifies this
      ensures Valid()
      ensures threads == Cleaned(old(threads))
      ensures factories == old(factories) && maxThreads == old(maxThreads) && nextId == old(nextId)
    {
      ghost var start := threads;
      var pending := threads.Keys;
      while pending != {}
        invariant pending <= start.Keys
        invariant forall id :: id in threads <==> id in start && (id in pending || !Reclaimable(start[id]))
        invariant forall id :: id in threads ==> threads[id] == start[id]
        invariant factories == old(factories) && maxThreads == old(maxThreads) && nextId == old(nextId)
        decreases pending
      {
        var id :| id in pending;
        if Reclaimable(threads[id]) {
          threads := threads - {id};
        }
        pending := pending - {id};
      }
      assert threads == Cleaned(start);
    }

    /** The number of entries whose worker is RUNNING or PAUSED. */
    method GetActiveThreadCount() returns (count: nat)
      ensures count == |ActiveIds(threads)|
    {
      count := 0;
      var pending := threads.Keys;
      assert ActiveIds(threads) - pending == {};
      while pending != {}
        invariant pending <= threads.Keys
        invariant count == |ActiveIds(threads) - pending|
        decreases pending
      {
        var id :| id in pending;
        if Active(threads[id]) {
          assert ActiveIds(threads) - (pending - {id}) == (ActiveIds(threads) - pending) + {id};
          count := count + 1;
        } else {
          assert ActiveIds(threads) - (pending - {id}) == ActiveIds(threads) - pending;
        }
        pending := pending - {id};
      }
      assert ActiveIds(threads) - pending == ActiveIds(threads);
    }

    function GetTotalThreadCount(): (count: nat)
      reads this
      ensures count == |threads|
    {
      |threads|
    }

    /** The empty string for an unknown id, and only then. */
    function GetThreadStatus(threadId: nat): (status: string)
      reads this
      ensures status == "" <==> threadId !in threads
      ensures threadId in threads ==> status == StatusLine(threads[threadId])
    {
      if threadId !in threads then "" else StatusLine(threads[threadId])
    }

    /** One status line per entry. (The source takes the table lock here and
        again inside getThreadStatus, which deadlocks on its non-recursive
        mutex; the model gives the intended result.) */
    method GetAllThreadStatus() returns (statuses: seq<string>)
      ensures |statuses| == GetTotalThreadCount()
      ensures multiset(statuses) == StatusBag(threads)
    {
      statuses := [];
      var pending := threads;
      while pending != map[]
        invariant forall id :: id in pending ==> id in threads && pending[id] == threads[id]
        invariant |statuses| + |pending| == |threads|
        invariant multiset(statuses) + StatusBag(pending) == StatusBag(threads)
        decreases |pending|
      {
        var id :| id in pending;
        StatusBagPick(pending, id);
        MapRemoveSize(pending, id);
        statuses := statuses + [GetThreadStatus(id)];
        pending := pending - {id};
      }
    }

    /** Changes the cap only; lowering it evicts nothing. */
    method SetMaxThreads(maxThreads: nat)
      requires Valid()
      modifies this
      ensures Valid()
      ensures this.maxThreads == maxThreads
      ensures threads == old(threads) && factories == old(factories) && nextId == old(nextId)
    {
      this.maxThreads := maxThreads;
    }

    function GetMaxThreads(): (cap: nat)
      reads this
      ensures cap == maxThreads
    {
      maxThreads
    }

    /** The destructor: stopAll, then waitForAll (whose wait is again taken
        as already over). */
    method Teardown()
      requires Valid() && NoneRunning(threads)
      modifies this
      ensures Valid()
      ensures threads == Cleaned(AllSignalled(old(threads), Stop))
      ensures factories == old(factories) && maxThreads == old(maxThreads) && nextId == old(nextId)
    {
      StopAll();
      WaitForAll();
    }
  }

  /** A cap of two admits two workers and refuses the third; control calls
      on unknown ids or on workers in the wrong state are refused. */
  method CapOfTwoScenario() returns (a: nat, b: nat, c: nat, total: nat, paused: bool, resumed: bool, stopped: bool)
    ensures a == 1 && b == 2 && c == SIZE_MAX && total == 2
    ensures !paused && !resumed && stopped
  {
    var manager := new ThreadManager(2);
    var idle := ManagedWorker("TaskWorker", Stopped, []);
    a := manager.CreateThreadWithWorker(Some(idle), "A");
    b := manager.CreateThreadWithWorker(Some(idle), "B");
    c := manager.CreateThreadWithWorker(Some(idle), "C");
    assert manager.threads.Keys == {1, 2};
    total := manager.GetTotalThreadCount();
    paused := manager.PauseThread(7);
    resumed := manager.ResumeThread(a);
    stopped := manager.StopThread(a);
  }

  /** Without a name, each creation takes two ids from the counter, and the
      entry is stored with an empty name. */
  method DefaultNameScenario() returns (first: nat, second: nat, storedName: string, missing: nat, consulted: bool)
    ensures first == 2 && second == 4 && storedName == ""
    ensures missing == SIZE_MAX && !consulted
  {
    var manager := new ThreadManager(0);
    var added := manager.AddFactory(Factory("T"), "T");
    var worker := ManagedWorker("T", Stopped, []);
    var ignored;
    first, ignored := manager.CreateThread("T", "", Some(worker));
    second, ignored := manager.CreateThread("T", "", Some(worker));
    storedName := manager.threads[first].name;
    missing, consulted := manager.CreateThread("U", "", Some(worker));
  }

}
