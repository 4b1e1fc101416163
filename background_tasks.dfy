/**
 * `BackgroundTaskManager`: the periodic collection loop.
 *
 * The manager keeps a running flag, the work item most recently handed to
 * the main queue, and the identifier of the background-execution grant it
 * holds. A firing takes a grant, runs one collection, releases the grant and
 * arms the next firing 60 seconds later.
 *
 * Time is an abstract clock; the main queue is the sequence of work items
 * ever handed to it; the operating system hands out fresh grant identifiers
 * and the fetch and the send are opaque outcomes. Asynchronous hops become
 * separate event methods: `Fire` (the queue runs the work item), `Finish`
 * (the collection task completes) and `Expire` (the grant's expiry handler).
 */
module BackgroundTasks {
  import opened Wrappers

  /** The default re-arm delay of `scheduleNextCollection`, in seconds. */
  const DefaultDelay: int := 60

  /** `UIBackgroundTaskIdentifier`: `.invalid` or a grant handed out by the system. */
  datatype GrantId = Invalid | Grant(id: nat)

  /** A `DispatchWorkItem` on the main queue. */
  datatype WorkItem = WorkItem(due: int, cancelled: bool, started: bool)

  /** An item the queue will still run once it is due. */
  predicate Live(w: WorkItem) {
    !w.cancelled && !w.started
  }

  /** At most one item is live, and it is the one `next` refers to. */
  predicate LiveOnlyAt(items: seq<WorkItem>, next: Option<nat>) {
    forall i :: 0 <= i < |items| && Live(items[i]) ==> next == Some(i)
  }

  // ------------------------------------------------------------ scheduling

  /** The body of `scheduleNextCollection` past its guard: cancel the
      previously installed item, then install a fresh one due at `due`. */
  function Arm(items: seq<WorkItem>, next: Option<nat>, due: int): (r: (seq<WorkItem>, Option<nat>))
    requires next.Some? ==> next.value < |items|
    ensures |r.0| == |items| + 1 && r.1 == Some(|items|) && Live(r.0[|items|])
    ensures next.Some? ==> !Live(r.0[next.value])
  {
    var cancelled := if next.Some? then items[next.value := items[next.value].(cancelled := true)] else items;
    (cancelled + [WorkItem(due, false, false)], Some(|items|))
  }

  /** Arming cancels whatever was live and leaves exactly one live item, the
      new one, due at `due`; no other item changes except for being cancelled. */
  lemma ArmLeavesOneLive(items: seq<WorkItem>, next: Option<nat>, due: int)
    requires next.Some? ==> next.value < |items|
    requires LiveOnlyAt(items, next)
    ensures var (items', next') := Arm(items, next, due);
      |items'| == |items| + 1 && next' == Some(|items|) &&
      items'[|items|] == WorkItem(due, false, false) &&
      LiveOnlyAt(items', next') &&
      (forall i :: 0 <= i < |items| ==> !Live(items'[i])) &&
      (forall i :: 0 <= i < |items| ==>
         items'[i].due == items[i].due && items'[i].started == items[i].started &&
         (items'[i].cancelled <==> items[i].cancelled || next == Some(i)))
  {
  }

  // ---------------------------------------------------------------- grants

  /** `endBackgroundTask`: release the held grant, if any, and forget it.
      The second component is the log of identifiers passed to the system. */
  function EndTask(g: GrantId, log: seq<nat>): (r: (GrantId, seq<nat>))
    ensures r.0 == Invalid
    ensures |r.1| == |log| + (if g.Grant? then 1 else 0) && r.1[..|log|] == log
  {
    if g != Invalid then (Invalid, log + [g.id]) else (Invalid, log)
  }

  /** Ending is idempotent, and releases exactly the grant held, if any. */
  lemma EndTaskIdempotent(g: GrantId, log: seq<nat>)
    ensures EndTask(EndTask(g, log).0, EndTask(g, log).1) == EndTask(g, log)
    ensures EndTask(g, log).0 == Invalid
    ensures g.Grant? ==> EndTask(g, log).1 == log + [g.id]
    ensures g == Invalid ==> EndTask(g, log).1 == log
  {
  }

  /** The expiry handler and the completion path together release a grant once:
      whichever order they run in, the log grows by the one held identifier. */
  lemma ExpiryAndCompletionReleaseOnce(g: GrantId, log: seq<nat>)
    requires g.Grant?
    ensures var afterFirst := EndTask(g, log);
      EndTask(afterFirst.0, afterFirst.1).1 == log + [g.id]
  {
  }

  // ------------------------------------------------------------ collection

  /** How one `startNewDataCollection` ended. Every case is caught: none escapes. */
  datatype CollectionResult = NoProject | FetchFailed(fetchError: string) | SendFailed(sendError: string) | Delivered

  /** `UserDefaults.integer(forKey: "lastProjectId")`: a missing key reads as 0. */
  function StoredProjectId(stored: Option<int>): (id: int)
    ensures stored.None? ==> id == 0
    ensures stored.Some? ==> id == stored.value
  {
    stored.GetOr(0)
  }

  /** `startNewDataCollection`: with project id 0 nothing is fetched; the
      send is attempted only after the fetch succeeded. */
  function Collect(stored: Option<int>, fetch: Outcome<string>, send: Outcome<string>): (r: CollectionResult)
    ensures r.FetchFailed? ==> fetch == Fail(r.fetchError)
    ensures r.SendFailed? ==> fetch.Pass? && send == Fail(r.sendError)
    ensures r.NoProject? <==> StoredProjectId(stored) == 0
  {
    if StoredProjectId(stored) == 0 then NoProject
    else match fetch
      case Fail(e) => FetchFailed(e)
      case Pass =>
        match send
        case Fail(e) => SendFailed(e)
        case Pass => Delivered
  }

  predicate FetchAttempted(r: CollectionResult) {
    !r.NoProject?
  }

  predicate SendAttempted(r: CollectionResult) {
    r.SendFailed? || r.Delivered?
  }

  lemma CollectNeedsProject(stored: Option<int>, fetch: Outcome<string>, send: Outcome<string>)
    ensures !FetchAttempted(Collect(stored, fetch, send)) <==> StoredProjectId(stored) == 0
    ensures stored == None ==> Collect(stored, fetch, send) == NoProject
  {
  }

  lemma CollectSendsOnlyAfterFetch(stored: Option<int>, fetch: Outcome<string>, send: Outcome<string>)
    ensures SendAttempted(Collect(stored, fetch, send)) <==> StoredProjectId(stored) != 0 && fetch.Pass?
    ensures Collect(stored, fetch, send) == Delivered <==>
      StoredProjectId(stored) != 0 && fetch.Pass? && send.Pass?
    ensures fetch.Fail? && StoredProjectId(stored) != 0 ==>
      Collect(stored, fetch, send) == FetchFailed(fetch.error)
  {
  }

  // --------------------------------------------------------------- manager

  class BackgroundTaskManager {
    /** The abstract clock, in seconds. */
    var now: int
    var isRunning: bool
    /** Every work item handed to the main queue, oldest first. */
    var items: seq<WorkItem>
    /** `nextCollectionWorkItem`, as an index into `items`. */
    var next: Option<nat>
    var backgroundTask: GrantId
    /** Collection tasks started by a firing and not yet finished. */
    var inFlight: nat
    /** How many grants the system has handed out; grant ids are 1..`issued`. */
    var issued: nat
    /** Identifiers passed to the system's `endBackgroundTask`, in order. */
    var released: seq<nat>
    /** Grants overwritten while still held: they are never released. */
    ghost var abandoned: seq<nat>

    ghost predicate Valid()
      reads this
    {
      && (next.Some? ==> next.value < |items|)
      && LiveOnlyAt(items, next)
      && (!isRunning ==> items == [] && next == None && inFlight == 0)
      && (inFlight == 0 ==> backgroundTask == Invalid)
      && (backgroundTask.Grant? ==> backgroundTask.id == issued)
      && (forall k :: 0 <= k < |released| ==> 1 <= released[k] <= issued)
      && (backgroundTask.Grant? ==> forall k :: 0 <= k < |released| ==> released[k] < issued)
      && (forall k, l :: 0 <= k < l < |released| ==> released[k] != released[l])
      && issued == |released| + |abandoned| + (if backgroundTask.Grant? then 1 else 0)
      && (forall l :: 0 <= l < |abandoned| ==> 1 <= abandoned[l] <= issued)
      && (backgroundTask.Grant? ==> forall l :: 0 <= l < |abandoned| ==> abandoned[l] < issued)
      && (forall k, l :: 0 <= k < |released| && 0 <= l < |abandoned| ==> released[k] != abandoned[l])
    }

    /** Only one collection is under way or pending at a time. */
    ghost predicate SingleLoop()
      reads this
    {
      inFlight + (if next.Some? && next.value < |items| && Live(items[next.value]) then 1 else 0) <= 1
    }

    /** Some item is live: the loop is armed. */
    ghost predicate Armed()
      reads this
    {
      next.Some? && next.value < |items| && Live(items[next.value])
    }

    constructor (start: int)
      ensures Valid() && SingleLoop()
      ensures now == start && !isRunning && items == [] && next == None
      ensures backgroundTask == Invalid && inFlight == 0 && issued == 0 && released == []
    {
      now := start;
      isRunning := false;
      items := [];
      next := None;
      backgroundTask := Invalid;
      inFlight := 0;
      issued := 0;
      released := [];
      abandoned := [];
    }

    /** The clock moves forward. */
    method AdvanceClock(t: int)
      requires Valid() && t >= now
      modifies this`now
      ensures Valid() && now == t
    {
      now := t;
    }

    /** `startBackgroundTaskWithDelay`. */
    method StartBackgroundTaskWithDelay()
      requires Valid()
      modifies this`isRunning, this`items, this`next
      ensures Valid() && isRunning
      ensures (items, next) == Arm(old(items), old(next), old(now) + DefaultDelay)
      ensures |items| == |old(items)| + 1 && next == Some(|old(items)|)
      ensures items[|old(items)|] == WorkItem(now + 60, false, false)
      ensures now == old(now) && backgroundTask == old(backgroundTask) && inFlight == old(inFlight)
      ensures issued == old(issued) && released == old(released) && abandoned == old(abandoned)
      ensures old(inFlight) == 0 ==> SingleLoop()
    {
      isRunning := true;
      ScheduleNextCollection(DefaultDelay);
    }

    /** `scheduleNextCollection(afterDelay:)`. */
    method ScheduleNextCollection(delay: int)
      requires Valid()
      modifies this`items, this`next
      ensures Valid()
      ensures !isRunning ==> items == old(items) && next == old(next)
      ensures isRunning ==> (items, next) == Arm(old(items), old(next), now + delay)
      ensures isRunning ==> Armed() && items[next.value].due == now + delay
    {
      if !isRunning {
        return;
      }
      ArmLeavesOneLive(items, next, now + delay);
      items, next := Arm(items, next, now + delay).0, Arm(items, next, now + delay).1;
    }

    /** The main queue runs the pending work item: it takes a fresh grant
        (`granted` is false when the system refuses one and answers `.invalid`)
        and starts the collection task. */
    method Fire(granted: bool)
      requires Valid() && Armed() && items[next.value].due <= now
      modifies this`items, this`backgroundTask, this`issued, this`inFlight, this`abandoned
      ensures Valid() && !Armed()
      ensures items == old(items)[old(next.value) := old(items[next.value]).(started := true)]
      ensures next == old(next) && now == old(now) && isRunning == old(isRunning)
      ensures backgroundTask == (if granted then Grant(old(issued) + 1) else Invalid)
      ensures issued == old(issued) + (if granted then 1 else 0)
      ensures inFlight == old(inFlight) + 1 && released == old(released)
      ensures abandoned == old(abandoned) + (if old(backgroundTask).Grant? then [old(backgroundTask).id] else [])
      ensures old(SingleLoop()) ==> SingleLoop() && inFlight == 1 && abandoned == old(abandoned)
    {
      var i := next.value;
      items := items[i := items[i].(started := true)];
      if backgroundTask.Grant? {
        abandoned := abandoned + [backgroundTask.id];
      }
      if granted {
        issued := issued + 1;
        backgroundTask := Grant(issued);
      } else {
        backgroundTask := Invalid;
      }
      inFlight := inFlight + 1;
    }

    /** The grant's expiry handler. */
    method Expire()
      requires Valid()
      modifies this`backgroundTask, this`released
      ensures Valid() && abandoned == old(abandoned)
      ensures (backgroundTask, released) == EndTask(old(backgroundTask), old(released))
      ensures items == old(items) && next == old(next) && inFlight == old(inFlight)
      ensures now == old(now) && isRunning == old(isRunning) && issued == old(issued)
      ensures old(SingleLoop()) ==> SingleLoop()
    {
      EndBackgroundTask();
    }

    /** The collection task completes: the collection runs against the stored
        project id and the two opaque outcomes, the grant is released and the
        next firing is armed, whatever the collection's result. */
    method Finish(stored: Option<int>, fetch: Outcome<string>, send: Outcome<string>)
      returns (result: CollectionResult)
      requires Valid() && inFlight > 0
      modifies this`items, this`next, this`backgroundTask, this`released, this`inFlight
      ensures Valid() && isRunning && Armed() && abandoned == old(abandoned)
      ensures result == Collect(stored, fetch, send)
      ensures (backgroundTask, released) == EndTask(old(backgroundTask), old(released))
      ensures (items, next) == Arm(old(items), old(next), now + DefaultDelay)
      ensures items[next.value].due == old(now) + 60
      ensures inFlight == old(inFlight) - 1 && now == old(now) && issued == old(issued)
      ensures old(SingleLoop()) ==> SingleLoop()
    {
      result := Collect(stored, fetch, send);
      EndBackgroundTask();
      inFlight := inFlight - 1;
      ScheduleNextCollection(DefaultDelay);
    }

    /** `deinit`: cancel the pending item and release the grant. The task of a
        running collection keeps the manager alive, so none is in flight. */
    method Deinit()
      requires Valid() && inFlight == 0
      modifies this`items, this`backgroundTask, this`released
      ensures Valid() && !Armed() && backgroundTask == Invalid
      ensures forall i :: 0 <= i < |items| ==> !Live(items[i])
      ensures items == if old(next).Some? then old(items)[old(next).value := old(items)[old(next).value].(cancelled := true)]
                       else old(items)
      ensures released == old(released)
    {
      if next.Some? {
        var i := next.value;
        items := items[i := items[i].(cancelled := true)];
      }
      EndBackgroundTask();
    }

    /** `endBackgroundTask`: release the held grant, if any, and forget it. */
    method EndBackgroundTask()
      requires Valid()
      modifies this`backgroundTask, this`released
      ensures Valid()
      ensures (backgroundTask, released) == EndTask(old(backgroundTask), old(released))
    {
      if backgroundTask != Invalid {
        released := released + [backgroundTask.id];
        backgroundTask := Invalid;
      }
    }
  }

  /** One turn of the loop from a fresh manager: start, let the first item
      come due, fire, optionally let the grant expire, and finish. Whatever
      the collection did, the next firing is due 60 seconds after this one,
      and the grant, if one was given, has been released exactly once. */
  method OneCycle(start: int, granted: bool, expireFirst: bool,
                  stored: Option<int>, fetch: Outcome<string>, send: Outcome<string>)
    returns (result: CollectionResult, nextDue: int, releasedIds: seq<nat>)
    ensures result == Collect(stored, fetch, send)
    ensures nextDue == start + 2 * DefaultDelay
    ensures releasedIds == (if granted then [1] else [])
  {
    var m := new BackgroundTaskManager(start);
    m.StartBackgroundTaskWithDelay();
    m.AdvanceClock(start + DefaultDelay);
    m.Fire(granted);
    if expireFirst {
      m.Expire();
    }
    result := m.Finish(stored, fetch, send);
    nextDue := m.items[m.next.value].due;
    releasedIds := m.released;
  }

  /** Starting the loop a second time while its first collection is still
      running: the second item fires before the first collection finishes,
      so grant 1 is overwritten by grant 2. Both collections then finish and
      only grant 2 is ever passed to `endBackgroundTask`: grant 1 leaks. */
  method DoubleStartLeaksGrant(start: int, stored: Option<int>, fetch: Outcome<string>, send: Outcome<string>)
    returns (issuedIds: nat, releasedIds: seq<nat>)
    ensures issuedIds == 2
    ensures releasedIds == [2]
  {
    var m := new BackgroundTaskManager(start);
    m.StartBackgroundTaskWithDelay();
    m.AdvanceClock(start + DefaultDelay);
    m.Fire(true);
    m.StartBackgroundTaskWithDelay();
    m.AdvanceClock(start + 2 * DefaultDelay);
    m.Fire(true);
    var r1 := m.Finish(stored, fetch, send);
    var r2 := m.Finish(stored, fetch, send);
    issuedIds := m.issued;
    releasedIds := m.released;
  }
}
