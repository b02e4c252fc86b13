/** The queue managers in the program's own form: fields that loops pop and push.  One object stands
    for the managers of all processes; LPs are numbered globally, schedule queues by process. */
module Managers {
  import opened Events
  import opened Simulation
  import opened Queues
  import opened Kernel

  /** One turn of the loop that collects the events to coast forward over. */
  lemma UpToStep(p: seq<Event>, e: Event, k: nat)
    requires k <= |p|
    ensures k > 0 && Greater(p[k - 1], e) ==> UpTo(p[..k - 1], e) == UpTo(p[..k], e)
    ensures k == 0 || !Greater(p[k - 1], e) ==> UpTo(p[..k], e) == k
  {
    if k > 0 {
      LessIsTotalOrder(p[k - 1], e, e);
      hide Less, SameId;
      assert p[..k][..k - 1] == p[..k - 1];
    }
  }

  /** One turn of the loop that drops saved states. */
  lemma KeepStep(states: seq<Saved>, gvt: nat)
    ensures KeptStates(states, gvt) ==
            if |states| > 1 && states[1].event.body.ts < gvt then KeptStates(states[1..], gvt) else states
  {
  }

  /** One turn of the loop that moves processed events back: k of them are left. */
  lemma RollStep(p: seq<Event>, e: Event, input: seq<Event>, k: nat)
    requires k <= |p| && RollPoint(p[..k], e) == RollPoint(p, e) <= k
    ensures k > 0 && !Less(p[k - 1], e) ==>
              && RollPoint(p, e) < k && p[..k][..k - 1] == p[..k - 1]
              && RollPoint(p[..k - 1], e) == RollPoint(p, e)
              && InsertAll(Insert(input, p[k - 1]), p[RollPoint(p, e)..k - 1]) == InsertAll(input, p[RollPoint(p, e)..k])
    ensures k == 0 || Less(p[k - 1], e) ==>
              RollPoint(p, e) == k && InsertAll(input, p[RollPoint(p, e)..k]) == input
  {
    hide Less, Insert;
    var c := RollPoint(p, e);
    if k > 0 && !Less(p[k - 1], e) {
      assert p[..k][..k - 1] == p[..k - 1];
      assert p[c..k][..k - c - 1] == p[c..k - 1];
    }
  }

  /** The event set.  Its methods run under the lock of the LP's input queue. */
  class TimeWarpEventSet {
    const m: Model
    var inputQueue: seq<seq<Event>>
    var processedQueue: seq<seq<Event>>
    var scheduledEventPointer: seq<Option<Event>>
    var inputQueueSchedulerMap: seq<nat>
    var scheduleQueue: map<QueueId, seq<Event>>

    predicate Valid()
      reads this
    {
      |inputQueue| == |processedQueue| == |scheduledEventPointer| == |inputQueueSchedulerMap| == m.n
    }

    constructor (m: Model)
      ensures Valid() && this.m == m
      ensures inputQueue == seq(m.n, i => []) && processedQueue == seq(m.n, i => [])
      ensures scheduledEventPointer == seq(m.n, i => None)
      ensures inputQueueSchedulerMap == seq(m.n, i requires 0 <= i => m.home(i)) && scheduleQueue == map[]
    {
      this.m := m;
      inputQueue, processedQueue := seq(m.n, i => []), seq(m.n, i => []);
      scheduledEventPointer := seq(m.n, i => None);
      inputQueueSchedulerMap := seq(m.n, i requires 0 <= i => m.home(i));
      scheduleQueue := map[];
    }

    function Queue(q: QueueId): seq<Event>
      reads this
    {
      if q in scheduleQueue then scheduleQueue[q] else []
    }

    function Home(i: nat): QueueId
      reads this
      requires Valid() && i < m.n
    {
      QueueId(m.node(i), inputQueueSchedulerMap[i])
    }

    method InsertEvent(lpId: nat, event: Event)
      requires Valid() && lpId < m.n
      requires scheduledEventPointer[lpId].None? ==> inputQueue[lpId] == []
      requires forall x :: scheduledEventPointer[lpId] == Some(x) ==>
                 |Erase(Queue(Home(lpId)), x)| >= |Queue(Home(lpId))| - 1
      modifies `inputQueue, `scheduledEventPointer, `scheduleQueue
      ensures Valid()
      ensures inputQueue == old(inputQueue)[lpId := Insert(old(inputQueue)[lpId], event)]
      ensures var input := Insert(old(inputQueue)[lpId], event);
              var q := Home(lpId);
              var Q := old(Queue(Home(lpId)));
              match old(scheduledEventPointer)[lpId]
              case None =>
                && scheduledEventPointer == old(scheduledEventPointer)[lpId := Some(event)]
                && scheduleQueue == old(scheduleQueue)[q := Insert(Q, event)]
              case Some(x) =>
                if input[0] != x && |Erase(Q, x)| < |Q| then
                  && scheduledEventPointer == old(scheduledEventPointer)[lpId := Some(input[0])]
                  && scheduleQueue == old(scheduleQueue)[q := Insert(Erase(Q, x), input[0])]
                else
                  && scheduledEventPointer == old(scheduledEventPointer)
                  && scheduleQueue == old(scheduleQueue)
    {
      var q := Home(lpId);
      var Q := Queue(q);
      inputQueue := inputQueue[lpId := Insert(inputQueue[lpId], event)];
      if scheduledEventPointer[lpId].None? {
        assert |inputQueue[lpId]| == 1;
        scheduleQueue := scheduleQueue[q := Insert(Q, event)];
        scheduledEventPointer := scheduledEventPointer[lpId := Some(event)];
      } else {
        var smallestEvent := inputQueue[lpId][0];
        if smallestEvent != scheduledEventPointer[lpId].value {
          var remaining := Erase(Q, scheduledEventPointer[lpId].value);
          var numErased := |Q| - |remaining|;
          if numErased != 0 {
            assert numErased == 1;
            scheduleQueue := scheduleQueue[q := Insert(remaining, smallestEvent)];
            scheduledEventPointer := scheduledEventPointer[lpId := Some(smallestEvent)];
          }
        }
      }
    }

    method GetEvent(w: Worker) returns (event: Option<Event>)
      requires Valid()
      modifies `scheduleQueue
      ensures Valid()
      ensures var q := QueueId(w.node, w.thread % NonZero(m.schedulers));
              var Q := old(Queue(q));
              if Q == [] then event == None && scheduleQueue == old(scheduleQueue)
              else event == Some(Q[0]) && scheduleQueue == old(scheduleQueue)[q := Q[1..]]
      ensures var Q := old(Queue(QueueId(w.node, w.thread % NonZero(m.schedulers))));
              event.Some? ==>
                && event.value in Q && multiset(Q) == multiset{event.value} + multiset(Queue(QueueId(w.node, w.thread % NonZero(m.schedulers))))
                && (Sorted(Q) ==> forall x :: x in Q ==> x == event.value || Before(event.value, x))
    {
      var q := QueueId(w.node, w.thread % NonZero(m.schedulers));
      var Q := Queue(q);
      if Q == [] {
        return None;
      }
      event := Some(Q[0]);
      scheduleQueue := scheduleQueue[q := Q[1..]];
      assert Q == [Q[0]] + Q[1..];
    }

    /** It tells of any event whether all that was processed comes before it. */
    method LastProcessedEvent(lpId: nat) returns (event: Option<Event>)
      requires Valid() && lpId < m.n
      ensures Ascending(processedQueue[lpId]) ==>
                forall e :: AllBefore(processedQueue[lpId], e) <==> (event.None? || Less(event.value, e))
      ensures event == if processedQueue[lpId] == [] then None
                       else Some(processedQueue[lpId][|processedQueue[lpId]| - 1])
    {
      var p := processedQueue[lpId];
      event := if p != [] then Some(p[|p| - 1]) else None;
      if Ascending(p) && p != [] {
        forall e
          ensures AllBefore(p, e) <==> Less(event.value, e)
        {
          LastIsLargest(p, e);
        }
      }
    }

    /** Moves every processed event >= the straggler back into the input queue, largest first. */
    method Rollback(lpId: nat, stragglerEvent: Event)
      requires Valid() && lpId < m.n
      modifies `inputQueue, `processedQueue
      ensures Valid()
      ensures var p := old(processedQueue)[lpId];
              var c := RollPoint(p, stragglerEvent);
              && processedQueue == old(processedQueue)[lpId := p[..c]]
              && inputQueue == old(inputQueue)[lpId := InsertAll(old(inputQueue)[lpId], p[c..])]
    {
      hide Less, SameId, RollPoint, InsertAll, Insert;
      ghost var p, q := processedQueue[lpId], inputQueue[lpId];
      ghost var c := RollPoint(p, stragglerEvent);
      var processed, input := processedQueue[lpId], inputQueue[lpId];
      assert p[..|p|] == p && p[c..|p|] == p[c..];
      while processed != [] && !Less(processed[|processed| - 1], stragglerEvent)
        invariant unchanged(this)
        invariant c <= |processed| <= |p| && processed == p[..|processed|]
        invariant RollPoint(processed, stragglerEvent) == c
        invariant InsertAll(input, p[c..|processed|]) == InsertAll(q, p[c..])
        decreases |processed|
      {
        RollStep(p, stragglerEvent, input, |processed|);
        var event := processed[|processed| - 1];
        processed := processed[..|processed| - 1];
        input := Insert(input, event);
      }
      RollStep(p, stragglerEvent, input, |processed|);
      processedQueue := processedQueue[lpId := processed];
      inputQueue := inputQueue[lpId := input];
    }

    /** The processed events after the restored state's event, largest first. */
    method GetEventsForCoastForward(lpId: nat, stragglerEvent: Event, restoredStateEvent: Event)
      returns (events: seq<Event>)
      requires Valid() && lpId < m.n
      requires forall x :: x in processedQueue[lpId] ==> Less(x, stragglerEvent)
      ensures var p := processedQueue[lpId];
              var c := UpTo(p, restoredStateEvent);
              |events| == |p| - c && forall k :: 0 <= k < |events| ==> events[k] == p[|p| - 1 - k]
    {
      hide Less, SameId, UpTo;
      var p := processedQueue[lpId];
      assert p[..|p|] == p;
      events := [];
      var k := |p|;
      while k > 0 && Greater(p[k - 1], restoredStateEvent)
        invariant 0 <= k <= |p|
        invariant UpTo(p[..k], restoredStateEvent) == UpTo(p, restoredStateEvent)
        invariant |events| == |p| - k && forall j :: 0 <= j < |events| ==> events[j] == p[|p| - 1 - j]
      {
        UpToStep(p, restoredStateEvent, k);
        events := events + [p[k - 1]];
        k := k - 1;
      }
      UpToStep(p, restoredStateEvent, k);
    }

    method StartScheduling(lpId: nat)
      requires Valid() && lpId < m.n
      modifies `scheduledEventPointer, `scheduleQueue
      ensures Valid()
      ensures Scheduled(lpId, old(inputQueue), old(scheduledEventPointer), old(scheduleQueue))
    {
      if inputQueue[lpId] != [] {
        var first := inputQueue[lpId][0];
        scheduledEventPointer := scheduledEventPointer[lpId := Some(first)];
        var q := Home(lpId);
        scheduleQueue := scheduleQueue[q := Insert(Queue(q), first)];
      } else {
        scheduledEventPointer := scheduledEventPointer[lpId := None];
      }
    }

    /** The LP's least event became its scheduled one, starting from the given contents. */
    predicate Scheduled(lpId: nat, input: seq<seq<Event>>, pointers: seq<Option<Event>>, queues: map<QueueId, seq<Event>>)
      reads this
      requires Valid() && lpId < m.n && |input| == |pointers| == m.n
    {
      var q := Home(lpId);
      var Q := if q in queues then queues[q] else [];
      if input[lpId] != [] then
        && scheduledEventPointer == pointers[lpId := Some(input[lpId][0])]
        && scheduleQueue == queues[q := Insert(Q, input[lpId][0])]
      else
        && scheduledEventPointer == pointers[lpId := None]
        && scheduleQueue == queues
    }

    method ReplenishScheduler(lpId: nat)
      requires Valid() && lpId < m.n && scheduledEventPointer[lpId].Some?
      requires |Erase(inputQueue[lpId], scheduledEventPointer[lpId].value)| == |inputQueue[lpId]| - 1
      modifies this
      ensures Valid()
      ensures var e := old(scheduledEventPointer)[lpId].value;
              && inputQueue == old(inputQueue)[lpId := Erase(old(inputQueue)[lpId], e)]
              && processedQueue == old(processedQueue)[lpId := old(processedQueue)[lpId] + [e]]
      ensures inputQueueSchedulerMap == if m.migration then
                old(inputQueueSchedulerMap)[lpId := (old(inputQueueSchedulerMap)[lpId] + 1) % NonZero(m.schedulers)]
              else old(inputQueueSchedulerMap)
      ensures Scheduled(lpId, inputQueue, old(scheduledEventPointer), old(scheduleQueue))
    {
      var event := scheduledEventPointer[lpId].value;
      inputQueue := inputQueue[lpId := Erase(inputQueue[lpId], event)];
      processedQueue := processedQueue[lpId := processedQueue[lpId] + [event]];
      if m.migration {
        inputQueueSchedulerMap :=
          inputQueueSchedulerMap[lpId := (inputQueueSchedulerMap[lpId] + 1) % NonZero(m.schedulers)];
      }
      StartScheduling(lpId);
    }

    method CancelEvent(lpId: nat, cancelEvent: Event) returns (found: bool)
      requires Valid() && lpId < m.n
      requires Find(inputQueue[lpId], cancelEvent) + 1 < |inputQueue[lpId]|
      modifies `inputQueue
      ensures Valid()
      ensures inputQueue == old(inputQueue)[lpId := CancelIn(old(inputQueue)[lpId], cancelEvent)]
      ensures found == CanCancel(old(inputQueue)[lpId], cancelEvent)
    {
      var q := inputQueue[lpId];
      var negative := Find(q, cancelEvent);
      var positive := negative + 1;
      found := false;
      if SameId(q[positive], q[negative]) {
        inputQueue := inputQueue[lpId := q[..negative] + q[positive + 1..]];
        found := true;
      } else {
        assert inputQueue == inputQueue[lpId := q];
      }
    }

    /** Drops processed events before the given time, but not the last one. */
    method FossilCollect(fossilCollectTime: nat, lpId: nat) returns (count: nat)
      requires Valid() && lpId < m.n
      modifies `processedQueue
      ensures Valid()
      ensures count == EventsCollected(old(processedQueue)[lpId], fossilCollectTime)
      ensures processedQueue == old(processedQueue)[lpId := old(processedQueue)[lpId][count..]]
    {
      count := 0;
      var p := processedQueue[lpId];
      assert p[0..] == p;
      assert processedQueue == processedQueue[lpId := p];
      if p == [] {
        assert processedQueue == old(processedQueue)[lpId := old(processedQueue)[lpId][0..]];
        return;
      }
      if fossilCollectTime == UINT_MAX {
        count := |p|;
        assert p[count..] == [];
        processedQueue := processedQueue[lpId := []];
        return;
      }
      while |p| > 1 && p[0].body.ts < fossilCollectTime
        invariant 0 <= count < |old(processedQueue)[lpId]| && p == old(processedQueue)[lpId][count..]
        invariant count + EventsCollected(p, fossilCollectTime)
               == EventsCollected(old(processedQueue)[lpId], fossilCollectTime)
        decreases |p|
      {
        p := p[1..];
        count := count + 1;
      }
      processedQueue := processedQueue[lpId := p];
    }
  }

  ghost predicate AllBefore(p: seq<Event>, e: Event) {
    forall x :: x in p ==> Less(x, e)
  }

  lemma LastIsLargest(p: seq<Event>, e: Event)
    requires Ascending(p) && p != []
    ensures AllBefore(p, e) <==> Less(p[|p| - 1], e)
  {
    assert p[|p| - 1] in p;
    if Less(p[|p| - 1], e) {
      forall x | x in p
        ensures Less(x, e)
      {
        var k :| 0 <= k < |p| && p[k] == x;
        assert k == |p| - 1 || Less(p[k], p[|p| - 1]);
      }
    }
  }

  /** How many calls of saveState there are to one that saves; the countdown of a period of 0 wraps. */
  function Distance(period: nat): (d: nat)
    ensures d > 0 && (period > 0 ==> d == period)
  {
    if period == 0 then UINT_MAX + 1 else period
  }

  /** What successive calls of saveState for one LP save, and the countdown after them. */
  function SavedBy(period: nat, count: nat, calls: seq<Saved>): (seq<Saved>, nat) {
    if calls == [] then ([], count)
    else
      var (saved, left) := SavedBy(period, count, calls[..|calls| - 1]);
      if left == 0 then (saved + [calls[|calls| - 1]], Distance(period) - 1) else (saved, left - 1)
  }

  /** Exactly those calls save that are a multiple of the period after the first one that does. */
  lemma {:induction false} SavesPeriodically(period: nat, count: nat, calls: seq<Saved>)
    ensures var (saved, left) := SavedBy(period, count, calls);
            && count + |saved| * Distance(period) == |calls| + left && left <= (if saved == [] then count else Distance(period) - 1)
            && forall j :: 0 <= j < |saved| ==>
                 0 <= count + j * Distance(period) < |calls| && saved[j] == calls[count + j * Distance(period)]
  {
    if calls != [] {
      var before := calls[..|calls| - 1];
      SavesPeriodically(period, count, before);
      var (saved, left) := SavedBy(period, count, before);
      var d := Distance(period);
      if left == 0 {
        assert (|saved| + 1) * d == |saved| * d + d;
        var more := saved + [calls[|calls| - 1]];
        forall j | 0 <= j < |more|
          ensures 0 <= count + j * d < |calls| && more[j] == calls[count + j * d]
        {
          if j < |saved| {
            assert saved[j] == before[count + j * d];
          }
        }
      }
    }
  }

  /** The state manager, with periodic saving. */
  class TimeWarpPeriodicStateManager {
    const m: Model
    var stateQueue: seq<seq<Saved>>
    var count: seq<nat>

    predicate Valid()
      reads this
    {
      |stateQueue| == |count| == m.n
    }

    constructor (m: Model)
      ensures Valid() && this.m == m
      ensures stateQueue == seq(m.n, i => []) && count == seq(m.n, i => 0)
    {
      this.m := m;
      stateQueue, count := seq(m.n, i => []), seq(m.n, i => 0);
    }

    method SaveState(currentEvent: Event, lpId: nat, state: State)
      requires Valid() && lpId < m.n
      modifies this
      ensures Valid()
      ensures if old(count)[lpId] == 0 then
                && stateQueue == old(stateQueue)[lpId := old(stateQueue)[lpId] + [Saved(currentEvent, state)]]
                && count == old(count)[lpId := if m.period == 0 then UINT_MAX else m.period - 1]
              else
                && stateQueue == old(stateQueue)
                && count == old(count)[lpId := old(count)[lpId] - 1]
      ensures forall k :: 0 <= k < m.n ==>
                var (saved, left) := SavedBy(m.period, old(count)[k], if k == lpId then [Saved(currentEvent, state)] else []);
                stateQueue[k] == old(stateQueue)[k] + saved && count[k] == left
    {
      assert [Saved(currentEvent, state)][..0] == [];
      if count[lpId] == 0 {
        stateQueue := stateQueue[lpId := stateQueue[lpId] + [Saved(currentEvent, state)]];
        count := count[lpId := if m.period == 0 then UINT_MAX else m.period - 1];
      } else {
        count := count[lpId := count[lpId] - 1];
      }
    }

    /** Drops the saved states of events >= the straggler and returns the last one left. */
    method RestoreState(rollbackEvent: Event, lpId: nat) returns (restored: Saved)
      requires Valid() && lpId < m.n
      requires stateQueue[lpId] != [] && RestoreStates(stateQueue[lpId], rollbackEvent) != []
      modifies `stateQueue
      ensures Valid()
      ensures var left := RestoreStates(old(stateQueue)[lpId], rollbackEvent);
              stateQueue == old(stateQueue)[lpId := left] && restored == left[|left| - 1]
      ensures exists c :: IsLastBefore(old(stateQueue)[lpId], c, rollbackEvent)
                && restored == old(stateQueue)[lpId][c] && stateQueue[lpId] == old(stateQueue)[lpId][..c + 1]
    {
      var states := stateQueue[lpId];
      while states != [] && !Less(states[|states| - 1].event, rollbackEvent)
        invariant RestoreStates(states, rollbackEvent) == RestoreStates(old(stateQueue)[lpId], rollbackEvent)
        decreases |states|
      {
        states := states[..|states| - 1];
      }
      stateQueue := stateQueue[lpId := states];
      restored := states[|states| - 1];
      assert IsLastBefore(old(stateQueue)[lpId], |states| - 1, rollbackEvent);
    }

    /** Keeps a saved state before GVT, and all later ones; returns the time before which events
        may be collected. */
    method FossilCollect(gvt: nat, lpId: nat) returns (time: nat)
      requires Valid() && lpId < m.n
      modifies `stateQueue
      ensures Valid()
      ensures stateQueue == old(stateQueue)[lpId := CollectStates(old(stateQueue)[lpId], gvt)]
      ensures time == CollectTime(old(stateQueue)[lpId], gvt)
      ensures if old(stateQueue)[lpId] == [] then time == 0
              else if gvt == UINT_MAX then time == gvt
              else stateQueue[lpId] != [] && time == stateQueue[lpId][0].event.body.ts
    {
      var states := stateQueue[lpId];
      if states == [] {
        assert stateQueue == stateQueue[lpId := states];
        return 0;
      }
      states := PopOld(states, gvt);
      if gvt == UINT_MAX {
        states := states[1..];
        stateQueue := stateQueue[lpId := states];
        return gvt;
      }
      stateQueue := stateQueue[lpId := states];
      time := states[0].event.body.ts;
    }

    /** The loop of fossilCollect. */
    static method PopOld(queue: seq<Saved>, gvt: nat) returns (states: seq<Saved>)
      requires queue != []
      ensures states == KeptStates(queue, gvt)
    {
      hide KeptStates;
      states := queue;
      while |states| > 1 && states[1].event.body.ts < gvt
        invariant states != [] && KeptStates(states, gvt) == KeptStates(queue, gvt)
        decreases |states|
      {
        KeepStep(states, gvt);
        states := states[1..];
      }
      KeepStep(states, gvt);
    }
  }

  /** The output manager, with aggressive cancellation. */
  class TimeWarpOutputManager {
    const m: Model
    var outputQueue: seq<seq<Output>>

    predicate Valid()
      reads this
    {
      |outputQueue| == m.n
    }

    constructor (m: Model)
      ensures Valid() && this.m == m && outputQueue == seq(m.n, i => [])
    {
      this.m := m;
      outputQueue := seq(m.n, i => []);
    }

    method InsertEvent(inputEvent: Event, outputEvent: Event, lpId: nat)
      requires Valid() && lpId < m.n
      modifies this
      ensures Valid()
      ensures outputQueue == old(outputQueue)[lpId := old(outputQueue)[lpId] + [Output(inputEvent, outputEvent)]]
    {
      outputQueue := outputQueue[lpId := outputQueue[lpId] + [Output(inputEvent, outputEvent)]];
    }

    method FossilCollect(gvt: nat, lpId: nat) returns (retval: nat)
      requires Valid() && lpId < m.n
      modifies this
      ensures Valid()
      ensures var outs := old(outputQueue)[lpId];
              var c := OutputsCollected(outs, gvt);
              && outputQueue == old(outputQueue)[lpId := outs[c..]]
              && retval == if c < |outs| then outs[c].input.body.ts else UINT_MAX
    {
      ghost var outs := outputQueue[lpId];
      var left := outputQueue[lpId];
      ghost var c := 0;
      retval := UINT_MAX;
      assert outputQueue == outputQueue[lpId := left];
      while left != [] && left[0].input.body.ts < gvt
        invariant c <= |outs| && left == outs[c..]
        invariant c + OutputsCollected(left, gvt) == OutputsCollected(outs, gvt)
        decreases |left|
      {
        left := left[1..];
        c := c + 1;
      }
      outputQueue := outputQueue[lpId := left];
      if left != [] {
        retval := left[0].input.body.ts;
      }
    }

    /** Takes the sends of events >= the straggler out of the output queue, largest first. */
    method RemoveEventsSentAfter(stragglerEvent: Event, lpId: nat) returns (eventsToCancel: seq<Event>)
      requires Valid() && lpId < m.n
      modifies this
      ensures Valid()
      ensures var outs := old(outputQueue)[lpId];
              var c := OutputPoint(outs, stragglerEvent);
              && outputQueue == old(outputQueue)[lpId := outs[..c]]
              && |eventsToCancel| == |outs| - c
              && forall k :: 0 <= k < |eventsToCancel| ==> eventsToCancel[k] == outs[|outs| - 1 - k].event
    {
      ghost var outs := outputQueue[lpId];
      var left := outputQueue[lpId];
      eventsToCancel := [];
      while left != [] && !Less(left[|left| - 1].input, stragglerEvent)
        invariant |left| <= |outs| && left == outs[..|left|]
        invariant OutputPoint(left, stragglerEvent) == OutputPoint(outs, stragglerEvent)
        invariant |eventsToCancel| == |outs| - |left|
        invariant forall k :: 0 <= k < |eventsToCancel| ==> eventsToCancel[k] == outs[|outs| - 1 - k].event
        decreases |left|
      {
        eventsToCancel := eventsToCancel + [left[|left| - 1].event];
        left := left[..|left| - 1];
      }
      outputQueue := outputQueue[lpId := left];
    }
  }
}
