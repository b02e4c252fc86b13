/** What the kernel guarantees in every reachable state. */
module KernelTheorems {
  import opened Events
  import opened Simulation
  import opened Queues
  import opened Kernel
  import opened KernelInvariant
  import opened KernelScheduling
  import opened KernelBooks
  import opened KernelLocal
  import opened KernelSteps
  import Ledgers

  // ------------------------------------------------------------------------------------------
  // Rollback is exact
  // ------------------------------------------------------------------------------------------

  /** Whatever was processed, saved, rolled back and collected before: rolling back to event e in
      hand, restoring and coasting forward leaves LP i in the state that replays, from the initial
      state, exactly the history events before e; and the undone ones are queued again. */
  lemma RollbackIsExact(m: Model, s: Sys, i: nat)
    requires WellFormed(m) && Reachable(m, s) && Enabled(m, s, Check(i))
    requires NeedsRollback(s.lps[i], s.lps[i].job.event)
    ensures var e := s.lps[i].job.event;
            var lp := s.lps[i];
            var lp' := Apply(m, s, Check(i)).lps[i];
            var rest := lp'.processed[UpTo(lp'.processed, lp'.job.stage.restored)..];
            && (forall x :: x in History(lp') <==> x in History(lp) && Less(x, e))
            && Ascending(History(lp'))
            && CoastForward(m, i, lp'.state, rest) == StateOf(m, i, History(lp'))
            && (forall x :: x in lp'.input <==> x in lp.input || (x in History(lp) && !Less(x, e)))
            && (exists c :: RestoresLast(lp, lp', e, c))
  {
    var lp := s.lps[i];
    var e := lp.job.event;
    var lp' := RolledBack(lp, e);
    ReachableHasInv(m, s);
    RollbackNeverFails(m, s, i);
    RestoredIsLast(lp, e);
    CheckKeepsInv(m, s, i);
    InvAt(m, s, i);
    InvAt(m, Apply(m, s, Check(i)), i);
    Unprocessed(m, s, i, e);
    RolledBackHistory(lp.committed, lp.processed, e);
    KeptIsFilter(lp, e);
    CoastIsReplay(m, i, lp');
  }

  /** The state restored is the last one saved of an event before e; it and all earlier ones stay. */
  predicate RestoresLast(lp: LP, lp': LP, e: Event, c: nat) {
    && IsLastBefore(lp.states, c, e) && lp'.states == lp.states[..c + 1]
    && lp'.job.Busy? && lp'.job.stage.Cancelling?
    && lp'.job.stage.restored == lp.states[c].event && lp'.state == lp.states[c].state
  }

  lemma RestoredIsLast(lp: LP, e: Event)
    requires lp.job.Busy? && RestoreStates(lp.states, e) != []
    ensures exists c :: RestoresLast(lp, RolledBack(lp, e), e, c)
  {
    hide Less, InsertAll, RollPoint, OutputPoint;
    var c := |RestoreStates(lp.states, e)| - 1;
    assert lp.states[..c + 1] == RestoreStates(lp.states, e);
    assert RestoresLast(lp, RolledBack(lp, e), e, c);
  }

  lemma KeptIsFilter(lp: LP, e: Event)
    requires lp.job.Busy? && KeptHistory(History(lp), History(RolledBack(lp, e)), e)
    ensures var lp' := RolledBack(lp, e);
            && (forall x :: x in History(lp') <==> x in History(lp) && Less(x, e))
            && Ascending(History(lp'))
            && (forall x :: x in lp'.input <==> x in lp.input || (x in History(lp) && !Less(x, e)))
  {
    hide RollPoint, OutputPoint, RestoreStates, InsertAll, Less, Ascending;
    KeptParts(History(lp), History(RolledBack(lp, e)), e);
    hide KeptHistory;
    var lp' := RolledBack(lp, e);
    var h, h' := History(lp), History(lp');
    var undone := lp.processed[RollPoint(lp.processed, e)..];
    assert h == h' + undone;
    assert forall k :: 0 <= k < |h'| ==> h'[k] == h[k];
    assert forall k :: 0 <= k < |undone| ==> undone[k] == h[|h'| + k];
  }

  lemma KeptParts(h: seq<Event>, h': seq<Event>, e: Event)
    requires KeptHistory(h, h', e)
    ensures Ascending(h') && h' <= h
    ensures forall k :: 0 <= k < |h'| ==> Less(h[k], e)
    ensures forall k :: |h'| <= k < |h| ==> !Less(h[k], e)
  {
    hide Less;
  }

  lemma CoastIsReplay(m: Model, i: nat, lp: LP)
    requires LocalOk(m, i, lp) && lp.job.Busy? && lp.job.stage.Cancelling?
    ensures CoastForward(m, i, lp.state, lp.processed[UpTo(lp.processed, lp.job.stage.restored)..])
         == StateOf(m, i, History(lp))
  {
    hide StateOf, CoastForward, UpTo, OutputsOk, Numbered, AntisOk, MsgsOk, InputOk, SentHereOk;
    var last := lp.states[|lp.states| - 1];
    assert SavedOk(m, i, History(lp), last);
    assert last == lp.states[0] || Less(lp.states[0].event, last.event);
    CoastReplaysRest(m, i, lp.committed, lp.processed, last);
  }

  /** Whenever no rollback is in progress, an LP's state is the replay of its history, and of the
      event in hand once that has been processed; an event about to be processed or cancelled comes
      after all of the history. */
  lemma StateIsReplay(m: Model, s: Sys, i: nat)
    requires WellFormed(m) && Reachable(m, s) && i < |s.lps|
    requires s.lps[i].job.Busy? ==> !s.lps[i].job.stage.Cancelling?
    ensures s.lps[i].state == StateOf(m, i, Replayed(History(s.lps[i]), s.lps[i].job))
    ensures Ascending(History(s.lps[i]))
    ensures s.lps[i].job.Busy? && !s.lps[i].job.stage.Taken? ==>
              forall x :: x in History(s.lps[i]) ==> Less(x, s.lps[i].job.event)
  {
    ReachableHasInv(m, s);
    InvAt(m, s, i);
    hide SavedOk, OutputsOk, Numbered, AntisOk, MsgsOk, InputOk, SentHereOk;
  }

  // ------------------------------------------------------------------------------------------
  // Fossil collection is safe
  // ------------------------------------------------------------------------------------------

  /** Nothing that a straggler e at or after GVT could need has been collected: there is a saved
      state before e to restore; the events to coast forward over are still in the processed queue,
      and so are the events to undo; the sends to cancel are still in the output queue. */
  lemma FossilCollectionIsSafe(m: Model, s: Sys, i: nat, e: Event)
    requires WellFormed(m) && Reachable(m, s) && i < |s.lps| && !s.lps[i].job.Booting?
    requires e.body.sender > 0 && e.body.ts >= s.floor
    ensures var lp := s.lps[i];
            && RestoreStates(lp.states, e) != []
            && var restored := RestoreStates(lp.states, e)[|RestoreStates(lp.states, e)| - 1].event;
            && Less(restored, e)
            && (forall x :: x in History(lp) && !Less(x, e) ==> x in lp.processed)
            && (forall x :: x in History(lp) && Less(restored, x) ==> x in lp.processed)
            && (forall o :: o in Outputs(lp) && !Less(o.input, e) ==> o in lp.outputs)
            && (forall x :: x in lp.committed ==> Less(x, e))
  {
    hide RestoreStates, Inv, InvButBalance, LocalOk, Reachable, WellFormed, Placed, Ahead, Less, SameId;
    ReachableHasInv(m, s);
    InvAt(m, s, i);
    var lp := s.lps[i];
    assert lp.states != [];
    AheadOf(m, i, lp, s.floor, e);
    AheadParts(lp, e);
    var kept := RestoreStates(lp.states, e);
    var last := kept[|kept| - 1];
    assert last == lp.states[|kept| - 1];
    FirstIsLeast(m, i, lp, |kept| - 1);
    CommittedIsBeforeStates(m, i, lp);
    forall x | x in lp.committed
      ensures Less(x, e) && !Less(last.event, x)
    {
      EarlierIsLess(x, e);
      EarlierIsLess(x, last.event);
    }
    forall o | o in lp.committedOut
      ensures Less(o.input, e)
    {
      EarlierIsLess(o.input, e);
    }
  }

  /** Fossil collection does collect: after it one saved state at most is before GVT, the one to
      restore; the events before that state are gone, but for the last one processed, and the sends
      caused before GVT are gone from the front of the output queue. */
  lemma CollectionIsExact(m: Model, s: Sys, i: nat, g: nat)
    requires WellFormed(m) && Reachable(m, s) && Enabled(m, s, Collect(i, g)) && g > s.lps[i].lastCollect
    ensures var (lp, lp') := (s.lps[i], Apply(m, s, Collect(i, g)).lps[i]);
            && History(lp') == History(lp) && Outputs(lp') == Outputs(lp) && lp'.states != []
            && (forall k :: 0 < k < |lp'.states| ==> lp'.states[k].event.body.ts >= g)
            && (forall k :: 0 <= k < |lp'.processed| - 1 ==> lp'.processed[k].body.ts >= lp'.states[0].event.body.ts)
            && (lp'.outputs != [] ==> lp'.outputs[0].input.body.ts >= g)
  {
    hide Inv, InvButBalance, LocalOk, Reachable, WellFormed, Less, SameId, Collected;
    ReachableHasInv(m, s);
    InvAt(m, s, i);
    var lp := s.lps[i];
    CollectedIsFinite(m, s, i, g);
    CollectKeepsLocal(m, i, lp, g);
    FrontsLeft(lp, g);
    QueuesAscend(m, i, Collected(lp, g));
  }

  lemma TimesAreFinite(m: Model)
    requires WellFormed(m)
    ensures m.maxTime < UINT_MAX
  {
  }

  lemma CollectedIsFinite(m: Model, s: Sys, i: nat, g: nat)
    requires WellFormed(m) && Inv(m, s) && Enabled(m, s, Collect(i, g))
    ensures g < UINT_MAX && CollectedOk(s.lps[i], s.lps[i].lastCollect) && s.lps[i].states != []
  {
    hide Inv, InvButBalance, LocalOk, SchedulingOk, FloorOk, Basis, Placed, LedgerOf, Ledgers.Known, Ahead, Less, SameId, SameKey,
         WellFormed, CollectedOk;
    TimesAreFinite(m);
    var lp := s.lps[i];
    InvAt(m, s, i);
    Unprocessed(m, s, i, lp.job.event);
    CollectedOkAt(lp, s.floor);
  }

  lemma FrontsLeft(lp: LP, g: nat)
    requires lp.job.Busy? && g < UINT_MAX && g > lp.lastCollect && lp.states != []
    ensures var lp' := Collected(lp, g);
            && lp'.states != [] && (|lp'.states| >= 2 ==> lp'.states[1].event.body.ts >= g)
            && (|lp'.processed| >= 2 ==> lp'.processed[0].body.ts >= lp'.states[0].event.body.ts)
            && (lp'.outputs != [] ==> lp'.outputs[0].input.body.ts >= g)
  {
    hide KeptStates, OutputsCollected, EventsCollected;
  }

  lemma QueuesAscend(m: Model, i: nat, lp: LP)
    requires LocalOk(m, i, lp)
    ensures forall a, b :: 0 <= a < b < |lp.states| ==> lp.states[a].event.body.ts <= lp.states[b].event.body.ts
    ensures forall a, b :: 0 <= a < b < |lp.processed| ==> lp.processed[a].body.ts <= lp.processed[b].body.ts
  {
    hide SavedOk, StateOk, AntisOk, MsgsOk, InputOk, JobOk, CommittedOk, Numbered, SendsOf, OutputsOk, SentHereOk, SameId;
    forall a, b | 0 <= a < b < |lp.processed|
      ensures lp.processed[a].body.ts <= lp.processed[b].body.ts
    {
      assert History(lp)[|lp.committed| + a] == lp.processed[a] && History(lp)[|lp.committed| + b] == lp.processed[b];
    }
  }

  lemma AheadParts(lp: LP, e: Event)
    requires Ahead(lp, e)
    ensures (forall c :: c in lp.committed ==> c.body.ts < e.body.ts)
    ensures (forall o :: o in lp.committedOut ==> o.input.body.ts < e.body.ts)
    ensures lp.states != [] ==> Less(lp.states[0].event, e)
  {
  }

  lemma AheadOf(m: Model, i: nat, lp: LP, floor: nat, e: Event)
    requires LocalOk(m, i, lp) && CollectedOk(lp, floor) && lp.states != []
    requires e.body.sender > 0 && e.body.ts >= floor
    ensures Ahead(lp, e)
  {
    hide SavedOk, StateOk, OutputsOk, Numbered, HistoryOk, AntisOk, MsgsOk, InputOk, SentHereOk, JobOk;
  }

  lemma FirstIsLeast(m: Model, i: nat, lp: LP, k: nat)
    requires LocalOk(m, i, lp) && k < |lp.states|
    ensures lp.states[0].event.body.ts <= lp.states[k].event.body.ts
  {
    hide SavedOk, StateOk, OutputsOk, Numbered, HistoryOk, AntisOk, MsgsOk, InputOk, SentHereOk, JobOk, CommittedOk;
    assert k == 0 || Less(lp.states[0].event, lp.states[k].event);
  }

  lemma CommittedIsBeforeStates(m: Model, i: nat, lp: LP)
    requires LocalOk(m, i, lp)
    ensures forall x :: x in lp.committed ==> lp.states != [] && x.body.ts < lp.states[0].event.body.ts
  {
    hide SavedOk, StateOk, OutputsOk, Numbered, HistoryOk, AntisOk, MsgsOk, InputOk, SentHereOk, JobOk;
  }

  // ------------------------------------------------------------------------------------------
  // Anti-messages
  // ------------------------------------------------------------------------------------------

  /** An anti-message always finds its event right behind it, and exactly the two disappear. */
  lemma AnnihilationSucceeds(m: Model, s: Sys, i: nat)
    requires WellFormed(m) && Reachable(m, s) && Enabled(m, s, Cancel(i))
    ensures var q := s.lps[i].input;
            var neg := s.lps[i].job.event;
            var k := Find(q, neg);
            && k + 1 < |q| && q[k] == neg && q[k + 1].pos && neg == NegOf(q[k + 1])
            && (forall x :: x in Apply(m, s, Cancel(i)).lps[i].input <==> x in q && x != neg && x != q[k + 1])
            && |Apply(m, s, Cancel(i)).lps[i].input| == |q| - 2
            && History(Apply(m, s, Cancel(i)).lps[i]) == History(s.lps[i])
  {
    hide Inv, InvButBalance, LocalOk, SchedulingOk, FloorOk, Basis, Placed, LedgerOf, Ledgers.Known, Ledgers.Balanced,
         Ahead, Reachable, Reaches, WellFormed;
    var neg := s.lps[i].job.event;
    ReachableHasInv(m, s);
    InvAt(m, s, i);
    InputIsSorted(m, i, s.lps[i]);
    var x := TwinIsQueued(m, s, i);
    TwinsAreAdjacent(s.lps[i].input, neg, x);
    CancelRemovesTwins(s.lps[i].input, neg, x);
    hide CancelIn, CanCancel, Find, SameId, Sorted;
  }

  lemma InputIsSorted(m: Model, i: nat, lp: LP)
    requires LocalOk(m, i, lp)
    ensures Sorted(lp.input)
  {
  }

  /** The output queue, with what fossil collection removed from it, lists exactly the sends of the
      LP's history, in processing order and with increasing generations. */
  lemma OutputsAreExact(m: Model, s: Sys, i: nat)
    requires WellFormed(m) && Reachable(m, s) && i < |s.lps|
    ensures var lp := s.lps[i];
            && Made(Outputs(lp)) + Unsent(m, i, lp.job) == SendsOf(m, i, Replayed(History(lp), lp.job))
            && (forall a, b :: 0 <= a < b < |Outputs(lp)| ==> Outputs(lp)[a].event.gen < Outputs(lp)[b].event.gen)
            && (forall k :: 0 <= k < |Outputs(lp)| ==> Outputs(lp)[k].event.gen < lp.generation)
  {
    ReachableHasInv(m, s);
    InvAt(m, s, i);
    hide SavedOk, StateOk, HistoryOk, AntisOk, MsgsOk, InputOk, JobOk, CommittedOk;
    var lp := s.lps[i];
    var q := EventsOf(Outputs(lp));
    forall a, b | 0 <= a < b < |Outputs(lp)|
      ensures Outputs(lp)[a].event.gen < Outputs(lp)[b].event.gen
    {
      assert q[a].gen < q[b].gen;
    }
    forall k | 0 <= k < |Outputs(lp)|
      ensures Outputs(lp)[k].event.gen < lp.generation
    {
      assert q[k].gen < |lp.sent|;
    }
  }

  /** A rollback takes back each send of each undone event, and no other. */
  lemma RollbackCancelsExactly(m: Model, s: Sys, i: nat)
    requires WellFormed(m) && Reachable(m, s) && Enabled(m, s, Check(i))
    requires NeedsRollback(s.lps[i], s.lps[i].job.event)
    ensures var lp, e := s.lps[i], s.lps[i].job.event;
            var lp' := Apply(m, s, Check(i)).lps[i];
            && EventsOf(Outputs(lp)) == EventsOf(Outputs(lp')) + Antis(lp'.job)
            && (forall k :: 0 <= k < |Outputs(lp')| ==> Less(Outputs(lp)[k].input, e))
            && (forall k :: |Outputs(lp')| <= k < |Outputs(lp)| ==> !Less(Outputs(lp)[k].input, e))
            && Made(Outputs(lp')) == SendsOf(m, i, History(lp'))
  {
    hide Inv, InvButBalance, LocalOk, SchedulingOk, FloorOk, Basis, Placed, LedgerOf, Ledgers.Known, Ledgers.Balanced,
         Ahead, Reachable, Reaches, WellFormed;
    hide OutputPoint, RollPoint, RestoreStates, InsertAll, SendsOf, Less, SameId;
    var lp, e := s.lps[i], s.lps[i].job.event;
    var lp' := RolledBack(lp, e);
    ReachableHasInv(m, s);
    CheckKeepsInv(m, s, i);
    InvAt(m, s, i);
    InvAt(m, Apply(m, s, Check(i)), i);
    Unprocessed(m, s, i, e);
    var o := OutputPoint(lp.outputs, e);
    assert Outputs(lp) == Outputs(lp') + lp.outputs[o..];
    assert EventsOf(Outputs(lp)) == EventsOf(Outputs(lp')) + EventsOf(lp.outputs[o..]);
    OutputsSplit(m, i, lp, e);
    OutputsOfCancelling(m, i, lp');
  }

  lemma OutputsOfCancelling(m: Model, i: nat, lp: LP)
    requires LocalOk(m, i, lp) && lp.job.Busy? && lp.job.stage.Cancelling?
    ensures Made(Outputs(lp)) == SendsOf(m, i, History(lp))
  {
    hide SendsOf, SavedOk, StateOk, HistoryOk, AntisOk, MsgsOk, InputOk, JobOk, CommittedOk;
    assert Made(Outputs(lp)) + [] == Made(Outputs(lp));
  }

  lemma OutputsSplit(m: Model, i: nat, lp: LP, e: Event)
    requires WellFormed(m) && LocalOk(m, i, lp) && lp.job.Busy? && lp.job.stage.Taken? && Ahead(lp, e) && e.body.sender > 0
    ensures var cut := |lp.committedOut| + OutputPoint(lp.outputs, e);
            && (forall k :: 0 <= k < cut ==> Less(Outputs(lp)[k].input, e))
            && (forall k :: cut <= k < |Outputs(lp)| ==> !Less(Outputs(lp)[k].input, e))
  {
    hide SendsOf, SavedOk, StateOk, AntisOk, MsgsOk, InputOk, JobOk, CommittedOk, Numbered, OutputPoint;
    var h := History(lp);
    var h' := lp.committed + lp.processed[..RollPoint(lp.processed, e)];
    var all := SendsOf(m, i, h);
    assert Made(Outputs(lp)) + [] == Made(Outputs(lp));
    RolledBackHistory(lp.committed, lp.processed, e);
    SendsKept(m, i, h, h', e);
    assert forall k :: 0 <= k < |Outputs(lp)| ==> all[k].input == Outputs(lp)[k].input;
    CutIsUnique(Outputs(lp), |lp.committedOut|, lp.outputs, e, |SendsOf(m, i, h')|);
  }

  // ------------------------------------------------------------------------------------------
  // Scheduling
  // ------------------------------------------------------------------------------------------

  /** getEvent never hands out an event of an LP that another worker holds; what it hands out is the
      LP's least unprocessed event. */
  lemma NoLpIsProcessedTwice(m: Model, s: Sys, w: Worker)
    requires WellFormed(m) && Reachable(m, s) && Enabled(m, s, GetEvent(w))
    ensures var e := QueueOf(s, QueueId(w.node, w.thread % m.schedulers))[0];
            var lp := s.lps[e.body.recv];
            && lp.job.Idle? && lp.input != [] && e == lp.input[0]
            && (forall x :: x in lp.input ==> x == e || Before(e, x))
  {
    ReachableHasInv(m, s);
    InvHasBasis(m, s);
    GetEventTakesIdle(m, s, w);
    var e := QueueOf(s, QueueId(w.node, w.thread % m.schedulers))[0];
    assert Sorted(s.lps[e.body.recv].input);
  }

  /** An idle LP with unprocessed events has its least one, and nothing else, in the schedule queue
      that its map names; a busy or finished LP has nothing in any; and the scheduled pointer is
      null exactly when the input queue is empty. */
  lemma SchedulesAreExact(m: Model, s: Sys, i: nat, q: QueueId, x: Event)
    requires WellFormed(m) && Reachable(m, s) && i < |s.lps| && x.body.recv == i
    ensures x in QueueOf(s, q) <==>
              && !s.lps[i].job.Busy? && s.lps[i].input != [] && x == s.lps[i].input[0] && q == HomeOf(m, s, i)
    ensures s.lps[i].scheduled.None? <==> s.lps[i].input == []
  {
    ReachableHasInv(m, s);
    InvHasBasis(m, s);
    var lp := s.lps[i];
    assert ScheduledOk(lp);
    if x in QueueOf(s, q) {
      assert QueuedOk(m, s, q, x);
      QueuedIsKnown(m, s, q, x);
    }
  }

  // ------------------------------------------------------------------------------------------
  // The program's assertions
  // ------------------------------------------------------------------------------------------

  /** insertEvent() on LP r: nothing is scheduled only if nothing is queued; at most one schedule
      queue entry is erased. */
  predicate InsertAssertionsHold(m: Model, s: Sys, r: nat)
    requires r < |s.lps|
  {
    match s.lps[r].scheduled
    case None => s.lps[r].input == []
    case Some(x) => |Erase(QueueOf(s, HomeOf(m, s, r)), x)| >= |QueueOf(s, HomeOf(m, s, r))| - 1
  }

  /** rollback(): a state is left to restore, before the straggler, which is not before GVT. */
  predicate RollbackAssertionsHold(lp: LP, floor: nat)
    requires lp.job.Busy?
  {
    && RestoreStates(lp.states, lp.job.event) != []
    && Less(RolledBack(lp, lp.job.event).job.stage.restored, lp.job.event)
    && lp.job.event.body.ts >= floor
  }

  /** No assertion of the program fails in a step that changes a queue. */
  predicate AssertionsHold(m: Model, s: Sys, t: Step)
    requires Enabled(m, s, t)
  {
    match t
    case Check(i) => NeedsRollback(s.lps[i], s.lps[i].job.event) ==> RollbackAssertionsHold(s.lps[i], s.floor)
    case Coast(i) =>
      // getEventsForCoastForward(): what is replayed is before the straggler
      forall k :: 0 <= k < |s.lps[i].processed| ==> Less(s.lps[i].processed[k], s.lps[i].job.event)
    case Cancel(i) =>
      // cancelEvent(): the negative event is there, and has a successor
      Find(s.lps[i].input, s.lps[i].job.event) + 1 < |s.lps[i].input|
    case Replenish(i) =>
      // replenishScheduler(): the scheduled event is erased from the input queue, once
      && s.lps[i].scheduled == Some(s.lps[i].job.event)
      && |Erase(s.lps[i].input, s.lps[i].job.event)| == |s.lps[i].input| - 1
    case Deliver(e) => InsertAssertionsHold(m, s, e.body.recv)
    case SendAnti(i) => InsertAssertionsHold(m, s, s.lps[i].job.stage.antis[0].body.recv)
    case SendNext(i) => InsertAssertionsHold(m, s, s.lps[i].job.stage.msgs[0].recv)
    case Boot(i) => s.lps[i].job.msgs != [] && s.lps[i].job.msgs[0].recv < |s.lps| ==>
                      InsertAssertionsHold(m, s, s.lps[i].job.msgs[0].recv)
    case _ => true
  }

  lemma AssertionsNeverFail(m: Model, s: Sys, t: Step)
    requires WellFormed(m) && Reachable(m, s) && Enabled(m, s, t)
    ensures AssertionsHold(m, s, t)
  {
    hide Inv, InvButBalance, LocalOk, Reachable, WellFormed, RollbackAssertionsHold, InsertAssertionsHold, Basis, SchedulingOk;
    ReachableHasInv(m, s);
    forall r | 0 <= r < |s.lps|
      ensures InsertAssertionsHold(m, s, r)
    {
      InsertNeverFails(m, s, r);
    }
    match t {
      case Check(i) => RollbackNeverFails(m, s, i);
      case Coast(i) =>
        InvAt(m, s, i);
        CoastedIsBefore(m, i, s.lps[i]);
      case Cancel(i) => AnnihilationSucceeds(m, s, i);
      case Replenish(i) => EraseNeverFails(m, s, i);
      case _ =>
    }
  }

  lemma InsertNeverFails(m: Model, s: Sys, r: nat)
    requires WellFormed(m) && Inv(m, s) && r < |s.lps|
    ensures InsertAssertionsHold(m, s, r)
  {
    InvHasBasis(m, s);
    assert ScheduledOk(s.lps[r]);
    if s.lps[r].scheduled.Some? {
      EraseScheduled(m, s, r);
    }
  }

  lemma RollbackNeverFails(m: Model, s: Sys, i: nat)
    requires WellFormed(m) && Inv(m, s) && Enabled(m, s, Check(i))
    ensures RollbackAssertionsHold(s.lps[i], s.floor)
  {
    hide RestoreStates, RollPoint, OutputPoint, InsertAll, Inv, InvButBalance, LocalOk, Less, SameId, LedgerOf, Ledgers.Known;
    InvAt(m, s, i);
    Unprocessed(m, s, i, s.lps[i].job.event);
  }

  lemma EraseNeverFails(m: Model, s: Sys, i: nat)
    requires WellFormed(m) && Inv(m, s) && Enabled(m, s, Replenish(i))
    ensures s.lps[i].scheduled == Some(s.lps[i].job.event)
    ensures |Erase(s.lps[i].input, s.lps[i].job.event)| == |s.lps[i].input| - 1
  {
    InvHasBasis(m, s);
    assert ScheduledOk(s.lps[i]);
    EraseOne(s.lps[i].input, s.lps[i].job.event);
  }

  lemma CoastedIsBefore(m: Model, i: nat, lp: LP)
    requires LocalOk(m, i, lp) && lp.job.Busy? && !lp.job.stage.Taken?
    ensures forall k :: 0 <= k < |lp.processed| ==> Less(lp.processed[k], lp.job.event)
  {
    hide SavedOk, StateOk, OutputsOk, Numbered, HistoryOk, AntisOk, MsgsOk, InputOk, SentHereOk, CommittedOk, Less;
    assert forall k :: 0 <= k < |lp.processed| ==> lp.processed[k] in History(lp);
  }
}
