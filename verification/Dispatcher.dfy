/** The Time Warp dispatcher in the program's own form.  One object stands for the dispatchers of all
    processes.  Each method that the program runs under a lock, or on data that only the worker
    holding the LP touches, takes exactly one step of the kernel; the others are runs of steps. */
module Dispatcher {
  import opened Events
  import opened Simulation
  import opened Queues
  import opened Kernel
  import opened KernelInvariant
  import opened KernelSteps
  import opened KernelTheorems
  import opened Managers
  import Ledgers

  lemma NextIsReachable(m: Model, s: Sys, t: Step, s': Sys)
    requires Reachable(m, s) && Next(m, s, t, s')
    ensures Reachable(m, s')
  {
    hide Next;
    var steps :| Reaches(m, steps, s);
    assert (steps + [t])[..|steps + [t]| - 1] == steps;
    assert Reaches(m, steps + [t], s');
  }

  /** No LP but i got ahead, and i neither processed nor undid anything. */
  ghost predicate OnlySent(s: Sys, s': Sys, i: nat) {
    && |s'.lps| == |s.lps| && s'.floor == s.floor
    && (forall j :: 0 <= j < |s.lps| ==> SameWork(s.lps[j], s'.lps[j]) && (j != i ==> s'.lps[j].job == s.lps[j].job))
  }

  predicate SameWork(lp: LP, lp': LP) {
    && lp'.processed == lp.processed && lp'.committed == lp.committed
    && lp'.state == lp.state && lp'.states == lp.states && lp'.lastCollect == lp.lastCollect
  }

  lemma PostOnlySends(m: Model, s: Sys, from: nat, e: Event)
    requires e.body.recv < |s.lps|
    ensures OnlySent(s, Post(m, s, from, e), from)
    ensures |Post(m, s, from, e).lps| == |s.lps|
    ensures forall j :: 0 <= j < |s.lps| ==> Post(m, s, from, e).lps[j].job == s.lps[j].job
  {
    hide Insert, Erase;
  }

  lemma SendOneOnlySends(m: Model, s: Sys, i: nat, input: Event, msg: Msg, rest: Job)
    requires i < |s.lps| && msg.recv < |s.lps|
    ensures OnlySent(s, SendOne(m, s, i, input, msg, rest), i)
    ensures SendOne(m, s, i, input, msg, rest).lps[i].job == rest
  {
    hide Post;
    var lp := s.lps[i].(job := rest);
    var e := NewEvent(i, lp, input, msg);
    if msg.ts <= m.maxTime {
      PostOnlySends(m, s.(lps := s.lps[i := Recorded(lp, input, e)]), i, e);
    }
  }

  /** No other LP processed or undid anything, and nobody let go of an LP. */
  ghost predicate OthersStay(s: Sys, s': Sys, i: nat) {
    && |s'.lps| == |s.lps| && s'.floor == s.floor
    && (forall j :: 0 <= j < |s.lps| && j != i ==> SameWork(s.lps[j], s'.lps[j]) && s'.lps[j].job == s.lps[j].job)
  }

  lemma OnlySentReflexive(s: Sys, i: nat)
    ensures OnlySent(s, s, i)
  {
  }

  lemma OnlySentTransitive(s: Sys, r: Sys, t: Sys, i: nat)
    requires OnlySent(s, r, i) && OnlySent(r, t, i)
    ensures OnlySent(s, t, i)
  {
  }

  /** LP i is about to send msgs on account of the input event. */
  ghost predicate IsSending(job: Job, input: Event, msgs: seq<Msg>) {
    match job
    case Idle => false
    case Booting(left) => input == INITIAL && left == msgs
    case Busy(_, e, stage) => e == input && stage == Sending(msgs)
  }

  ghost function WithMsgs(job: Job, msgs: seq<Msg>): Job {
    match job
    case Idle => Idle
    case Booting(_) => Booting(msgs)
    case Busy(w, e, _) => Busy(w, e, Sending(msgs))
  }

  ghost function SendStep(job: Job, i: nat): Step {
    if job.Booting? then Boot(i) else SendNext(i)
  }

  lemma SendStepIsSendOne(m: Model, s: Sys, i: nat, input: Event, msgs: seq<Msg>)
    requires i < |s.lps| && IsSending(s.lps[i].job, input, msgs) && msgs != [] && msgs[0].recv < |s.lps|
    ensures Enabled(m, s, SendStep(s.lps[i].job, i))
    ensures Apply(m, s, SendStep(s.lps[i].job, i)) == SendOne(m, s, i, input, msgs[0], WithMsgs(s.lps[i].job, msgs[1..]))
  {
    hide SendOne;
  }

  /** The next message in hand names an LP, whose insertEvent asserts nothing false. */
  lemma NextMessageIsOk(m: Model, s: Sys, i: nat, input: Event, msgs: seq<Msg>)
    requires WellFormed(m) && Reachable(m, s) && i < m.n && |s.lps| == m.n
    requires IsSending(s.lps[i].job, input, msgs) && msgs != []
    ensures msgs[0].recv < m.n && InsertAssertionsHold(m, s, msgs[0].recv)
  {
    hide LocalOk, Inv, InsertAssertionsHold, WellFormed, Reachable;
    ReachableHasInv(m, s);
    InvAt(m, s, i);
    LocalHasMsgs(m, i, s.lps[i]);
    InsertNeverFails(m, s, msgs[0].recv);
  }

  lemma JobsDoNotMatter(m: Model, s: Sys, i: nat, job: Job, r: nat)
    requires i < |s.lps| && r < |s.lps| && InsertAssertionsHold(m, s, r)
    ensures InsertAssertionsHold(m, s.(lps := s.lps[i := s.lps[i].(job := job)]), r)
  {
  }

  lemma SendAntiOnlySends(m: Model, s: Sys, i: nat)
    requires Enabled(m, s, Step.SendAnti(i))
    ensures OnlySent(s, Apply(m, s, Step.SendAnti(i)), i)
    ensures var job := s.lps[i].job;
            Apply(m, s, Step.SendAnti(i)).lps[i].job ==
            job.(stage := Cancelling(job.stage.antis[1..], job.stage.restored))
  {
    hide Post;
    var lp := s.lps[i];
    var antis := lp.job.stage.antis;
    var s' := s.(lps := s.lps[i := lp.(job := lp.job.(stage := Cancelling(antis[1..], lp.job.stage.restored)))]);
    if antis[0].body.ts <= m.maxTime {
      PostOnlySends(m, s', i, NegOf(antis[0]));
    }
  }

  lemma LocalHasMsgs(m: Model, i: nat, lp: LP)
    requires LocalOk(m, i, lp)
    ensures MsgsOk(m, lp.job) && AntisOk(lp.sent, lp.job)
    ensures SentHereOk(m, i, lp.generation, lp.sent)
  {
  }

  lemma NextAntiIsOk(m: Model, s: Sys, i: nat)
    requires WellFormed(m) && Reachable(m, s) && i < m.n && |s.lps| == m.n
    requires s.lps[i].job.Busy? && s.lps[i].job.stage.Cancelling? && s.lps[i].job.stage.antis != []
    ensures var e := s.lps[i].job.stage.antis[0];
            e.body.recv < m.n && InsertAssertionsHold(m, s, e.body.recv)
  {
    hide LocalOk, Inv, InsertAssertionsHold, WellFormed, Reachable;
    ReachableHasInv(m, s);
    InvAt(m, s, i);
    LocalHasMsgs(m, i, s.lps[i]);
    FirstAntiIsSent(m, i, s.lps[i]);
    InsertNeverFails(m, s, s.lps[i].job.stage.antis[0].body.recv);
  }

  lemma FirstAntiIsSent(m: Model, i: nat, lp: LP)
    requires AntisOk(lp.sent, lp.job) && SentHereOk(m, i, lp.generation, lp.sent) && Antis(lp.job) != []
    ensures Antis(lp.job)[0].body.recv < m.n
  {
    var e := Antis(lp.job)[0];
    assert SentItemOk(m, i, e.gen, lp.sent[e.gen]);
  }

  ghost function Backwards(s: seq<Event>): (r: seq<Event>)
    ensures |r| == |s| && forall k :: 0 <= k < |s| ==> r[k] == s[|s| - 1 - k]
  {
    seq(|s|, k requires 0 <= k < |s| => s[|s| - 1 - k])
  }

  lemma CheckRollsBack(m: Model, s: Sys, i: nat, e: Event)
    requires i < |s.lps| && s.lps[i].job.Busy? && s.lps[i].job.stage.Taken? && s.lps[i].job.event == e
    requires NeedsRollback(s.lps[i], e)
    ensures Enabled(m, s, Check(i)) && Apply(m, s, Check(i)) == s.(lps := s.lps[i := RolledBack(s.lps[i], e)])
    ensures AssertionsHold(m, s, Check(i)) ==> RestoreStates(s.lps[i].states, e) != []
  {
    hide RolledBack, RestoreStates, NeedsRollback;
  }

  lemma CollectIsCollected(m: Model, s: Sys, i: nat, g: nat)
    requires Enabled(m, s, Collect(i, g))
    ensures i < |s.lps| && s.lps[i].job.Busy?
    ensures Apply(m, s, Collect(i, g)) == s.(lps := s.lps[i := Collected(s.lps[i], g)])
  {
    hide Collected;
  }

  lemma CollectedAt(lp: LP, g: nat)
    requires lp.job.Busy?
    ensures Collected(lp, g).(job := lp.job.(stage := Closing)) == Collected(lp, g)
    ensures g <= lp.lastCollect ==> Collected(lp, g) == lp.(job := lp.job.(stage := Closing))
  {
  }

  lemma QueuedHasReceiver(m: Model, s: Sys, w: Worker)
    requires WellFormed(m) && Reachable(m, s) && Booted(s)
    requires QueueOf(s, QueueId(w.node, w.thread % NonZero(m.schedulers))) != []
    ensures QueueOf(s, QueueId(w.node, w.thread % NonZero(m.schedulers)))[0].body.recv < |s.lps|
  {
    hide LocalOk, Ledgers.Balanced, FloorOk;
    ReachableHasInv(m, s);
    var q := QueueId(w.node, w.thread % NonZero(m.schedulers));
    assert QueuedOk(m, s, q, QueueOf(s, q)[0]);
  }

  /** What is left of a rollback when its queues are undone, its sends cancelled, and the LP has
      coasted forward. */
  lemma RollbackRun(m: Model, s: Sys, r: Sys, c: Sys, d: Sys, i: nat)
    requires i < |s.lps| && s.lps[i].job.Busy?
    requires r == s.(lps := s.lps[i := RolledBack(s.lps[i], s.lps[i].job.event)])
    requires OnlySent(r, c, i) && Next(m, c, Coast(i), d) && c.lps[i].job.event == s.lps[i].job.event
    ensures OthersStay(s, d, i) && d.lps[i].job == c.lps[i].job.(stage := Ready)
    ensures var p := s.lps[i].processed;
            History(d.lps[i]) == s.lps[i].committed + p[..RollPoint(p, s.lps[i].job.event)]
  {
    hide RollPoint, RestoreStates, OutputPoint, InsertAll, UpTo, Queues.CoastForward;
  }

  /** The part of an LP's history that a rollback to e keeps. */
  function KeptBefore(lp: LP, e: Event): seq<Event> {
    lp.committed + lp.processed[..RollPoint(lp.processed, e)]
  }

  lemma CheckPasses(m: Model, s: Sys, i: nat)
    requires i < |s.lps| && s.lps[i].job.Busy? && s.lps[i].job.stage.Taken?
    requires !NeedsRollback(s.lps[i], s.lps[i].job.event)
    ensures Enabled(m, s, Check(i))
    ensures Apply(m, s, Check(i)) == s.(lps := s.lps[i := s.lps[i].(job := s.lps[i].job.(stage := Ready))])
    ensures OthersStay(s, Apply(m, s, Check(i)), i)
    ensures History(Apply(m, s, Check(i)).lps[i]) == History(s.lps[i])
  {
    hide RolledBack, NeedsRollback;
  }

  lemma NothingToUndo(lp: LP, e: Event)
    requires forall x :: x in History(lp) ==> Less(x, e)
    ensures KeptBefore(lp, e) == History(lp)
  {
    hide Less;
    var p := lp.processed;
    if p != [] {
      assert p[|p| - 1] in History(lp);
    }
    assert p[..|p|] == p;
  }

  lemma OthersStayTransitive(s: Sys, r: Sys, t: Sys, i: nat)
    requires OthersStay(s, r, i) && OthersStay(r, t, i)
    ensures OthersStay(s, t, i)
  {
  }

  lemma SentOnly(s: Sys, s': Sys, i: nat)
    requires OnlySent(s, s', i)
    ensures OthersStay(s, s', i)
    ensures i < |s.lps| ==> History(s'.lps[i]) == History(s.lps[i])
  {
  }

  /** The steps of a worker on the LP it holds, apart from sending, leave the other LPs alone;
      only the last one adds to the history. */
  lemma OwnStep(m: Model, s: Sys, t: Step, i: nat)
    requires Enabled(m, s, t) && i < |s.lps|
    requires t == Receive(i) || t == Cancel(i) || t == Step.Replenish(i) || (t.Collect? && t.i == i)
    ensures OthersStay(s, Apply(m, s, t), i)
    ensures History(Apply(m, s, t).lps[i]) ==
            if t.Replenish? then History(s.lps[i]) + [s.lps[i].job.event] else History(s.lps[i])
    ensures var job := Apply(m, s, t).lps[i].job;
            match t
            case Receive(_) => job.Busy? && job.worker == s.lps[i].job.worker && job.event == s.lps[i].job.event
                               && job.stage.Sending?
            case Collect(_, _) => job == s.lps[i].job.(stage := Closing)
            case _ => job.Idle?
  {
    hide OutputsCollected, EventsCollected, CollectStates, CollectTime, Erase, Insert, CancelIn;
    var lp := s.lps[i];
    if t.Collect? && t.g > lp.lastCollect {
      var p := EventsCollected(lp.processed, CollectTime(lp.states, t.g));
      assert lp.committed + lp.processed[..p] + lp.processed[p..] == lp.committed + lp.processed;
    }
    assert lp.committed + (lp.processed + [lp.job.event]) == (lp.committed + lp.processed) + [lp.job.event];
  }

  lemma ReceiveIsReady(m: Model, s: Sys, i: nat)
    requires i < |s.lps| && s.lps[i].job.Busy? && s.lps[i].job.stage.Ready?
    ensures s.lps[i].job.event.pos ==> Enabled(m, s, Receive(i))
    ensures !s.lps[i].job.event.pos ==> Enabled(m, s, Cancel(i))
  {
  }

  lemma CollectIsReady(m: Model, s: Sys, i: nat)
    requires i < |s.lps| && s.lps[i].job.Busy? && s.lps[i].job.stage == Sending([])
    ensures Enabled(m, s, Collect(i, s.floor))
  {
  }

  lemma ReplenishIsReady(m: Model, s: Sys, i: nat)
    requires i < |s.lps| && s.lps[i].job.Busy? && s.lps[i].job.stage.Closing?
    ensures Enabled(m, s, Step.Replenish(i))
  {
  }

  lemma SameWorkKeeps(lp: LP, lp': LP, e: Event)
    requires SameWork(lp, lp')
    ensures KeptBefore(lp', e) == KeptBefore(lp, e) && History(lp') == History(lp)
  {
  }

  lemma AllIdleIsBooted(s: Sys)
    requires forall j :: 0 <= j < |s.lps| ==> s.lps[j].job == Idle
    ensures Booted(s)
  {
  }

  lemma StillBooted(s: Sys, s': Sys, i: nat)
    requires Booted(s) && OthersStay(s, s', i) && i < |s.lps| && s'.lps[i].job.Idle?
    ensures Booted(s')
  {
  }

  lemma OthersKeepJobs(s: Sys, s': Sys, i: nat)
    requires OnlySent(s, s', i)
    ensures |s'.lps| == |s.lps| && forall j :: 0 <= j < |s.lps| && j != i ==> s'.lps[j].job == s.lps[j].job
  {
  }

  lemma NetDoesNotMatter(m: Model, s: Sys, net: set<Event>, r: nat)
    requires r < |s.lps| && InsertAssertionsHold(m, s, r)
    ensures InsertAssertionsHold(m, s.(net := net), r)
  {
  }

  class TimeWarpEventDispatcher {
    const m: Model
    const eventSet: TimeWarpEventSet
    const stateManager: TimeWarpPeriodicStateManager
    const outputManager: TimeWarpOutputManager
    var lpStates: seq<State>
    var generations: seq<nat>
    var lastFossilCollectGvts: seq<nat>
    var net: set<Event>
    var gvt: nat
    ghost var jobs: seq<Job>
    ghost var committed: seq<seq<Event>>
    ghost var committedOut: seq<seq<Output>>
    ghost var sent: seq<seq<Event>>

    ghost predicate Valid()
      reads this, eventSet, stateManager, outputManager
    {
      && eventSet.m == m && stateManager.m == m && outputManager.m == m
      && eventSet.Valid() && stateManager.Valid() && outputManager.Valid()
      && |lpStates| == |generations| == |lastFossilCollectGvts| == m.n
      && |jobs| == |committed| == |committedOut| == |sent| == m.n
    }

    ghost function LpAt(i: nat): LP
      reads this, eventSet, stateManager, outputManager
      requires Valid() && i < m.n
    {
      LP(eventSet.inputQueue[i], eventSet.processedQueue[i], stateManager.stateQueue[i],
         outputManager.outputQueue[i], eventSet.scheduledEventPointer[i], eventSet.inputQueueSchedulerMap[i],
         lpStates[i], generations[i], stateManager.count[i], lastFossilCollectGvts[i],
         jobs[i], committed[i], committedOut[i], sent[i])
    }

    /** The kernel state that the fields hold. */
    ghost function Abs(): (s: Sys)
      reads this, eventSet, stateManager, outputManager
      requires Valid()
      ensures |s.lps| == m.n && forall i :: 0 <= i < m.n ==> s.lps[i] == LpAt(i)
      ensures s.queues == eventSet.scheduleQueue && s.net == net && s.floor == gvt
    {
      Sys(seq(m.n, i requires 0 <= i < m.n && Valid() reads this, eventSet, stateManager, outputManager => LpAt(i)),
          eventSet.scheduleQueue, net, gvt)
    }

    constructor (m: Model)
      ensures Valid() && this.m == m && Abs() == Start(m)
      ensures fresh(eventSet) && fresh(stateManager) && fresh(outputManager)
    {
      this.m := m;
      eventSet := new TimeWarpEventSet(m);
      stateManager := new TimeWarpPeriodicStateManager(m);
      outputManager := new TimeWarpOutputManager(m);
      lpStates := seq(m.n, i requires 0 <= i => m.init(i));
      generations, lastFossilCollectGvts := seq(m.n, i => 0), seq(m.n, i => 0);
      net, gvt := {}, 0;
      jobs := seq(m.n, i requires 0 <= i => Booting(m.initMsgs(i)));
      committed, committedOut, sent := seq(m.n, i => []), seq(m.n, i => []), seq(m.n, i => []);
    }

    // ----------------------------------------------------------------------------------------
    // Sending
    // ----------------------------------------------------------------------------------------

    method SendLocalEvent(event: Event)
      requires Valid() && event.body.recv < m.n && InsertAssertionsHold(m, Abs(), event.body.recv)
      modifies eventSet
      ensures Valid() && Abs() == InsertEvent(m, old(Abs()), event.body.recv, event)
    {
      hide Insert, Erase;
      eventSet.InsertEvent(event.body.recv, event);
    }

    method EnqueueRemoteEvent(event: Event)
      requires Valid()
      modifies `net
      ensures Valid()
      ensures Abs() == if event.body.ts <= m.maxTime then old(Abs()).(net := old(net) + {event}) else old(Abs())
    {
      if event.body.ts <= m.maxTime {
        net := net + {event};
      }
    }

    /** What sendEvents and cancelEvents do with an event that is not past the end. */
    method Route(event: Event, senderLpId: nat)
      requires Valid() && event.body.recv < m.n && event.body.ts <= m.maxTime
      requires InsertAssertionsHold(m, Abs(), event.body.recv)
      modifies eventSet, `net
      ensures Valid() && Abs() == Post(m, old(Abs()), senderLpId, event)
    {
      hide InsertEvent, InsertAssertionsHold;
      if m.node(event.body.recv) == m.node(senderLpId) {
        SendLocalEvent(event);
      } else {
        EnqueueRemoteEvent(event);
      }
    }

    /** One turn of the loop of sendEvents. */
    method SendEvent(sourceEvent: Event, msg: Msg, lpId: nat, ghost rest: Job)
      requires Valid() && lpId < m.n && msg.recv < m.n && InsertAssertionsHold(m, Abs(), msg.recv)
      modifies this, eventSet, outputManager
      ensures Valid() && Abs() == SendOne(m, old(Abs()), lpId, sourceEvent, msg, rest)
    {
      hide Post;
      jobs := jobs[lpId := rest];
      if msg.ts <= m.maxTime {
        var e := Event(Body(msg.recv, msg.ts, sourceEvent.body.ts, lpId + 1, msg.data), generations[lpId], true);
        generations := generations[lpId := generations[lpId] + 1];
        sent := sent[lpId := sent[lpId] + [e]];
        outputManager.InsertEvent(sourceEvent, e, lpId);
        assert Abs().lps == old(Abs()).lps[lpId := Recorded(old(Abs()).lps[lpId].(job := rest), sourceEvent, e)];
        Route(e, lpId);
      } else {
        assert Abs().lps == old(Abs()).lps[lpId := old(Abs()).lps[lpId].(job := rest)];
      }
    }

    /** sendEvents, for initial and for later events: each turn of its loop is one step. */
    method SendEvents(sourceEvent: Event, newEvents: seq<Msg>, lpId: nat)
      requires WellFormed(m) && Valid() && Reachable(m, Abs()) && lpId < m.n
      requires IsSending(jobs[lpId], sourceEvent, newEvents)
      modifies this, eventSet, outputManager
      ensures Valid() && Reachable(m, Abs()) && OnlySent(old(Abs()), Abs(), lpId)
      ensures IsSending(jobs[lpId], sourceEvent, []) && jobs[lpId] == WithMsgs(old(jobs)[lpId], [])
    {
      hide Enabled, Apply, SendOne, SameWork, OnlySent, Reachable, WellFormed, InsertAssertionsHold;
      ghost var job := jobs[lpId];
      assert newEvents[0..] == newEvents;
      OnlySentReflexive(Abs(), lpId);
      for k := 0 to |newEvents|
        invariant Valid() && Reachable(m, Abs()) && OnlySent(old(Abs()), Abs(), lpId)
        invariant jobs[lpId] == WithMsgs(job, newEvents[k..])
      {
        ghost var before := Abs();
        assert newEvents[k..][0] == newEvents[k] && newEvents[k..][1..] == newEvents[k + 1..];
        NextMessageIsOk(m, before, lpId, sourceEvent, newEvents[k..]);
        SendStepIsSendOne(m, before, lpId, sourceEvent, newEvents[k..]);
        SendEvent(sourceEvent, newEvents[k], lpId, WithMsgs(job, newEvents[k + 1..]));
        NextIsReachable(m, before, SendStep(job, lpId), Abs());
        SendOneOnlySends(m, before, lpId, sourceEvent, newEvents[k], WithMsgs(job, newEvents[k + 1..]));
        OnlySentTransitive(old(Abs()), before, Abs(), lpId);
      }
      assert newEvents[|newEvents|..] == [];
    }

    /** One turn of the loop of cancelEvents. */
    method CancelOne(event: Event, lpId: nat, ghost rest: Job)
      requires Valid() && lpId < m.n && Enabled(m, Abs(), Step.SendAnti(lpId))
      requires jobs[lpId].stage.antis[0] == event && InsertAssertionsHold(m, Abs(), event.body.recv)
      requires rest == jobs[lpId].(stage := Cancelling(jobs[lpId].stage.antis[1..], jobs[lpId].stage.restored))
      modifies this, eventSet
      ensures Valid() && Abs() == Apply(m, old(Abs()), Step.SendAnti(lpId))
    {
      hide Post, InsertAssertionsHold;
      JobsDoNotMatter(m, Abs(), lpId, rest, event.body.recv);
      jobs := jobs[lpId := rest];
      assert Abs().lps == old(Abs()).lps[lpId := old(Abs()).lps[lpId].(job := rest)];
      if event.body.ts <= m.maxTime {
        Route(NegOf(event), lpId);
      }
    }

    /** cancelEvents: the largest send comes first in the vector, so it is emptied from the back. */
    method CancelEvents(eventsToCancel: seq<Event>, lpId: nat)
      requires WellFormed(m) && Valid() && Reachable(m, Abs()) && lpId < m.n
      requires jobs[lpId].Busy? && jobs[lpId].stage.Cancelling?
      requires jobs[lpId].stage.antis == Backwards(eventsToCancel)
      modifies this, eventSet
      ensures Valid() && Reachable(m, Abs()) && OnlySent(old(Abs()), Abs(), lpId)
      ensures jobs[lpId] == old(jobs)[lpId].(stage := Cancelling([], old(jobs)[lpId].stage.restored))
    {
      hide Apply, Post, SameWork, OnlySent, Reachable, WellFormed, InsertAssertionsHold;
      ghost var job := jobs[lpId];
      OnlySentReflexive(Abs(), lpId);
      var left := eventsToCancel;
      while left != []
        invariant Valid() && Reachable(m, Abs()) && OnlySent(old(Abs()), Abs(), lpId)
        invariant jobs[lpId] == job.(stage := Cancelling(Backwards(left), job.stage.restored))
        decreases |left|
      {
        ghost var before := Abs();
        var event := left[|left| - 1];
        assert Backwards(left)[1..] == Backwards(left[..|left| - 1]);
        left := left[..|left| - 1];
        NextAntiIsOk(m, before, lpId);
        SendAntiOnlySends(m, before, lpId);
        CancelOne(event, lpId, job.(stage := Cancelling(Backwards(left), job.stage.restored)));
        NextIsReachable(m, before, Step.SendAnti(lpId), Abs());
        OnlySentTransitive(old(Abs()), before, Abs(), lpId);
      }
    }

    // ----------------------------------------------------------------------------------------
    // Rolling back
    // ----------------------------------------------------------------------------------------

    /** The first half of rollback(): queues, state and outputs, before any anti-message is sent. */
    method UndoQueues(stragglerEvent: Event, lpId: nat) returns (restoredStateEvent: Event, eventsToCancel: seq<Event>)
      requires Valid() && lpId < m.n && jobs[lpId].Busy? && jobs[lpId].event == stragglerEvent
      requires RestoreStates(stateManager.stateQueue[lpId], stragglerEvent) != []
      modifies this, eventSet, stateManager, outputManager
      ensures Valid() && Abs() == old(Abs()).(lps := old(Abs()).lps[lpId := RolledBack(old(Abs()).lps[lpId], stragglerEvent)])
      ensures jobs[lpId] == old(jobs)[lpId].(stage := Cancelling(Backwards(eventsToCancel), restoredStateEvent))
    {
      hide RollPoint, RestoreStates, OutputPoint, InsertAll, Less, SameId, EventsOf, Backwards;
      ghost var lp, lps, outs := LpAt(lpId), Abs().lps, outputManager.outputQueue[lpId];
      eventSet.Rollback(lpId, stragglerEvent);
      var restored := stateManager.RestoreState(stragglerEvent, lpId);
      lpStates := lpStates[lpId := restored.state];
      restoredStateEvent := restored.event;
      eventsToCancel := outputManager.RemoveEventsSentAfter(stragglerEvent, lpId);
      assert Backwards(eventsToCancel) == EventsOf(outs[OutputPoint(outs, stragglerEvent)..]);
      jobs := jobs[lpId := jobs[lpId].(stage := Cancelling(Backwards(eventsToCancel), restoredStateEvent))];
      assert LpAt(lpId) == RolledBack(lp, stragglerEvent);
      assert Abs().lps == lps[lpId := LpAt(lpId)];
    }

    /** Reprocesses events, which come newest first, and sends nothing. */
    method Reprocess(events: seq<Event>, lpId: nat)
      requires Valid() && lpId < m.n
      modifies `lpStates
      ensures lpStates == old(lpStates)[lpId := Queues.CoastForward(m, lpId, old(lpStates)[lpId], Backwards(events))]
    {
      ghost var s := lpStates[lpId];
      var k := |events|;
      assert Backwards(events[..k]) == Backwards(events) && lpStates[lpId := s] == lpStates;
      while k > 0
        invariant 0 <= k <= |events| && |lpStates| == m.n
        invariant lpStates == old(lpStates)[lpId := lpStates[lpId]]
        invariant Queues.CoastForward(m, lpId, lpStates[lpId], Backwards(events[..k]))
               == Queues.CoastForward(m, lpId, s, Backwards(events))
      {
        k := k - 1;
        assert Backwards(events[..k + 1])[1..] == Backwards(events[..k]);
        lpStates := lpStates[lpId := m.receive(lpId, lpStates[lpId], events[k].body).0];
      }
    }

    method CoastForward(stragglerEvent: Event, restoredStateEvent: Event, lpId: nat)
      requires WellFormed(m) && Valid() && Reachable(m, Abs()) && lpId < m.n
      requires jobs[lpId].Busy? && jobs[lpId].event == stragglerEvent
      requires jobs[lpId].stage == Cancelling([], restoredStateEvent)
      modifies `lpStates, `jobs
      ensures Valid() && Reachable(m, Abs()) && Next(m, old(Abs()), Coast(lpId), Abs())
    {
      hide Reachable, WellFormed, UpTo, Less, Queues.CoastForward;
      ghost var before := Abs();
      AssertionsNeverFail(m, before, Coast(lpId));
      var events := eventSet.GetEventsForCoastForward(lpId, stragglerEvent, restoredStateEvent);
      ghost var p := eventSet.processedQueue[lpId];
      assert Backwards(events) == p[UpTo(p, restoredStateEvent)..];
      Reprocess(events, lpId);
      jobs := jobs[lpId := jobs[lpId].(stage := Ready)];
      assert Abs().lps == Apply(m, before, Coast(lpId)).lps;
      NextIsReachable(m, before, Coast(lpId), Abs());
    }

    /** rollback(): the LP ends up in the state before the straggler, with its sends cancelled. */
    method Rollback(stragglerEvent: Event, lpId: nat)
      requires WellFormed(m) && Valid() && Reachable(m, Abs()) && lpId < m.n
      requires jobs[lpId].Busy? && jobs[lpId].event == stragglerEvent && jobs[lpId].stage.Taken?
      requires NeedsRollback(LpAt(lpId), stragglerEvent)
      modifies this, eventSet, stateManager, outputManager
      ensures Valid() && Reachable(m, Abs())
      ensures jobs[lpId] == old(jobs)[lpId].(stage := Ready)
      ensures var p := old(LpAt(lpId)).processed;
              History(LpAt(lpId)) == old(LpAt(lpId)).committed + p[..RollPoint(p, stragglerEvent)]
      ensures LpAt(lpId).state == StateOf(m, lpId, History(LpAt(lpId)))
      ensures OthersStay(old(Abs()), Abs(), lpId)
    {
      hide Abs, Enabled, Apply, RolledBack, RollPoint, StateOf, SameWork, OnlySent, OthersStay, Reachable, WellFormed, RollbackAssertionsHold, NeedsRollback, AssertionsHold;
      ghost var s := Abs();
      CheckRollsBack(m, s, lpId, stragglerEvent);
      AssertionsNeverFail(m, s, Check(lpId));
      var restoredStateEvent, eventsToCancel := UndoQueues(stragglerEvent, lpId);
      NextIsReachable(m, s, Check(lpId), Abs());
      ghost var r := Abs();
      CancelEvents(eventsToCancel, lpId);
      ghost var c := Abs();
      CoastForward(stragglerEvent, restoredStateEvent, lpId);
      RollbackRun(m, s, r, c, Abs(), lpId);
      StateIsReplay(m, Abs(), lpId);
    }

    // ----------------------------------------------------------------------------------------
    // The worker loop
    // ----------------------------------------------------------------------------------------

    /** The part of processEvents that collects the LP's queues when GVT has moved on. */
    method FossilCollect(lpId: nat)
      requires Valid() && Enabled(m, Abs(), Collect(lpId, gvt))
      modifies this, eventSet, stateManager, outputManager
      ensures Valid() && Abs() == Apply(m, old(Abs()), Collect(lpId, old(gvt)))
    {
      hide Enabled, Apply, Collected;
      ghost var before := Abs();
      CollectIsCollected(m, before, lpId, gvt);
      CollectedAt(before.lps[lpId], gvt);
      if gvt > lastFossilCollectGvts[lpId] {
        CollectQueues(lpId);
        assert LpAt(lpId) == Abs().lps[lpId] == Collected(before.lps[lpId], gvt).(job := jobs[lpId]);
      }
      assert forall k :: 0 <= k < m.n ==> LpAt(k) == Abs().lps[k];
      assert forall k :: 0 <= k < m.n && k != lpId ==> LpAt(k) == before.lps[k];
      ghost var lp := LpAt(lpId);
      assert lp.(job := jobs[lpId].(stage := Closing)) == Collected(before.lps[lpId], gvt);
      jobs := jobs[lpId := jobs[lpId].(stage := Closing)];
      assert LpAt(lpId) == lp.(job := jobs[lpId]);
      assert forall k :: 0 <= k < m.n && k != lpId ==> LpAt(k) == before.lps[k];
      assert Abs().lps == before.lps[lpId := Collected(before.lps[lpId], gvt)];
    }

    /** The three managers give up what GVT has passed. */
    method CollectQueues(lpId: nat)
      requires Valid() && lpId < m.n && jobs[lpId].Busy? && gvt > lastFossilCollectGvts[lpId]
      modifies this, eventSet, stateManager, outputManager
      ensures Valid() && jobs == old(jobs)
      ensures Abs() == old(Abs().(lps := Abs().lps[lpId := Collected(LpAt(lpId), gvt).(job := jobs[lpId])]))
    {
      hide OutputsCollected, EventsCollected, CollectStates, CollectTime;
      ghost var lp, lps := LpAt(lpId), Abs().lps;
      lastFossilCollectGvts := lastFossilCollectGvts[lpId := gvt];
      committedOut := committedOut[lpId := committedOut[lpId] + lp.outputs[..OutputsCollected(lp.outputs, gvt)]];
      var _ := outputManager.FossilCollect(gvt, lpId);
      var eventFossilCollectTime := stateManager.FossilCollect(gvt, lpId);
      var numCommitted := eventSet.FossilCollect(eventFossilCollectTime, lpId);
      committed := committed[lpId := committed[lpId] + lp.processed[..numCommitted]];
      assert LpAt(lpId) == Collected(lp, gvt).(job := jobs[lpId]);
      assert Abs().lps == lps[lpId := LpAt(lpId)];
    }

    /** receiveEvent and saveState. */
    method ProcessEvent(event: Event, lpId: nat) returns (newEvents: seq<Msg>)
      requires Valid() && Enabled(m, Abs(), Receive(lpId)) && jobs[lpId].event == event
      modifies this, stateManager
      ensures Valid() && Abs() == Apply(m, old(Abs()), Receive(lpId))
      ensures jobs[lpId] == old(jobs)[lpId].(stage := Sending(newEvents))
    {
      ghost var before := Abs();
      var (state, msgs) := m.receive(lpId, lpStates[lpId], event.body);
      newEvents := msgs;
      lpStates := lpStates[lpId := state];
      stateManager.SaveState(event, lpId, state);
      jobs := jobs[lpId := jobs[lpId].(stage := Sending(newEvents))];
      assert Abs().lps == Apply(m, before, Receive(lpId)).lps;
    }

    /** cancelEvent and startScheduling, under the lock of the LP's input queue. */
    method Annihilate(event: Event, lpId: nat)
      requires WellFormed(m) && Valid() && Reachable(m, Abs()) && Enabled(m, Abs(), Cancel(lpId))
      requires jobs[lpId].event == event
      modifies this, eventSet
      ensures Valid() && Abs() == Apply(m, old(Abs()), Cancel(lpId))
    {
      hide Reachable, WellFormed, Find, CancelIn, CanCancel, Insert;
      ghost var before := Abs();
      AnnihilationSucceeds(m, before, lpId);
      var _ := eventSet.CancelEvent(lpId, event);
      eventSet.StartScheduling(lpId);
      jobs := jobs[lpId := Idle];
      assert Abs().lps == Apply(m, before, Cancel(lpId)).lps;
    }

    method Replenish(lpId: nat)
      requires WellFormed(m) && Valid() && Reachable(m, Abs()) && Enabled(m, Abs(), Step.Replenish(lpId))
      modifies this, eventSet
      ensures Valid() && Abs() == Apply(m, old(Abs()), Step.Replenish(lpId))
    {
      hide Reachable, WellFormed, Erase, Insert;
      ghost var before := Abs();
      AssertionsNeverFail(m, before, Step.Replenish(lpId));
      eventSet.ReplenishScheduler(lpId);
      jobs := jobs[lpId := Idle];
      assert Abs().lps == Apply(m, before, Step.Replenish(lpId)).lps;
    }

    method TakeEvent(w: Worker) returns (event: Option<Event>)
      requires WellFormed(m) && Valid() && Reachable(m, Abs()) && Booted(Abs())
      requires forall j :: 0 <= j < m.n && jobs[j].Busy? ==> jobs[j].worker != w
      modifies this, eventSet
      ensures Valid()
      ensures var Q := QueueOf(old(Abs()), QueueId(w.node, w.thread % NonZero(m.schedulers)));
              (event.None? <==> Q == []) && (event.Some? ==> event.value == Q[0])
      ensures event.None? ==> Abs() == old(Abs())
      ensures event.Some? ==> Enabled(m, old(Abs()), GetEvent(w)) && Abs() == Apply(m, old(Abs()), GetEvent(w))
      ensures event.Some? ==> var i := event.value.body.recv;
              i < m.n && jobs[i] == Busy(w, event.value, Taken) && OthersStay(old(Abs()), Abs(), i)
              && SameWork(old(Abs()).lps[i], Abs().lps[i]) && old(jobs)[i].Idle?
    {
      assert NonZero(m.schedulers) == m.schedulers;
      hide Reachable, WellFormed;
      ghost var before := Abs();
      event := eventSet.GetEvent(w);
      if event.Some? {
        QueuedHasReceiver(m, before, w);
        NoLpIsProcessedTwice(m, before, w);
        var i := event.value.body.recv;
        assert before.lps[i].job == jobs[i];
        jobs := jobs[i := Busy(w, event.value, Taken)];
        assert Abs().lps == Apply(m, before, GetEvent(w)).lps;
      }
    }

    /** The rollback check of processEvents: the LP's history shrinks to what is before the event. */
    method CheckForRollback(event: Event, lpId: nat)
      requires WellFormed(m) && Valid() && Reachable(m, Abs()) && lpId < m.n
      requires jobs[lpId].Busy? && jobs[lpId].event == event && jobs[lpId].stage.Taken?
      modifies this, eventSet, stateManager, outputManager
      ensures Valid() && Reachable(m, Abs()) && OthersStay(old(Abs()), Abs(), lpId)
      ensures jobs[lpId] == old(jobs)[lpId].(stage := Ready)
      ensures History(LpAt(lpId)) == KeptBefore(old(LpAt(lpId)), event)
    {
      hide Enabled, Apply, History, Reachable, WellFormed, OthersStay, Less, SameId, RollPoint;
      ghost var s := Abs();
      var lastProcessedEvent := eventSet.LastProcessedEvent(lpId);
      if lastProcessedEvent.Some?
         && (Less(event, lastProcessedEvent.value) || (SameId(event, lastProcessedEvent.value) && !event.pos)) {
        Rollback(event, lpId);
      } else {
        jobs := jobs[lpId := jobs[lpId].(stage := Ready)];
        assert Abs().lps == s.lps[lpId := s.lps[lpId].(job := jobs[lpId])];
        CheckPasses(m, s, lpId);
        NextIsReachable(m, s, Check(lpId), Abs());
        StateIsReplay(m, Abs(), lpId);
        NothingToUndo(s.lps[lpId], event);
      }
    }

    /** Collects the LP's queues, moves the event to the processed queue, and lets go of the LP. */
    method Close(event: Event, lpId: nat)
      requires WellFormed(m) && Valid() && Reachable(m, Abs()) && lpId < m.n
      requires jobs[lpId].Busy? && jobs[lpId].event == event && jobs[lpId].stage == Sending([])
      modifies this, eventSet, stateManager, outputManager
      ensures Valid() && Reachable(m, Abs()) && OthersStay(old(Abs()), Abs(), lpId)
      ensures jobs[lpId].Idle? && History(LpAt(lpId)) == History(old(LpAt(lpId))) + [event]
    {
      hide Abs, Enabled, Apply, History, Reachable, WellFormed, OthersStay;
      ghost var t := Abs();
      CollectIsReady(m, t, lpId);
      FossilCollect(lpId);
      OwnStep(m, t, Collect(lpId, t.floor), lpId);
      NextIsReachable(m, t, Collect(lpId, t.floor), Abs());
      ghost var c := Abs();
      ReplenishIsReady(m, c, lpId);
      Replenish(lpId);
      OwnStep(m, c, Step.Replenish(lpId), lpId);
      NextIsReachable(m, c, Step.Replenish(lpId), Abs());
      OthersStayTransitive(t, c, Abs(), lpId);
    }

    /** The rest of the loop body for a positive event: process, save, send, collect, replenish. */
    method Execute(event: Event, lpId: nat)
      requires WellFormed(m) && Valid() && Reachable(m, Abs()) && lpId < m.n
      requires jobs[lpId].Busy? && jobs[lpId].event == event && jobs[lpId].stage.Ready? && event.pos
      modifies this, eventSet, stateManager, outputManager
      ensures Valid() && Reachable(m, Abs()) && OthersStay(old(Abs()), Abs(), lpId)
      ensures jobs[lpId].Idle? && History(LpAt(lpId)) == History(old(LpAt(lpId))) + [event]
    {
      ghost var s := Abs();
      ReceiveIsReady(m, s, lpId);
      hide Abs, Enabled, Apply, History, Reachable, WellFormed, OthersStay, OnlySent;
      var newEvents := ProcessEvent(event, lpId);
      OwnStep(m, s, Receive(lpId), lpId);
      NextIsReachable(m, s, Receive(lpId), Abs());
      ghost var r := Abs();
      SendEvents(event, newEvents, lpId);
      SentOnly(r, Abs(), lpId);
      ghost var t := Abs();
      OthersStayTransitive(s, r, t, lpId);
      Close(event, lpId);
      OthersStayTransitive(s, t, Abs(), lpId);
    }

    /** One turn of the loop of processEvents: the LP of the event taken ends up with exactly the
        history before that event, followed by it unless it is an anti-message, and in the state
        that this history leads to; no other LP's history or state changes. */
    method ProcessEvents(w: Worker) returns (event: Option<Event>)
      requires WellFormed(m) && Valid() && Reachable(m, Abs()) && Booted(Abs())
      requires forall j :: 0 <= j < m.n && jobs[j].Busy? ==> jobs[j].worker != w
      modifies this, eventSet, stateManager, outputManager
      ensures Valid() && Reachable(m, Abs()) && Booted(Abs())
      ensures var Q := QueueOf(old(Abs()), QueueId(w.node, w.thread % NonZero(m.schedulers)));
              (event.None? <==> Q == []) && (event.Some? ==> event.value == Q[0])
      ensures event.None? ==> Abs() == old(Abs())
      ensures event.Some? ==>
                var i, e := event.value.body.recv, event.value;
                && i < m.n && jobs[i].Idle? && OthersStay(old(Abs()), Abs(), i)
                && History(LpAt(i)) == KeptBefore(old(LpAt(i)), e) + (if e.pos then [e] else [])
                && LpAt(i).state == StateOf(m, i, History(LpAt(i)))
    {
      hide Enabled, Apply, History, Reachable, WellFormed, OthersStay, SameWork, KeptBefore, Booted, StateOf;
      ghost var s := Abs();
      event := TakeEvent(w);
      if event.None? {
        return;
      }
      var i, e := event.value.body.recv, event.value;
      NextIsReachable(m, s, GetEvent(w), Abs());
      ghost var r := Abs();
      SameWorkKeeps(s.lps[i], r.lps[i], e);
      CheckForRollback(e, i);
      ghost var t := Abs();
      OthersStayTransitive(s, r, t, i);
      if e.pos {
        Execute(e, i);
      } else {
        ReceiveIsReady(m, t, i);
        Annihilate(e, i);
        OwnStep(m, t, Cancel(i), i);
        NextIsReachable(m, t, Cancel(i), Abs());
        assert History(LpAt(i)) + [] == History(LpAt(i));
      }
      OthersStayTransitive(s, t, Abs(), i);
      StillBooted(s, Abs(), i);
      StateIsReplay(m, Abs(), i);
      assert Replayed(History(LpAt(i)), jobs[i]) == History(LpAt(i));
    }

    // ----------------------------------------------------------------------------------------
    // The master thread
    // ----------------------------------------------------------------------------------------

    method ReceiveEventMessage(event: Event)
      requires WellFormed(m) && Valid() && Reachable(m, Abs()) && Enabled(m, Abs(), Deliver(event))
      modifies this, eventSet
      ensures Valid() && Reachable(m, Abs()) && Abs() == Apply(m, old(Abs()), Deliver(event))
    {
      hide Reachable, WellFormed, InsertEvent, InsertAssertionsHold;
      ghost var before := Abs();
      AssertionsNeverFail(m, before, Deliver(event));
      NetDoesNotMatter(m, before, before.net - {event}, event.body.recv);
      net := net - {event};
      assert Abs().lps == before.lps;
      SendLocalEvent(event);
      NextIsReachable(m, before, Deliver(event), Abs());
    }

    /** A GVT is published; the GVT managers' own theorems say that it is a lower bound. */
    method GvtUpdate(newGvt: nat)
      requires Valid() && Reachable(m, Abs()) && Booted(Abs()) && AllAtLeast(Abs(), newGvt)
      modifies `gvt
      ensures Valid() && Reachable(m, Abs()) && Abs() == Apply(m, old(Abs()), Advance(newGvt))
      ensures newGvt <= gvt && old(gvt) <= gvt && (gvt == newGvt || gvt == old(gvt))
    {
      hide Reachable;
      ghost var before := Abs();
      gvt := if newGvt > gvt then newGvt else gvt;
      assert Abs().lps == before.lps;
      NextIsReachable(m, before, Advance(newGvt), Abs());
    }

    /** The last thing that initialize() does with an LP. */
    method SaveInitialState(lpId: nat)
      requires Valid() && lpId < m.n && jobs[lpId] == Booting([])
      modifies this, stateManager
      ensures Valid() && Next(m, old(Abs()), Boot(lpId), Abs())
      ensures jobs == old(jobs)[lpId := Idle]
    {
      ghost var before := Abs();
      stateManager.SaveState(INITIAL, lpId, lpStates[lpId]);
      jobs := jobs[lpId := Idle];
      assert Abs().lps == Apply(m, before, Boot(lpId)).lps;
    }

    /** initialize(), for one LP. */
    method InitializeLP(lpId: nat)
      requires WellFormed(m) && Valid() && Reachable(m, Abs()) && lpId < m.n
      requires jobs[lpId] == Booting(m.initMsgs(lpId))
      modifies this, eventSet, stateManager, outputManager
      ensures Valid() && Reachable(m, Abs()) && jobs == old(jobs)[lpId := Idle]
    {
      hide Abs, Next, WellFormed, OnlySent, Reachable;
      ghost var before := Abs();
      SendEvents(INITIAL, m.initMsgs(lpId), lpId);
      OthersKeepJobs(before, Abs(), lpId);
      forall j | 0 <= j < m.n
        ensures jobs[j] == old(jobs)[lpId := Booting([])][j]
      {
        assert before.lps[j].job == old(jobs)[j] && Abs().lps[j].job == jobs[j];
      }
      ghost var sent := Abs();
      SaveInitialState(lpId);
      NextIsReachable(m, sent, Boot(lpId), Abs());
    }

    /** initialize(): sends every LP's initial events and saves its initial state. */
    method Initialize()
      requires WellFormed(m) && Valid() && Abs() == Start(m)
      modifies this, eventSet, stateManager, outputManager
      ensures Valid() && Reachable(m, Abs()) && Booted(Abs())
    {
      assert Reaches(m, [], Abs());
      assert forall j :: 0 <= j < m.n ==> Abs().lps[j].job == jobs[j];
      hide Next, WellFormed, Booted, Reachable;
      for i := 0 to m.n
        invariant Valid() && Reachable(m, Abs())
        invariant forall j :: 0 <= j < m.n ==> jobs[j] == if j < i then Idle else Booting(m.initMsgs(j))
      {
        InitializeLP(i);
      }
      AllIdleIsBooted(Abs());
    }
  }
}
