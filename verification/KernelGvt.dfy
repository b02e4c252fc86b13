/** What the GVT algorithms assume of the processes, proved of the kernel: its steps are the work,
    sends and arrivals of the GVT models, so that every GVT that the asynchronous manager publishes
    may be used for fossil collection. */
module KernelGvt {
  import opened Events
  import opened Simulation
  import opened Queues
  import opened Kernel
  import opened KernelInvariant
  import opened KernelScheduling
  import opened KernelBooks
  import opened KernelSteps
  import opened KernelTheorems
  import Ledgers
  import M = Mattern

  /** The times of the unprocessed events of process d, those in hand included. */
  ghost function PendingAt(m: Model, s: Sys, d: nat): (r: set<nat>)
    ensures forall t :: t in r <==> exists i, x :: UnprocessedAt(m, s, d, i, x) && x.body.ts == t
  {
    var r := set i, x | 0 <= i < |s.lps| && x in s.lps[i].input && UnprocessedAt(m, s, d, i, x) :: x.body.ts;
    assert forall i, x :: UnprocessedAt(m, s, d, i, x) ==> x.body.ts in r;
    r
  }

  predicate UnprocessedAt(m: Model, s: Sys, d: nat, i: int, x: Event) {
    0 <= i < |s.lps| && m.node(i) == d && x in s.lps[i].input
  }

  /** From s to s', only process d changed its input queues, and added only events from time t on. */
  ghost predicate Late(m: Model, s: Sys, s': Sys, d: nat, t: nat) {
    && |s'.lps| == |s.lps|
    && (forall j :: 0 <= j < |s.lps| && m.node(j) != d ==> s'.lps[j].input == s.lps[j].input)
    && (forall j, x :: 0 <= j < |s.lps| && x in s'.lps[j].input ==> x in s.lps[j].input || x.body.ts >= t)
  }

  ghost predicate SameInputs(s: Sys, s': Sys) {
    |s'.lps| == |s.lps| && forall j :: 0 <= j < |s.lps| ==> s'.lps[j].input == s.lps[j].input
  }

  /** Process d sent e, which is from time t on and was not in transit. */
  ghost predicate SentOut(m: Model, s: Sys, s': Sys, d: nat, t: nat, e: Event) {
    && SameInputs(s, s') && s'.net == s.net + {e} && e !in s.net
    && e.body.ts >= t && e.body.recv < |s.lps| && m.node(e.body.recv) != d
  }

  ghost predicate WorkOf(m: Model, s: Sys, s': Sys, d: nat, t: nat) {
    || (Late(m, s, s', d, t) && s'.net == s.net)
    || (exists e :: SentOut(m, s, s', d, t, e))
  }

  // ------------------------------------------------------------------------------------------
  // Steps of a worker on the LP it holds
  // ------------------------------------------------------------------------------------------

  lemma ReleaseKeepsInputs(m: Model, s: Sys, i: nat)
    requires i < |s.lps|
    ensures SameInputs(s, Release(m, s, i)) && Release(m, s, i).net == s.net
  {
    hide Insert;
  }

  lemma PostIsWork(m: Model, s: Sys, r: Sys, i: nat, e: Event, t: nat)
    requires SameInputs(s, r) && r.net == s.net && i < |s.lps| && e.body.recv < |s.lps| && e.body.ts >= t && e !in s.net
    ensures WorkOf(m, s, Post(m, r, i, e), m.node(i), t)
  {
    hide Insert, Erase;
    var s' := Post(m, r, i, e);
    if m.node(e.body.recv) != m.node(i) {
      assert SentOut(m, s, s', m.node(i), t, e);
    }
  }

  lemma RollbackIsLate(m: Model, s: Sys, i: nat)
    requires Enabled(m, s, Check(i))
    ensures WorkOf(m, s, Apply(m, s, Check(i)), m.node(i), s.lps[i].job.event.body.ts)
  {
    hide OutputPoint, RestoreStates, RollPoint, InsertAll;
    var lp, e := s.lps[i], s.lps[i].job.event;
    var c := RollPoint(lp.processed, e);
    forall x | x in lp.processed[c..]
      ensures x.body.ts >= e.body.ts
    {
      var k :| 0 <= k < |lp.processed| - c && lp.processed[c..][k] == x;
      assert !Less(lp.processed[c + k], e);
    }
  }

  lemma QuietStepIsWork(m: Model, s: Sys, t: Step, i: nat)
    requires Enabled(m, s, t) && i < |s.lps|
    requires t == Coast(i) || t == Receive(i) || (t.Collect? && t.i == i)
    ensures WorkOf(m, s, Apply(m, s, t), m.node(i), s.lps[i].job.event.body.ts)
  {
    hide OutputsCollected, EventsCollected, CollectStates, CollectTime, UpTo, CoastForward;
  }

  lemma CancelShrinks(q: seq<Event>, e: Event)
    ensures forall x :: x in CancelIn(q, e) ==> x in q
  {
    hide Find;
  }

  lemma ClosingStepIsWork(m: Model, s: Sys, t: Step, i: nat, time: nat)
    requires Enabled(m, s, t) && i < |s.lps| && (t == Cancel(i) || t == Step.Replenish(i))
    ensures WorkOf(m, s, Apply(m, s, t), m.node(i), time)
  {
    hide CancelIn, Erase, Release;
    var lp := s.lps[i];
    CancelShrinks(lp.input, lp.job.event);
    if t.Cancel? {
      ReleaseKeepsInputs(m, s.(lps := s.lps[i := lp.(input := CancelIn(lp.input, lp.job.event))]), i);
    } else {
      ReleaseKeepsInputs(m, s.(lps := s.lps[i := Finished(m, lp)]), i);
    }
  }

  /** A new event has a number that no recorded event of its sender has. */
  lemma NewEventIsNotInTransit(m: Model, s: Sys, i: nat, input: Event, msg: Msg)
    requires WellFormed(m) && Inv(m, s) && i < m.n
    ensures |s.lps| == m.n && NewEvent(i, s.lps[i], input, msg) !in s.net
  {
    hide SavedStatesOk, StateOk, OutputsOk, Numbered, HistoryOk, AntisOk, MsgsOk, InputOk, JobOk;
    var e := NewEvent(i, s.lps[i], input, msg);
    assert LocalOk(m, i, s.lps[i]);
    assert LedgerOf(s).sent[i] == s.lps[i].sent;
    assert !Ledgers.Known(LedgerOf(s), e);
    assert LedgerOf(s).net == s.net;
  }

  lemma SendStepIsWork(m: Model, s: Sys, i: nat)
    requires WellFormed(m) && Inv(m, s) && Enabled(m, s, SendNext(i))
    ensures WorkOf(m, s, Apply(m, s, SendNext(i)), m.node(i), s.lps[i].job.event.body.ts)
  {
    hide LocalOk, Ledgers.Balanced, SchedulingOk, FloorOk, Post;
    var lp := s.lps[i];
    var msg := lp.job.stage.msgs[0];
    var rest := lp.(job := lp.job.(stage := Sending(lp.job.stage.msgs[1..])));
    var e := NewEvent(i, lp, lp.job.event, msg);
    NewEventIsNotInTransit(m, s, i, lp.job.event, msg);
    InHandIsEarlier(m, i, lp);
    if msg.ts <= m.maxTime {
      PostIsWork(m, s, s.(lps := s.lps[i := Recorded(rest, lp.job.event, e)]), i, e, lp.job.event.body.ts);
    }
  }

  /** What an LP sends or takes back is later than the event in hand. */
  lemma InHandIsEarlier(m: Model, i: nat, lp: LP)
    requires LocalOk(m, i, lp) && lp.job.Busy?
    ensures lp.job.stage.Sending? && lp.job.stage.msgs != [] ==> lp.job.stage.msgs[0].ts > lp.job.event.body.ts
    ensures lp.job.stage.Cancelling? && lp.job.stage.antis != [] ==>
              lp.job.stage.antis[0].body.ts > lp.job.event.body.ts && lp.job.stage.antis[0].body.sender == i + 1
  {
    hide SavedStatesOk, StateOk, OutputsOk, HistoryOk, InputOk, JobOk;
    if lp.job.stage.Cancelling? && lp.job.stage.antis != [] {
      var a := lp.job.stage.antis[0];
      assert a in Antis(lp.job);
      assert SentItemOk(m, i, a.gen, lp.sent[a.gen]);
    }
  }

  lemma AntiIsNotInTransit(m: Model, s: Sys, i: nat)
    requires WellFormed(m) && Inv(m, s) && Enabled(m, s, Step.SendAnti(i))
    ensures NegOf(s.lps[i].job.stage.antis[0]) !in s.net
  {
    hide LocalOk, Ledgers.Balanced, SchedulingOk, FloorOk;
    var a := s.lps[i].job.stage.antis[0];
    assert a in AntiLists(s)[i];
    Ledgers.SendAntiBalances(m.node, LedgerOf(s), a);
  }

  lemma AntiStepIsWork(m: Model, s: Sys, i: nat)
    requires WellFormed(m) && Inv(m, s) && Enabled(m, s, Step.SendAnti(i))
    ensures WorkOf(m, s, Apply(m, s, Step.SendAnti(i)), m.node(i), s.lps[i].job.event.body.ts)
  {
    hide LocalOk, Ledgers.Balanced, SchedulingOk, FloorOk, Post;
    var lp := s.lps[i];
    var antis := lp.job.stage.antis;
    var r := s.(lps := s.lps[i := lp.(job := lp.job.(stage := Cancelling(antis[1..], lp.job.stage.restored)))]);
    AntiIsNotInTransit(m, s, i);
    InHandIsEarlier(m, i, lp);
    if antis[0].body.ts <= m.maxTime {
      PostIsWork(m, s, r, i, NegOf(antis[0]), lp.job.event.body.ts);
    }
  }

  predicate OfHolder(t: Step) {
    t.Check? || t.SendAnti? || t.Coast? || t.Cancel? || t.Receive? || t.SendNext? || t.Collect? || t.Replenish?
  }

  /** Whatever a worker does with the LP it holds is work of that LP's process, from the time of the
      event in its hand on; and that event is unprocessed. */
  lemma HolderStepsAreWork(m: Model, s: Sys, t: Step)
    requires WellFormed(m) && Inv(m, s) && Enabled(m, s, t) && OfHolder(t)
    ensures t.i < |s.lps| && s.lps[t.i].job.Busy? && s.lps[t.i].job.event in s.lps[t.i].input
    ensures WorkOf(m, s, Apply(m, s, t), m.node(t.i), s.lps[t.i].job.event.body.ts)
  {
    hide LocalOk, Inv, Apply, WorkOf, SameInputs, WellFormed, Placed, InvButBalance;
    InvAt(m, s, t.i);
    match t
    case Check(i) => RollbackIsLate(m, s, i);
    case SendAnti(i) => AntiStepIsWork(m, s, i);
    case SendNext(i) => SendStepIsWork(m, s, i);
    case Cancel(i) => ClosingStepIsWork(m, s, t, i, s.lps[i].job.event.body.ts);
    case Replenish(i) => ClosingStepIsWork(m, s, t, i, s.lps[i].job.event.body.ts);
    case Coast(i) => QuietStepIsWork(m, s, t, i);
    case Receive(i) => QuietStepIsWork(m, s, t, i);
    case Collect(i, _) => QuietStepIsWork(m, s, t, i);
    case _ =>
  }

  // ------------------------------------------------------------------------------------------
  // The kernel under the asynchronous GVT manager
  // ------------------------------------------------------------------------------------------

  /** Mattern's model g runs beside the kernel s: the same unprocessed times at every process, and
      tags[k] is the event that g's message k carries. */
  ghost predicate Coupled(m: Model, s: Sys, g: M.Sys, tags: seq<Event>) {
    && (forall i :: 0 <= i < |s.lps| ==> m.node(i) < |g.nodes|)
    && (forall d :: 0 <= d < |g.nodes| ==> g.nodes[d].pending == PendingAt(m, s, d))
    && |tags| == |g.net| && |g.late| == |g.nodes|
    && (forall a, b :: 0 <= a < b < |tags| ==> tags[a] != tags[b])
    && (forall e :: e in tags <==> e in s.net)
    && (forall k :: 0 <= k < |tags| ==> tags[k].body.recv < |s.lps| && Carries(m, g.net[k], tags[k]))
  }

  ghost predicate Carries(m: Model, x: M.Message, e: Event) {
    x.receiver == m.node(e.body.recv) && x.ts == e.body.ts
  }

  lemma SameInputsSamePending(m: Model, s: Sys, s': Sys, d: nat)
    requires SameInputs(s, s')
    ensures PendingAt(m, s', d) == PendingAt(m, s, d)
  {
    assert forall i, x :: UnprocessedAt(m, s', d, i, x) <==> UnprocessedAt(m, s, d, i, x);
  }

  lemma OthersSamePending(m: Model, s: Sys, s': Sys, d: nat, t: nat, d': nat)
    requires Late(m, s, s', d, t) && d' != d
    ensures PendingAt(m, s', d') == PendingAt(m, s, d')
  {
    assert forall i, x :: UnprocessedAt(m, s', d', i, x) <==> UnprocessedAt(m, s, d', i, x);
  }

  lemma LateIsNotBefore(m: Model, s: Sys, s': Sys, i: nat, e: Event)
    requires i < |s.lps| && e in s.lps[i].input && Late(m, s, s', m.node(i), e.body.ts)
    ensures M.NotBefore(PendingAt(m, s', m.node(i)), PendingAt(m, s, m.node(i)))
  {
    var d := m.node(i);
    assert UnprocessedAt(m, s, d, i, e);
    forall t | t in PendingAt(m, s', d)
      ensures exists y :: y in PendingAt(m, s, d) && y <= t
    {
      var j, x :| UnprocessedAt(m, s', d, j, x) && x.body.ts == t;
      if x in s.lps[j].input {
        assert UnprocessedAt(m, s, d, j, x);
        assert t in PendingAt(m, s, d);
      } else {
        assert e.body.ts in PendingAt(m, s, d);
      }
    }
  }

  /** Work of one process is a Work step of Mattern's model. */
  lemma WorkIsMatched(m: Model, s: Sys, s': Sys, g: M.Sys, tags: seq<Event>, i: nat, e: Event)
    requires Coupled(m, s, g, tags) && i < |s.lps| && e in s.lps[i].input
    requires Late(m, s, s', m.node(i), e.body.ts) && s'.net == s.net
    ensures var t := M.Work(m.node(i), PendingAt(m, s', m.node(i)));
            M.Enabled(g, t) && Coupled(m, s', M.Apply(g, t), tags)
  {
    var d := m.node(i);
    hide PendingAt, M.NotBefore;
    LateIsNotBefore(m, s, s', i, e);
    forall d' | 0 <= d' < |g.nodes| && d' != d
      ensures PendingAt(m, s', d') == PendingAt(m, s, d')
    {
      OthersSamePending(m, s, s', d, e.body.ts, d');
    }
  }

  /** A message to another process is a Send step. */
  lemma SendIsMatched(m: Model, s: Sys, s': Sys, g: M.Sys, tags: seq<Event>, i: nat, hand: Event, e: Event)
    requires Coupled(m, s, g, tags) && i < |s.lps| && hand in s.lps[i].input
    requires SentOut(m, s, s', m.node(i), hand.body.ts, e)
    ensures var t := M.Send(m.node(i), m.node(e.body.recv), e.body.ts);
            M.Enabled(g, t) && Coupled(m, s', M.Apply(g, t), tags + [e])
  {
    var d := m.node(i);
    assert UnprocessedAt(m, s, d, i, hand);
    assert hand.body.ts in PendingAt(m, s, d);
    hide PendingAt, Carries;
    var t := M.Send(d, m.node(e.body.recv), e.body.ts);
    assert M.Enabled(g, t);
    var g' := M.Apply(g, t);
    forall d' | 0 <= d' < |g.nodes|
      ensures PendingAt(m, s', d') == PendingAt(m, s, d')
    {
      SameInputsSamePending(m, s, s', d');
    }
    var tags' := tags + [e];
    forall k | 0 <= k < |tags'|
      ensures Carries(m, g'.net[k], tags'[k])
    {
      if k < |tags| {
        assert Carries(m, g.net[k], tags[k]);
      } else {
        LastCarries(m, g, t, e);
      }
    }
  }

  lemma LastCarries(m: Model, g: M.Sys, t: M.Step, e: Event)
    requires t.Send? && M.Enabled(g, t) && t.j == m.node(e.body.recv) && t.ts == e.body.ts
    ensures Carries(m, M.Apply(g, t).net[|g.net|], e)
  {
  }

  lemma DeliveredPending(m: Model, s: Sys, s': Sys, e: Event, d: nat)
    requires e.body.recv < |s.lps| == |s'.lps|
    requires forall j, x :: 0 <= j < |s.lps| ==> (x in s'.lps[j].input <==> x in s.lps[j].input || (j == e.body.recv && x == e))
    ensures PendingAt(m, s', d) == PendingAt(m, s, d) + (if m.node(e.body.recv) == d then {e.body.ts} else {})
  {
    var more: set<nat> := if m.node(e.body.recv) == d then {e.body.ts} else {};
    forall t
      ensures t in PendingAt(m, s', d) <==> t in PendingAt(m, s, d) + more
    {
      if t in PendingAt(m, s', d) {
        var i, x :| UnprocessedAt(m, s', d, i, x) && x.body.ts == t;
        assert UnprocessedAt(m, s, d, i, x) || (i == e.body.recv && x == e);
      }
      if t in PendingAt(m, s, d) {
        var i, x :| UnprocessedAt(m, s, d, i, x) && x.body.ts == t;
        assert UnprocessedAt(m, s', d, i, x);
      }
      if t in more {
        assert UnprocessedAt(m, s', d, e.body.recv, e);
      }
    }
  }

  lemma InsertedInputs(m: Model, s: Sys, r: nat, e: Event)
    requires r < |s.lps|
    ensures var s' := InsertEvent(m, s, r, e);
            && |s'.lps| == |s.lps| && s'.net == s.net
            && forall j, x :: 0 <= j < |s.lps| ==> (x in s'.lps[j].input <==> x in s.lps[j].input || (j == r && x == e))
  {
    hide Insert, Erase;
  }

  /** A delivery is a Receive step. */
  lemma DeliverIsMatched(m: Model, s: Sys, g: M.Sys, tags: seq<Event>, e: Event, k: nat)
    requires Coupled(m, s, g, tags) && Enabled(m, s, Deliver(e)) && k < |tags| && tags[k] == e
    ensures var t := M.Receive(m.node(e.body.recv), k);
            M.Enabled(g, t) && Coupled(m, Apply(m, s, Deliver(e)), M.Apply(g, t), tags[..k] + tags[k + 1..])
  {
    hide PendingAt, InsertEvent;
    var r := s.(net := s.net - {e});
    var s' := Apply(m, s, Deliver(e));
    InsertedInputs(m, r, e.body.recv, e);
    assert s' == InsertEvent(m, r, e.body.recv, e);
    hide Apply;
    var d := m.node(e.body.recv);
    assert Carries(m, g.net[k], e);
    hide Carries;
    var t := M.Receive(d, k);
    var g', tags' := M.Apply(g, t), tags[..k] + tags[k + 1..];
    forall d' | 0 <= d' < |g.nodes|
      ensures g'.nodes[d'].pending == PendingAt(m, s', d')
    {
      DeliveredPending(m, s, s', e, d');
    }
    TagsAfter(tags, k);
    CarriedAfter(m, |s.lps|, g.net, tags, k);
  }

  lemma CarriedAfter(m: Model, n: nat, net: seq<M.Message>, tags: seq<Event>, k: nat)
    requires |net| == |tags| && k < |tags|
    requires forall j :: 0 <= j < |tags| ==> tags[j].body.recv < n && Carries(m, net[j], tags[j])
    ensures var net', tags' := net[..k] + net[k + 1..], tags[..k] + tags[k + 1..];
            |net'| == |tags'| && forall j :: 0 <= j < |tags'| ==> tags'[j].body.recv < n && Carries(m, net'[j], tags'[j])
  {
    hide Carries;
    var net', tags' := net[..k] + net[k + 1..], tags[..k] + tags[k + 1..];
    forall j | 0 <= j < |tags'|
      ensures tags'[j].body.recv < n && Carries(m, net'[j], tags'[j])
    {
      assert tags'[j] == tags[if j < k then j else j + 1] && net'[j] == net[if j < k then j else j + 1];
    }
  }

  lemma TagsAfter(tags: seq<Event>, k: nat)
    requires k < |tags| && forall a, b :: 0 <= a < b < |tags| ==> tags[a] != tags[b]
    ensures var tags' := tags[..k] + tags[k + 1..];
            && (forall a, b :: 0 <= a < b < |tags'| ==> tags'[a] != tags'[b])
            && (forall e :: e in tags' <==> e in tags && e != tags[k])
  {
    var tags' := tags[..k] + tags[k + 1..];
    forall e | e in tags && e != tags[k]
      ensures e in tags'
    {
      var j :| 0 <= j < |tags| && tags[j] == e;
      assert tags'[if j < k then j else j - 1] == e;
    }
  }

  /** What the manager of Mattern's model notices of a kernel step: the step of the model, and the
      events in transit afterwards. */
  datatype View = Nothing | Sees(u: M.Step, tags: seq<Event>)

  ghost function ViewOf(m: Model, s: Sys, t: Step, tags: seq<Event>): View
    requires Enabled(m, s, t)
  {
    var s' := Apply(m, s, t);
    if t.Deliver? then
      if t.e in tags then
        var k: nat :| k < |tags| && tags[k] == t.e;
        Sees(M.Receive(m.node(t.e.body.recv), k), tags[..k] + tags[k + 1..])
      else Nothing
    else if OfHolder(t) then
      if s'.net != s.net && exists e :: s'.net == s.net + {e} then
        var e :| s'.net == s.net + {e};
        Sees(M.Send(m.node(t.i), m.node(e.body.recv), e.body.ts), tags + [e])
      else Sees(M.Work(m.node(t.i), PendingAt(m, s', m.node(t.i))), tags)
    else Nothing
  }

  lemma HolderStepIsMatched(m: Model, s: Sys, g: M.Sys, tags: seq<Event>, t: Step)
    requires WellFormed(m) && Inv(m, s) && Enabled(m, s, t) && OfHolder(t) && Coupled(m, s, g, tags)
    ensures var v := ViewOf(m, s, t, tags);
            v.Sees? && M.Enabled(g, v.u) && Coupled(m, Apply(m, s, t), M.Apply(g, v.u), v.tags)
  {
    hide Coupled, Inv, Enabled, Apply, M.Apply, M.Enabled, PendingAt, Late, WellFormed;
    HolderStepsAreWork(m, s, t);
    var i, s', v := t.i, Apply(m, s, t), ViewOf(m, s, t, tags);
    var hand := s.lps[i].job.event;
    if e :| SentOut(m, s, s', m.node(i), hand.body.ts, e) {
      OneMore(s.net, e);
      SendIsMatched(m, s, s', g, tags, i, hand, e);
    } else {
      WorkIsMatched(m, s, s', g, tags, i, hand);
    }
  }

  lemma OneMore(net: set<Event>, e: Event)
    requires e !in net
    ensures net + {e} != net && forall x :: net + {e} == net + {x} ==> x == e
  {
    assert e in net + {e};
    forall x | net + {e} == net + {x}
      ensures x == e
    {
      assert e in net + {x};
    }
  }

  /** While the simulation runs, every kernel step of a worker or of the network is a step of
      Mattern's model, or leaves it alone: the model's assumptions are the kernel's theorems. */
  lemma KernelStepIsMatched(m: Model, s: Sys, g: M.Sys, tags: seq<Event>, t: Step)
    requires WellFormed(m) && Reachable(m, s) && Enabled(m, s, t) && !t.Boot? && !t.Advance?
    requires Coupled(m, s, g, tags)
    ensures match ViewOf(m, s, t, tags)
            case Nothing => Coupled(m, Apply(m, s, t), g, tags)
            case Sees(u, tags') => M.Enabled(g, u) && Coupled(m, Apply(m, s, t), M.Apply(g, u), tags')
  {
    hide Coupled, Inv, Enabled, Apply, M.Apply, M.Enabled, WellFormed, Reachable;
    ReachableHasInv(m, s);
    if t.GetEvent? {
      GetEventIsMatched(m, s, g, tags, t.w);
    } else if t.Deliver? {
      DeliverIsSeen(m, s, g, tags, t.e);
    } else {
      hide ViewOf;
      HolderStepIsMatched(m, s, g, tags, t);
    }
  }

  lemma DeliverIsSeen(m: Model, s: Sys, g: M.Sys, tags: seq<Event>, e: Event)
    requires Coupled(m, s, g, tags) && Enabled(m, s, Deliver(e))
    ensures var v := ViewOf(m, s, Deliver(e), tags);
            v.Sees? && M.Enabled(g, v.u) && Coupled(m, Apply(m, s, Deliver(e)), M.Apply(g, v.u), v.tags)
  {
    InTransitIsTagged(m, s, g, tags, e);
    hide Coupled, Apply, Enabled, M.Apply, M.Enabled;
    DeliverIsMatched(m, s, g, tags, e, ViewOf(m, s, Deliver(e), tags).u.k);
  }

  lemma InTransitIsTagged(m: Model, s: Sys, g: M.Sys, tags: seq<Event>, e: Event)
    requires Coupled(m, s, g, tags) && Enabled(m, s, Deliver(e))
    ensures e in tags
  {
  }

  lemma GetEventIsMatched(m: Model, s: Sys, g: M.Sys, tags: seq<Event>, w: Worker)
    requires Enabled(m, s, GetEvent(w)) && Coupled(m, s, g, tags)
    ensures Coupled(m, Apply(m, s, GetEvent(w)), g, tags)
  {
    hide PendingAt, Carries;
    var s' := Apply(m, s, GetEvent(w));
    forall d | 0 <= d < |g.nodes|
      ensures PendingAt(m, s', d) == PendingAt(m, s, d)
    {
      SameInputsSamePending(m, s, s', d);
    }
  }

  /** The manager's own steps change neither unprocessed events nor messages. */
  lemma ManagerStepKeepsCoupling(m: Model, s: Sys, g: M.Sys, tags: seq<Event>, u: M.Step)
    requires Coupled(m, s, g, tags) && M.Enabled(g, u) && !u.Work? && !u.Send? && !u.Receive?
    ensures Coupled(m, s, M.Apply(g, u), tags)
  {
    hide PendingAt, Carries, M.Sound, M.ReceiveToken, M.NewToken, M.Begin, M.Ended;
  }

  /** A bound for the managers' model is one for the kernel. */
  lemma BoundsKernel(m: Model, s: Sys, g: M.Sys, tags: seq<Event>, gvt: nat)
    requires Coupled(m, s, g, tags) && M.AllAtLeast(g, gvt)
    ensures AllAtLeast(s, gvt)
  {
    forall i, x | 0 <= i < |s.lps| && x in s.lps[i].input
      ensures x.body.ts >= gvt
    {
      assert UnprocessedAt(m, s, m.node(i), i, x);
      assert x.body.ts in g.nodes[m.node(i)].pending;
    }
    forall x | x in s.net
      ensures x.body.ts >= gvt
    {
      var k :| 0 <= k < |tags| && tags[k] == x;
      assert Carries(m, g.net[k], x);
      assert g.net[k] in g.net;
    }
  }

  /** When a process takes a GVT update, the kernel may advance to that GVT: nothing unprocessed and
      nothing in transit is before it. */
  lemma UpdateAllowsAdvance(m: Model, s: Sys, g: M.Sys, tags: seq<Event>, d: nat, gvt: nat)
    requires Booted(s) && Coupled(m, s, g, tags) && M.Reachable(g) && M.Enabled(g, M.TakeUpdate(d, gvt))
    ensures Enabled(m, s, Advance(gvt))
  {
    M.GvtIsSafe(g, d, M.Update(d, gvt));
    hide Coupled, M.Reachable;
    BoundsKernel(m, s, g, tags, gvt);
  }

  /** So it may to every GVT that a manager holds, however it came by it. */
  lemma HeldGvtAllowsAdvance(m: Model, s: Sys, g: M.Sys, tags: seq<Event>, d: nat)
    requires Booted(s) && Coupled(m, s, g, tags) && M.Reachable(g) && d < |g.nodes|
    ensures Enabled(m, s, Advance(g.nodes[d].g.gvt))
  {
    M.GvtIsSafe(g, d, M.Update(d, 0));
    hide Coupled, M.Reachable;
    BoundsKernel(m, s, g, tags, g.nodes[d].g.gvt);
  }

  // ------------------------------------------------------------------------------------------
  // The kernel under a worker thread's report
  // ------------------------------------------------------------------------------------------

  /** The first entry of a schedule queue is no later than any unprocessed event of the queue's LPs,
      those in the hands of other workers excepted; so a worker that finds the queue empty, or takes
      its first entry, may report this as the local minimum does. */
  lemma QueueHeadIsLeast(m: Model, s: Sys, i: nat, x: Event)
    requires WellFormed(m) && Reachable(m, s) && i < |s.lps| && !s.lps[i].job.Busy? && x in s.lps[i].input
    ensures var Q := QueueOf(s, HomeOf(m, s, i));
            Q != [] && Q[0].body.ts <= x.body.ts
  {
    hide Inv, Reachable, WellFormed, LocalOk, Sorted, HomeOf, QueueOf;
    ReachableHasInv(m, s);
    QueuesAreSorted(m, s, i);
    var q := HomeOf(m, s, i);
    var least := s.lps[i].input[0];
    SchedulesAreExact(m, s, i, q, least);
    FirstIsEarliest(QueueOf(s, q), least);
    FirstIsEarliest(s.lps[i].input, x);
  }

  lemma QueuesAreSorted(m: Model, s: Sys, i: nat)
    requires Inv(m, s) && i < |s.lps|
    ensures Sorted(QueueOf(s, HomeOf(m, s, i))) && Sorted(s.lps[i].input)
    ensures s.lps[i].input != [] ==> s.lps[i].input[0].body.recv == i
  {
    hide Sorted;
    assert LocalOk(m, i, s.lps[i]);
  }

  lemma FirstIsEarliest(q: seq<Event>, x: Event)
    requires Sorted(q) && x in q
    ensures q != [] && q[0].body.ts <= x.body.ts
  {
    var k :| 0 <= k < |q| && q[k] == x;
    assert k == 0 || Events.Before(q[0], q[k]);
  }

  /** Without migration an LP stays with its first schedule queue. */
  lemma {:induction false} QueuesAreFixed(m: Model, steps: seq<Step>, s: Sys, i: nat)
    requires !m.migration && Reaches(m, steps, s) && i < |s.lps|
    ensures s.lps[i].queue == m.home(i)
    decreases |steps|
  {
    if steps != [] {
      var before, t := steps[..|steps| - 1], steps[|steps| - 1];
      var r :| Reaches(m, before, r) && Next(m, r, t, s);
      StepKeepsQueue(m, r, t, i);
      QueuesAreFixed(m, before, r, i);
    }
  }

  lemma PostKeepsQueue(m: Model, s: Sys, from: nat, e: Event, i: nat)
    requires e.body.recv < |s.lps|
    ensures |Post(m, s, from, e).lps| == |s.lps|
    ensures i < |s.lps| ==> Post(m, s, from, e).lps[i].queue == s.lps[i].queue
  {
    hide Insert, Erase;
  }

  lemma SendOneKeepsQueue(m: Model, s: Sys, j: nat, input: Event, msg: Msg, rest: Job, i: nat)
    requires j < |s.lps| && msg.recv < |s.lps|
    ensures var s' := SendOne(m, s, j, input, msg, rest);
            |s'.lps| == |s.lps| && (i < |s.lps| ==> s'.lps[i].queue == s.lps[i].queue)
  {
    hide Post;
    var lp := s.lps[j].(job := rest);
    var e := NewEvent(j, lp, input, msg);
    if msg.ts <= m.maxTime {
      PostKeepsQueue(m, s.(lps := s.lps[j := Recorded(lp, input, e)]), j, e, i);
    }
  }

  lemma StepKeepsQueue(m: Model, s: Sys, t: Step, i: nat)
    requires !m.migration && Enabled(m, s, t) && i < |Apply(m, s, t).lps|
    ensures i < |s.lps| && Apply(m, s, t).lps[i].queue == s.lps[i].queue
  {
    hide Enabled, Apply, SendOne, SaveState;
    if t.Boot? {
      BootKeepsQueue(m, s, t.i, i);
    } else if t.SendNext? {
      SendNextKeepsQueue(m, s, t.i, i);
    } else {
      OtherStepKeepsQueue(m, s, t, i);
    }
  }

  lemma BootKeepsQueue(m: Model, s: Sys, j: nat, i: nat)
    requires Enabled(m, s, Boot(j)) && i < |Apply(m, s, Boot(j)).lps|
    ensures i < |s.lps| && Apply(m, s, Boot(j)).lps[i].queue == s.lps[i].queue
  {
    hide SendOne, SaveState;
    var lp := s.lps[j];
    if lp.job.msgs == [] {
      SaveKeepsQueue(m, lp.(job := Idle), INITIAL, lp.state);
    } else if lp.job.msgs[0].recv < |s.lps| {
      SendOneKeepsQueue(m, s, j, INITIAL, lp.job.msgs[0], Booting(lp.job.msgs[1..]), i);
    }
  }

  lemma SendNextKeepsQueue(m: Model, s: Sys, j: nat, i: nat)
    requires Enabled(m, s, SendNext(j)) && i < |Apply(m, s, SendNext(j)).lps|
    ensures i < |s.lps| && Apply(m, s, SendNext(j)).lps[i].queue == s.lps[i].queue
  {
    hide SendOne;
    var job := s.lps[j].job;
    SendOneKeepsQueue(m, s, j, job.event, job.stage.msgs[0], job.(stage := Sending(job.stage.msgs[1..])), i);
  }

  lemma SaveKeepsQueue(m: Model, lp: LP, e: Event, state: State)
    ensures SaveState(m, lp, e, state).queue == lp.queue
  {
  }

  lemma OtherStepKeepsQueue(m: Model, s: Sys, t: Step, i: nat)
    requires !m.migration && Enabled(m, s, t) && !t.Boot? && !t.SendNext? && i < |Apply(m, s, t).lps|
    ensures i < |s.lps| && Apply(m, s, t).lps[i].queue == s.lps[i].queue
  {
    hide Insert, Erase, RollPoint, InsertAll, RestoreStates, OutputPoint, UpTo, CoastForward, CancelIn, OutputsCollected,
         EventsCollected, CollectStates, CollectTime;
  }
}
