/** Kernel and synchronous GVT manager together: the kernel's steps between two rounds are those that the
    manager's proof assumes, and a round's GVT may be used for collection exactly if no message of an
    earlier round that is still in transit is before it. */
module SynchronousRuns {
  import opened Events
  import opened Simulation
  import opened Queues
  import opened Kernel
  import opened KernelInvariant
  import opened KernelSteps
  import opened KernelGvt
  import G = GvtRuns
  import M = Mattern
  import S = SynchronousGvt

  /** The kernel, the managers, and the event that each message in transit carries. */
  datatype Joint = Joint(s: Sys, g: S.Sys, tags: seq<Event>)

  datatype JointStep =
    | KernelMoves(t: Step)
    | ManagerMoves(u: S.Step)     // the phases of a round
    | Publish(d: nat)             // the kernel takes over the GVT that manager d holds

  ghost predicate Carries(m: Model, x: S.Message, e: Event) {
    x.receiver == m.node(e.body.recv) && x.ts == e.body.ts
  }

  /** The same unprocessed times at every process, and tags[k] is the event that message k carries. */
  ghost predicate Coupled(m: Model, s: Sys, g: S.Sys, tags: seq<Event>) {
    && (forall i :: 0 <= i < |s.lps| ==> m.node(i) < |g.nodes|)
    && (forall d :: 0 <= d < |g.nodes| ==> g.nodes[d].pending == PendingAt(m, s, d))
    && |tags| == |g.net|
    && (forall a, b :: 0 <= a < b < |tags| ==> tags[a] != tags[b])
    && (forall e :: e in tags <==> e in s.net)
    && (forall k :: 0 <= k < |tags| ==> tags[k].body.recv < |s.lps| && Carries(m, g.net[k], tags[k]))
  }

  datatype RoundView = Unseen | Seen(u: S.Step, tags: seq<Event>)

  /** What the managers notice of a kernel step. */
  ghost function ViewOf(m: Model, s: Sys, t: Step, tags: seq<Event>): RoundView
    requires Enabled(m, s, t)
  {
    var s' := Apply(m, s, t);
    if t.Deliver? then
      if t.e in tags then
        var k: nat :| k < |tags| && tags[k] == t.e;
        Seen(S.Receive(m.node(t.e.body.recv), k), tags[..k] + tags[k + 1..])
      else Unseen
    else if OfHolder(t) then
      if s'.net != s.net && exists e :: s'.net == s.net + {e} then
        var e :| s'.net == s.net + {e};
        Seen(S.Send(m.node(t.i), m.node(e.body.recv), e.body.ts), tags + [e])
      else Seen(S.Work(m.node(t.i), PendingAt(m, s', m.node(t.i))), tags)
    else Unseen
  }

  /** Workers run until the barrier; messages are handled before a round and at its barrier. */
  predicate MayMove(m: Model, s: Sys, g: S.Sys, t: Step) {
    && (OfHolder(t) && t.i < |s.lps| ==>
          var d := m.node(t.i); d < |g.nodes| && (g.nodes[d].phase == S.Open || g.nodes[d].phase == S.Closing))
    && (t.Deliver? ==>
          var d := m.node(t.e.body.recv); d < |g.nodes| && (g.nodes[d].phase == S.Open || g.nodes[d].phase == S.Stopped))
  }

  // ------------------------------------------------------------------------------------------
  // The kernel's steps
  // ------------------------------------------------------------------------------------------

  lemma WorkIsMatched(m: Model, s: Sys, s': Sys, g: S.Sys, tags: seq<Event>, i: nat, e: Event)
    requires Coupled(m, s, g, tags) && i < |s.lps| && e in s.lps[i].input
    requires g.nodes[m.node(i)].phase == S.Open || g.nodes[m.node(i)].phase == S.Closing
    requires Late(m, s, s', m.node(i), e.body.ts) && s'.net == s.net
    ensures var t := S.Work(m.node(i), PendingAt(m, s', m.node(i)));
            S.Enabled(g, t) && Coupled(m, s', S.Apply(g, t), tags)
  {
    var d := m.node(i);
    hide PendingAt, Carries;
    LateIsNotBefore(m, s, s', i, e);
    assert S.NotBefore(PendingAt(m, s', d), PendingAt(m, s, d));
    hide M.NotBefore, S.NotBefore;
    forall d' | 0 <= d' < |g.nodes| && d' != d
      ensures PendingAt(m, s', d') == PendingAt(m, s, d')
    {
      OthersSamePending(m, s, s', d, e.body.ts, d');
    }
  }

  lemma SendIsMatched(m: Model, s: Sys, s': Sys, g: S.Sys, tags: seq<Event>, i: nat, hand: Event, e: Event)
    requires Coupled(m, s, g, tags) && i < |s.lps| && hand in s.lps[i].input
    requires g.nodes[m.node(i)].phase == S.Open || g.nodes[m.node(i)].phase == S.Closing
    requires SentOut(m, s, s', m.node(i), hand.body.ts, e)
    ensures var t := S.Send(m.node(i), m.node(e.body.recv), e.body.ts);
            S.Enabled(g, t) && Coupled(m, s', S.Apply(g, t), tags + [e])
  {
    var d := m.node(i);
    assert UnprocessedAt(m, s, d, i, hand);
    assert hand.body.ts in PendingAt(m, s, d);
    hide PendingAt, Carries;
    var t := S.Send(d, m.node(e.body.recv), e.body.ts);
    assert S.Enabled(g, t);
    var g' := S.Apply(g, t);
    forall d' | 0 <= d' < |g.nodes|
      ensures PendingAt(m, s', d') == PendingAt(m, s, d')
    {
      SameInputsSamePending(m, s, s', d');
    }
    var tags' := tags + [e];
    forall k | 0 <= k < |tags'|
      ensures Carries(m, g'.net[k], tags'[k])
    {
      if k < |tags| {
        assert Carries(m, g.net[k], tags[k]);
      } else {
        LastCarries(m, g, t, e);
      }
    }
  }

  lemma LastCarries(m: Model, g: S.Sys, t: S.Step, e: Event)
    requires t.Send? && S.Enabled(g, t) && t.j == m.node(e.body.recv) && t.ts == e.body.ts
    ensures Carries(m, S.Apply(g, t).net[|g.net|], e)
  {
  }

  lemma DeliverIsMatched(m: Model, s: Sys, g: S.Sys, tags: seq<Event>, e: Event, k: nat)
    requires Coupled(m, s, g, tags) && Enabled(m, s, Deliver(e)) && k < |tags| && tags[k] == e
    requires MayMove(m, s, g, Deliver(e))
    ensures var t := S.Receive(m.node(e.body.recv), k);
            S.Enabled(g, t) && Coupled(m, Apply(m, s, Deliver(e)), S.Apply(g, t), tags[..k] + tags[k + 1..])
  {
    hide PendingAt, InsertEvent;
    var r := s.(net := s.net - {e});
    var s' := Apply(m, s, Deliver(e));
    InsertedInputs(m, r, e.body.recv, e);
    assert s' == InsertEvent(m, r, e.body.recv, e);
    hide Apply;
    var d := m.node(e.body.recv);
    assert Carries(m, g.net[k], e);
    hide Carries;
    var t := S.Receive(d, k);
    var g', tags' := S.Apply(g, t), tags[..k] + tags[k + 1..];
    forall d' | 0 <= d' < |g.nodes|
      ensures g'.nodes[d'].pending == PendingAt(m, s', d')
    {
      DeliveredPending(m, s, s', e, d');
    }
    TagsAfter(tags, k);
    CarriedAfter(m, |s.lps|, g.net, tags, k);
  }

  lemma CarriedAfter(m: Model, n: nat, net: seq<S.Message>, tags: seq<Event>, k: nat)
    requires |net| == |tags| && k < |tags|
    requires forall j :: 0 <= j < |tags| ==> tags[j].body.recv < n && Carries(m, net[j], tags[j])
    ensures var net', tags' := net[..k] + net[k + 1..], tags[..k] + tags[k + 1..];
            |net'| == |tags'| && forall j :: 0 <= j < |tags'| ==> tags'[j].body.recv < n && Carries(m, net'[j], tags'[j])
  {
    hide Carries;
    var net', tags' := net[..k] + net[k + 1..], tags[..k] + tags[k + 1..];
    forall j | 0 <= j < |tags'|
      ensures tags'[j].body.recv < n && Carries(m, net'[j], tags'[j])
    {
      assert tags'[j] == tags[if j < k then j else j + 1] && net'[j] == net[if j < k then j else j + 1];
    }
  }

  lemma HolderStepIsMatched(m: Model, s: Sys, g: S.Sys, tags: seq<Event>, t: Step)
    requires WellFormed(m) && Inv(m, s) && Enabled(m, s, t) && OfHolder(t) && Coupled(m, s, g, tags) && MayMove(m, s, g, t)
    ensures var v := ViewOf(m, s, t, tags);
            v.Seen? && S.Enabled(g, v.u) && Coupled(m, Apply(m, s, t), S.Apply(g, v.u), v.tags)
  {
    hide Coupled, Inv, Enabled, Apply, S.Apply, S.Enabled, PendingAt, Late, WellFormed;
    HolderStepsAreWork(m, s, t);
    var i, s' := t.i, Apply(m, s, t);
    var hand := s.lps[i].job.event;
    if e :| SentOut(m, s, s', m.node(i), hand.body.ts, e) {
      OneMore(s.net, e);
      SendIsMatched(m, s, s', g, tags, i, hand, e);
    } else {
      WorkIsMatched(m, s, s', g, tags, i, hand);
    }
  }

  lemma DeliverIsSeen(m: Model, s: Sys, g: S.Sys, tags: seq<Event>, e: Event)
    requires Coupled(m, s, g, tags) && Enabled(m, s, Deliver(e)) && MayMove(m, s, g, Deliver(e))
    ensures var v := ViewOf(m, s, Deliver(e), tags);
            v.Seen? && S.Enabled(g, v.u) && Coupled(m, Apply(m, s, Deliver(e)), S.Apply(g, v.u), v.tags)
  {
    assert e in tags;
    hide Coupled, Apply, Enabled, S.Apply, S.Enabled, MayMove;
    DeliverIsMatched(m, s, g, tags, e, ViewOf(m, s, Deliver(e), tags).u.k);
  }

  lemma GetEventIsMatched(m: Model, s: Sys, g: S.Sys, tags: seq<Event>, w: Worker)
    requires Enabled(m, s, GetEvent(w)) && Coupled(m, s, g, tags)
    ensures Coupled(m, Apply(m, s, GetEvent(w)), g, tags)
  {
    hide PendingAt, Carries;
    var s' := Apply(m, s, GetEvent(w));
    forall d | 0 <= d < |g.nodes|
      ensures PendingAt(m, s', d) == PendingAt(m, s, d)
    {
      SameInputsSamePending(m, s, s', d);
    }
  }

  /** Every kernel step that the phases allow is a step of the round's model, or leaves it alone. */
  lemma KernelStepIsMatched(m: Model, s: Sys, g: S.Sys, tags: seq<Event>, t: Step)
    requires WellFormed(m) && Reachable(m, s) && Enabled(m, s, t) && !t.Boot? && !t.Advance?
    requires Coupled(m, s, g, tags) && MayMove(m, s, g, t)
    ensures match ViewOf(m, s, t, tags)
            case Unseen => Coupled(m, Apply(m, s, t), g, tags)
            case Seen(u, tags') => S.Enabled(g, u) && Coupled(m, Apply(m, s, t), S.Apply(g, u), tags')
  {
    ReachableHasInv(m, s);
    hide Coupled, Inv, Enabled, Apply, S.Apply, S.Enabled, WellFormed, Reachable, MayMove;
    if t.GetEvent? {
      GetEventIsMatched(m, s, g, tags, t.w);
    } else if t.Deliver? {
      DeliverIsSeen(m, s, g, tags, t.e);
    } else {
      hide ViewOf;
      HolderStepIsMatched(m, s, g, tags, t);
    }
  }

  // ------------------------------------------------------------------------------------------
  // Rounds
  // ------------------------------------------------------------------------------------------

  predicate OfManager(u: S.Step) {
    !u.Work? && !u.Send? && !u.Receive?
  }

  lemma ManagerStepKeepsCoupling(m: Model, s: Sys, g: S.Sys, tags: seq<Event>, u: S.Step)
    requires Coupled(m, s, g, tags) && S.Enabled(g, u) && OfManager(u)
    ensures Coupled(m, s, S.Apply(g, u), tags)
  {
    hide PendingAt, Carries, S.Sound, S.Whites, S.Least;
  }

  /** No message of an earlier round that is still in transit is before the result of this one. */
  ghost predicate NoneIsEarlier(g: S.Sys) {
    forall x :: x in g.net && S.Stale(g, x) ==> S.Least(g.nodes) <= x.ts
  }

  /** The two sides agree on bounds. */
  lemma BoundsAgree(m: Model, s: Sys, g: S.Sys, tags: seq<Event>, gvt: nat)
    requires Coupled(m, s, g, tags)
    ensures S.AllAtLeast(g, gvt) <==> AllAtLeast(s, gvt)
  {
    hide PendingAt;
    if S.AllAtLeast(g, gvt) {
      forall i, x | 0 <= i < |s.lps| && x in s.lps[i].input
        ensures x.body.ts >= gvt
      {
        assert UnprocessedAt(m, s, m.node(i), i, x);
        assert x.body.ts in g.nodes[m.node(i)].pending;
      }
      forall x | x in s.net
        ensures x.body.ts >= gvt
      {
        var k :| 0 <= k < |tags| && tags[k] == x;
        assert Carries(m, g.net[k], x) && g.net[k] in g.net;
      }
    }
    if AllAtLeast(s, gvt) {
      forall d, t | 0 <= d < |g.nodes| && t in g.nodes[d].pending
        ensures gvt <= t
      {
        var i, x :| UnprocessedAt(m, s, d, i, x) && x.body.ts == t;
      }
      forall y | y in g.net
        ensures gvt <= y.ts
      {
        var k :| 0 <= k < |g.net| && g.net[k] == y;
        assert Carries(m, y, tags[k]) && tags[k] in tags;
      }
    }
  }

  /** When a round is about to end, the kernel may advance to its result if and only if no message of an
      earlier round that is still in transit is before it. */
  lemma AdvanceExactlyIfNoneIsEarlier(m: Model, s: Sys, g: S.Sys, tags: seq<Event>)
    requires Booted(s) && Coupled(m, s, g, tags) && S.Reachable(g) && S.Enabled(g, S.Reduce)
    ensures Enabled(m, s, Advance(S.Least(g.nodes))) <==> NoneIsEarlier(g)
  {
    hide Coupled, S.Reachable, S.Inv, Booted, S.Least;
    S.ReachableIsOk(g);
    S.ReduceIsSafe(g);
    BoundsAgree(m, s, g, tags, S.Least(g.nodes));
  }

  /** A bound stays one. */
  lemma BoundLasts(g: S.Sys, u: S.Step, gvt: nat)
    requires S.Enabled(g, u) && S.AllAtLeast(g, gvt)
    ensures S.AllAtLeast(S.Apply(g, u), gvt)
  {
    hide S.Sound, S.Whites, S.Least;
    var g' := S.Apply(g, u);
    forall i, x | 0 <= i < |g'.nodes| && x in g'.nodes[i].pending
      ensures gvt <= x
    {
      if u.Receive? && i == u.i && x !in g.nodes[i].pending {
        assert g.net[u.k] in g.net;
      }
    }
  }

  /** Every manager holds a bound. */
  ghost predicate HeldBounds(g: S.Sys) {
    forall d :: 0 <= d < |g.nodes| ==> S.AllAtLeast(g, g.nodes[d].gvt)
  }

  lemma ReduceIsBound(g: S.Sys)
    requires S.Reachable(g) && S.Enabled(g, S.Reduce) && NoneIsEarlier(g)
    ensures S.AllAtLeast(g, S.Least(g.nodes))
  {
    hide S.Reachable, S.Inv, S.Least;
    S.ReachableIsOk(g);
    S.ReduceIsSafe(g);
  }

  lemma StepKeepsHeld(g: S.Sys, u: S.Step)
    requires S.Reachable(g) && S.Enabled(g, u) && HeldBounds(g) && (u.Reduce? ==> NoneIsEarlier(g))
    ensures HeldBounds(S.Apply(g, u))
  {
    var g' := S.Apply(g, u);
    forall d | 0 <= d < |g'.nodes|
      ensures S.AllAtLeast(g', g'.nodes[d].gvt)
    {
      GvtAfter(g, u, d);
      hide S.Enabled, S.Apply, S.Reachable, NoneIsEarlier, S.AllAtLeast, S.Least;
      if u.Reduce? {
        ReduceIsBound(g);
      }
      BoundLasts(g, u, g'.nodes[d].gvt);
    }
  }

  lemma GvtAfter(g: S.Sys, u: S.Step, d: nat)
    requires S.Enabled(g, u) && d < |S.Apply(g, u).nodes|
    ensures d < |g.nodes| && S.Apply(g, u).nodes[d].gvt == if u.Reduce? then S.Least(g.nodes) else g.nodes[d].gvt
  {
    hide S.NotBefore, S.Sound, S.Whites, S.Least;
  }

  // ------------------------------------------------------------------------------------------
  // Runs
  // ------------------------------------------------------------------------------------------

  /** A round ends only with a result that no message of an earlier round is before. */
  ghost predicate JointEnabled(m: Model, j: Joint, x: JointStep) {
    match x
    case KernelMoves(t) => Enabled(m, j.s, t) && !t.Boot? && !t.Advance? && MayMove(m, j.s, j.g, t)
    case ManagerMoves(u) => OfManager(u) && S.Enabled(j.g, u) && (u.Reduce? ==> NoneIsEarlier(j.g))
    case Publish(d) => d < |j.g.nodes|
  }

  ghost predicate JointNext(m: Model, j: Joint, x: JointStep, j': Joint) {
    JointEnabled(m, j, x) &&
    match x
    case KernelMoves(t) =>
      && j'.s == Apply(m, j.s, t)
      && (match ViewOf(m, j.s, t, j.tags)
          case Unseen => j'.g == j.g && j'.tags == j.tags
          case Seen(u, tags) => S.Enabled(j.g, u) && j'.g == S.Apply(j.g, u) && j'.tags == tags)
    case ManagerMoves(u) => j' == j.(g := S.Apply(j.g, u))
    case Publish(d) => Next(m, j.s, Advance(j.g.nodes[d].gvt), j'.s) && j'.g == j.g && j'.tags == j.tags
  }

  ghost predicate JointStarts(m: Model, j: Joint) {
    Reachable(m, j.s) && Booted(j.s) && S.Starts(j.g) && Coupled(m, j.s, j.g, j.tags)
  }

  ghost predicate JointReaches(m: Model, steps: seq<JointStep>, j: Joint) {
    if steps == [] then JointStarts(m, j)
    else
      var before, last := steps[..|steps| - 1], steps[|steps| - 1];
      exists r :: JointReaches(m, before, r) && JointNext(m, r, last, j)
  }

  ghost predicate JointReachable(m: Model, j: Joint) {
    exists steps :: JointReaches(m, steps, j)
  }

  ghost predicate JointOk(m: Model, j: Joint) {
    Reachable(m, j.s) && Booted(j.s) && S.Reachable(j.g) && Coupled(m, j.s, j.g, j.tags) && HeldBounds(j.g)
  }

  lemma PublishingKeepsCoupling(m: Model, j: Joint, gvt: nat)
    requires Coupled(m, j.s, j.g, j.tags) && Enabled(m, j.s, Advance(gvt))
    ensures Coupled(m, Apply(m, j.s, Advance(gvt)), j.g, j.tags)
  {
    hide PendingAt, Carries;
    var s' := Apply(m, j.s, Advance(gvt));
    forall d | 0 <= d < |j.g.nodes|
      ensures PendingAt(m, s', d) == PendingAt(m, j.s, d)
    {
      SameInputsSamePending(m, j.s, s', d);
    }
  }

  lemma ViewIsNoReduce(m: Model, s: Sys, t: Step, tags: seq<Event>)
    requires Enabled(m, s, t)
    ensures var v := ViewOf(m, s, t, tags); v.Seen? ==> !v.u.Reduce?
  {
    hide Enabled, Apply, PendingAt;
  }

  lemma JointStepKeepsOk(m: Model, j: Joint, x: JointStep, j': Joint)
    requires WellFormed(m) && JointOk(m, j) && JointNext(m, j, x, j')
    ensures JointOk(m, j')
  {
    hide WellFormed, Reachable, Booted, S.Reachable, Coupled, Enabled, Apply, S.Enabled, S.Apply, ViewOf, MayMove, HeldBounds,
         NoneIsEarlier;
    match x
    case KernelMoves(t) =>
      G.FollowKernel(m, j.s, t);
      G.StepKeepsBooted(m, j.s, t);
      KernelStepIsMatched(m, j.s, j.g, j.tags, t);
      ViewIsNoReduce(m, j.s, t, j.tags);
      var v := ViewOf(m, j.s, t, j.tags);
      if v.Seen? {
        S.Take(j.g, v.u);
        StepKeepsHeld(j.g, v.u);
      }
    case ManagerMoves(u) =>
      S.Take(j.g, u);
      StepKeepsHeld(j.g, u);
      ManagerStepKeepsCoupling(m, j.s, j.g, j.tags, u);
    case Publish(d) =>
      var gvt := j.g.nodes[d].gvt;
      G.FollowKernel(m, j.s, Advance(gvt));
      G.StepKeepsBooted(m, j.s, Advance(gvt));
      PublishingKeepsCoupling(m, j, gvt);
  }

  lemma StartIsOk(m: Model, j: Joint)
    requires JointStarts(m, j)
    ensures JointOk(m, j)
  {
    hide Coupled, Reachable, Booted, S.Leads;
    S.LeadsToItself(j.g);
  }

  lemma {:induction false} JointRunIsOk(m: Model, steps: seq<JointStep>, j: Joint)
    requires WellFormed(m) && JointReaches(m, steps, j)
    ensures JointOk(m, j)
    decreases |steps|
  {
    hide WellFormed, JointOk, JointNext, JointStarts;
    if steps == [] {
      StartIsOk(m, j);
    } else {
      var before, x := steps[..|steps| - 1], steps[|steps| - 1];
      var r :| JointReaches(m, before, r) && JointNext(m, r, x, j);
      JointRunIsOk(m, before, r);
      JointStepKeepsOk(m, r, x, j);
    }
  }

  // ------------------------------------------------------------------------------------------
  // Theorems
  // ------------------------------------------------------------------------------------------

  /** In every such run, managers and kernel agree on unprocessed times and on the messages in transit. */
  lemma RunsAreCoupled(m: Model, j: Joint)
    requires WellFormed(m) && JointReachable(m, j)
    ensures Reachable(m, j.s) && Booted(j.s) && S.Reachable(j.g) && Coupled(m, j.s, j.g, j.tags) && HeldBounds(j.g)
  {
    var steps :| JointReaches(m, steps, j);
    hide WellFormed, Reachable, Booted, S.Reachable, Coupled, HeldBounds, JointReaches;
    JointRunIsOk(m, steps, j);
  }

  lemma HeldAllowsAdvance(m: Model, s: Sys, g: S.Sys, tags: seq<Event>, d: nat)
    requires Booted(s) && Coupled(m, s, g, tags) && HeldBounds(g) && d < |g.nodes|
    ensures Enabled(m, s, Advance(g.nodes[d].gvt))
  {
    hide Coupled, Booted, S.AllAtLeast, AllAtLeast;
    BoundsAgree(m, s, g, tags, g.nodes[d].gvt);
  }

  /** A kernel step that the phases allow is one that the managers can follow, and the GVT that a manager
      holds is one that the kernel may advance to. */
  lemma NeitherBlocks(m: Model, j: Joint, x: JointStep)
    requires WellFormed(m) && JointReachable(m, j) && JointEnabled(m, j, x)
    ensures exists j' :: JointNext(m, j, x, j')
  {
    RunsAreCoupled(m, j);
    hide WellFormed, Reachable, Booted, S.Reachable, Coupled, Enabled, Apply, S.Enabled, S.Apply, ViewOf, MayMove, HeldBounds,
         NoneIsEarlier, JointReachable;
    match x
    case KernelMoves(t) =>
      KernelStepIsMatched(m, j.s, j.g, j.tags, t);
      var v := ViewOf(m, j.s, t, j.tags);
      var s' := Apply(m, j.s, t);
      assert JointNext(m, j, x, if v.Seen? then Joint(s', S.Apply(j.g, v.u), v.tags) else Joint(s', j.g, j.tags));
    case ManagerMoves(u) =>
      assert JointNext(m, j, x, j.(g := S.Apply(j.g, u)));
    case Publish(d) =>
      HeldAllowsAdvance(m, j.s, j.g, j.tags, d);
      assert JointNext(m, j, x, Joint(Apply(m, j.s, Advance(j.g.nodes[d].gvt)), j.g, j.tags));
  }

  /** So every GVT that a manager holds is at most the time of every event that the kernel still has to
      process and of every message in transit, at all times and not only when the round ends. */
  lemma EveryRoundIsSafe(m: Model, j: Joint, d: nat)
    requires WellFormed(m) && JointReachable(m, j) && d < |j.g.nodes|
    ensures AllAtLeast(j.s, j.g.nodes[d].gvt) && AllAtLeast(j.s, j.s.floor)
  {
    RunsAreCoupled(m, j);
    ReachableHasInv(m, j.s);
    hide Inv, WellFormed, S.Reachable, Reachable, Coupled, S.AllAtLeast, JointReachable, Booted;
    BoundsAgree(m, j.s, j.g, j.tags, j.g.nodes[d].gvt);
  }

  // ------------------------------------------------------------------------------------------
  // Starting
  // ------------------------------------------------------------------------------------------

  function Carrying(m: Model, e: Event): S.Message
  {
    S.Message(if e.body.sender > 0 then m.node(e.body.sender - 1) else 0, m.node(e.body.recv), e.body.ts, S.WHITE, 0)
  }

  ghost function StartOf(m: Model, s: Sys, n: nat, tags: seq<Event>): S.Sys {
    S.Sys(seq(n, d requires 0 <= d < n =>
                S.Node(PendingAt(m, s, d), S.Open, if d == 0 then |tags| else 0, UINT_MAX, UINT_MAX, UINT_MAX, 0)),
          seq(|tags|, k requires 0 <= k < |tags| => Carrying(m, tags[k])), 0)
  }

  lemma StartCounts(m: Model, s: Sys, n: nat, tags: seq<Event>)
    requires n > 0
    ensures S.Whites(StartOf(m, s, n, tags).nodes) == |tags|
  {
    S.ZeroWhites(StartOf(m, s, n, tags).nodes[1..]);
  }

  lemma ManagersStart(m: Model, s: Sys, n: nat, tags: seq<Event>)
    requires n > 0 && (n == 1 ==> tags == [])
    requires forall e :: e in tags ==> Carrying(m, e).sender < n && Carrying(m, e).receiver < n
    ensures S.Starts(StartOf(m, s, n, tags))
  {
    StartCounts(m, s, n, tags);
    hide S.Whites, PendingAt;
    var net := StartOf(m, s, n, tags).net;
    forall x | x in net
      ensures x.color == S.WHITE && x.sender < n && x.receiver < n
    {
      var k :| 0 <= k < |net| && net[k] == x;
      assert tags[k] in tags;
    }
  }

  lemma CoupledAtStart(m: Model, s: Sys, n: nat, tags: seq<Event>)
    requires forall i :: 0 <= i < |s.lps| ==> m.node(i) < n
    requires forall e :: e in tags <==> e in s.net
    requires forall a, b :: 0 <= a < b < |tags| ==> tags[a] != tags[b]
    requires forall k :: 0 <= k < |tags| ==> tags[k].body.recv < |s.lps|
    ensures Coupled(m, s, StartOf(m, s, n, tags), tags)
  {
    hide PendingAt;
  }

  /** Whenever all LPs are initialized, the managers can start. */
  lemma StartExists(m: Model, s: Sys, n: nat) returns (j: Joint)
    requires WellFormed(m) && Reachable(m, s) && Booted(s) && n > 0 && forall i :: 0 <= i < m.n ==> m.node(i) < n
    ensures JointStarts(m, j) && j.s == s && |j.g.nodes| == n
  {
    G.HasLength(m, s);
    hide Reachable, WellFormed, PendingAt, Booted, Coupled, S.Starts;
    var tags := G.Listing(s.net);
    forall e | e in tags
      ensures e.body.recv < m.n && Carrying(m, e).sender < n && Carrying(m, e).receiver < n
    {
      G.TransitIsBetween(m, s, e);
    }
    if n == 1 {
      G.SoleHasNoTransit(m, s);
    }
    ManagersStart(m, s, n, tags);
    CoupledAtStart(m, s, n, tags);
    j := Joint(s, StartOf(m, s, n, tags), tags);
  }

  lemma SomeTag(tags: seq<Event>, net: set<Event>)
    requires forall e :: e in tags ==> e in net
    ensures tags != [] ==> net != {}
  {
    if tags != [] {
      assert tags[0] in net;
    }
  }

  /** With a single process no round needs the condition. */
  lemma SoleIsNeverEarlier(m: Model, j: Joint)
    requires WellFormed(m) && JointReachable(m, j) && forall i :: 0 <= i < m.n ==> m.node(i) < 1
    ensures NoneIsEarlier(j.g)
  {
    RunsAreCoupled(m, j);
    hide WellFormed, Reachable, S.Reachable, JointReachable, HeldBounds, PendingAt;
    G.SoleHasNoTransit(m, j.s);
    SomeTag(j.tags, j.s.net);
    assert j.g.net == [];
  }
}
