/** Kernel and asynchronous GVT manager together: whatever the workers, the network and the managers do,
    the kernel may use every GVT that a manager receives. */
module GvtRuns {
  import opened Events
  import opened Simulation
  import opened Queues
  import opened Kernel
  import opened KernelInvariant
  import opened KernelSteps
  import opened KernelGvt
  import Ledgers
  import M = Mattern

  /** The kernel, the managers, and the event that each message in transit carries. */
  datatype Joint = Joint(s: Sys, g: M.Sys, tags: seq<Event>)

  datatype JointStep =
    | KernelMoves(t: Step)               // a worker or the network; the managers count sends and arrivals
    | ManagerMoves(u: M.Step)            // reports, tokens, updates
    | Publish(d: nat)                    // the kernel takes over the GVT that manager d holds

  predicate OfManager(u: M.Step) {
    u.GetReady? || u.BeginLocal? || u.EndLocal? || u.SendToken? || u.TakeToken? || u.TakeUpdate?
  }

  /** A kernel step asks nothing of the managers, and a GVT is published without asking the kernel, be it
      one that the manager has received or, with one process, one that it has set itself. */
  ghost predicate JointEnabled(m: Model, j: Joint, x: JointStep) {
    match x
    case KernelMoves(t) => Enabled(m, j.s, t) && !t.Boot? && !t.Advance?
    case ManagerMoves(u) => OfManager(u) && M.Enabled(j.g, u)
    case Publish(d) => d < |j.g.nodes|
  }

  ghost predicate JointNext(m: Model, j: Joint, x: JointStep, j': Joint) {
    JointEnabled(m, j, x) &&
    match x
    case KernelMoves(t) =>
      Next(m, j.s, t, j'.s) &&
      (match ViewOf(m, j.s, t, j.tags)
       case Nothing => j'.g == j.g && j'.tags == j.tags
       case Sees(u, tags) => M.Next(j.g, u, j'.g) && j'.tags == tags)
    case ManagerMoves(u) => j'.s == j.s && M.Next(j.g, u, j'.g) && j'.tags == j.tags
    case Publish(d) => Next(m, j.s, Advance(j.g.nodes[d].g.gvt), j'.s) && j'.g == j.g && j'.tags == j.tags
  }

  /** All LPs are initialized; messages of the initialization may still be in transit. */
  ghost predicate JointStarts(m: Model, j: Joint) {
    Reachable(m, j.s) && Booted(j.s) && M.Starts(j.g) && Coupled(m, j.s, j.g, j.tags)
  }

  ghost predicate JointReaches(m: Model, steps: seq<JointStep>, j: Joint) {
    if steps == [] then JointStarts(m, j)
    else
      var before, last := steps[..|steps| - 1], steps[|steps| - 1];
      exists r :: JointReaches(m, before, r) && JointNext(m, r, last, j)
  }

  ghost predicate JointReachable(m: Model, j: Joint) {
    exists steps :: JointReaches(m, steps, j)
  }

  // ------------------------------------------------------------------------------------------
  // Starting
  // ------------------------------------------------------------------------------------------

  lemma {:induction false} Listing(net: set<Event>) returns (tags: seq<Event>)
    ensures |tags| == |net| && forall e :: e in tags <==> e in net
    ensures forall a, b :: 0 <= a < b < |tags| ==> tags[a] != tags[b]
    decreases |net|
  {
    if net == {} {
      tags := [];
    } else {
      var e :| e in net;
      var rest := Listing(net - {e});
      tags := rest + [e];
    }
  }

  ghost function StartNode(m: Model, s: Sys, d: nat, count: nat): M.Node {
    M.Node(M.Manager(M.WHITE, M.WHITE, if d == 0 then count else 0, 0, UINT_MAX, UINT_MAX, UINT_MAX, 0, M.IDLE, false, false, 0),
           PendingAt(m, s, d), {}, M.NotYet)
  }

  lemma {:induction false} NothingCounted(nodes: seq<M.Node>)
    requires forall d :: 0 <= d < |nodes| ==> nodes[d].g.white == 0
    ensures M.SumCounts(nodes, M.WHITE) == 0
  {
    if nodes != [] {
      NothingCounted(nodes[1..]);
    }
  }

  function Carrying(m: Model, e: Event): M.Message
  {
    M.Message(if e.body.sender > 0 then m.node(e.body.sender - 1) else 0, m.node(e.body.recv), e.body.ts, M.WHITE)
  }

  /** A message in transit is between two LPs on different processes. */
  lemma TransitIsBetween(m: Model, s: Sys, e: Event)
    requires Reachable(m, s) && WellFormed(m) && e in s.net
    ensures 0 < e.body.sender <= m.n == |s.lps| && e.body.recv < m.n
    ensures m.node(e.body.sender - 1) != m.node(e.body.recv)
  {
    hide Reachable, LocalOk, SchedulingOk, FloorOk, Ledgers.Balanced;
    ReachableHasInv(m, s);
    Ledgers.TransitIsBetween(m.node, LedgerOf(s), e);
    SentToSomebody(m, s, e.body.sender - 1, e.gen);
  }

  lemma SentToSomebody(m: Model, s: Sys, i: nat, gen: nat)
    requires Inv(m, s) && i < m.n && gen < |s.lps[i].sent|
    ensures s.lps[i].sent[gen].body.recv < m.n
  {
    hide SavedStatesOk, StateOk, OutputsOk, HistoryOk, InputOk, JobOk, SchedulingOk, FloorOk, Ledgers.Balanced;
    assert LocalOk(m, i, s.lps[i]);
    assert SentItemOk(m, i, gen, s.lps[i].sent[gen]);
  }

  lemma SoleHasNoTransit(m: Model, s: Sys)
    requires Reachable(m, s) && WellFormed(m) && forall i :: 0 <= i < m.n ==> m.node(i) < 1
    ensures s.net == {}
  {
    hide Reachable, WellFormed;
    forall e
      ensures e !in s.net
    {
      if e in s.net {
        TransitIsBetween(m, s, e);
      }
    }
  }

  /** The managers of n processes when the events in tags are in transit. */
  ghost function StartOf(m: Model, s: Sys, n: nat, tags: seq<Event>): M.Sys {
    M.Sys(seq(n, d requires 0 <= d < n => StartNode(m, s, d, |tags|)),
          seq(|tags|, k requires 0 <= k < |tags| => Carrying(m, tags[k])),
          [], {}, M.WHITE, seq(n, d => 0))
  }

  lemma StartCounts(m: Model, s: Sys, n: nat, tags: seq<Event>)
    requires n > 0
    ensures M.SumCounts(StartOf(m, s, n, tags).nodes, M.WHITE) == |tags|
  {
    NothingCounted(StartOf(m, s, n, tags).nodes[1..]);
  }

  lemma ManagersStart(m: Model, s: Sys, n: nat, tags: seq<Event>)
    requires n > 0 && (n == 1 ==> tags == [])
    requires forall e :: e in tags ==> Carrying(m, e).sender < n && Carrying(m, e).receiver < n
    ensures M.Starts(StartOf(m, s, n, tags))
  {
    StartCounts(m, s, n, tags);
    hide M.SumCounts, PendingAt;
    var net := StartOf(m, s, n, tags).net;
    forall x | x in net
      ensures x.color == M.WHITE && x.sender < n && x.receiver < n
    {
      var k :| 0 <= k < |net| && net[k] == x;
      assert tags[k] in tags;
    }
  }

  lemma CoupledAtStart(m: Model, s: Sys, n: nat, tags: seq<Event>)
    requires forall i :: 0 <= i < |s.lps| ==> m.node(i) < n
    requires forall e :: e in tags <==> e in s.net
    requires forall a, b :: 0 <= a < b < |tags| ==> tags[a] != tags[b]
    requires forall k :: 0 <= k < |tags| ==> tags[k].body.recv < |s.lps|
    ensures Coupled(m, s, StartOf(m, s, n, tags), tags)
  {
    hide PendingAt;
  }

  /** Whenever all LPs are initialized, the managers can start. */
  lemma StartExists(m: Model, s: Sys, n: nat) returns (j: Joint)
    requires WellFormed(m) && Reachable(m, s) && Booted(s) && n > 0 && forall i :: 0 <= i < m.n ==> m.node(i) < n
    ensures JointStarts(m, j) && j.s == s && |j.g.nodes| == n
  {
    HasLength(m, s);
    hide Reachable, WellFormed, PendingAt, Booted, Coupled, M.Starts;
    var tags := Listing(s.net);
    forall e | e in tags
      ensures e.body.recv < m.n && Carrying(m, e).sender < n && Carrying(m, e).receiver < n
    {
      TransitIsBetween(m, s, e);
    }
    if n == 1 {
      SoleHasNoTransit(m, s);
    }
    ManagersStart(m, s, n, tags);
    CoupledAtStart(m, s, n, tags);
    j := Joint(s, StartOf(m, s, n, tags), tags);
  }

  lemma HasLength(m: Model, s: Sys)
    requires WellFormed(m) && Reachable(m, s)
    ensures |s.lps| == m.n
  {
    ReachableHasInv(m, s);
  }

  // ------------------------------------------------------------------------------------------
  // Running
  // ------------------------------------------------------------------------------------------

  /** What holds all the time. */
  ghost predicate JointOk(m: Model, j: Joint) {
    Reachable(m, j.s) && Booted(j.s) && M.Reachable(j.g) && Coupled(m, j.s, j.g, j.tags)
  }

  lemma FollowKernel(m: Model, s: Sys, t: Step)
    requires Reachable(m, s) && Enabled(m, s, t)
    ensures Reachable(m, Apply(m, s, t))
  {
    hide Enabled, Apply;
    var steps :| Reaches(m, steps, s);
    assert (steps + [t])[..|steps + [t]| - 1] == steps;
    assert Next(m, s, t, Apply(m, s, t));
    assert Reaches(m, steps + [t], Apply(m, s, t));
  }

  lemma FollowManager(g: M.Sys, u: M.Step)
    requires M.Reachable(g) && M.Enabled(g, u)
    ensures M.Reachable(M.Apply(g, u))
  {
    hide M.Enabled, M.Apply;
    var steps :| M.Reaches(steps, g);
    assert (steps + [u])[..|steps + [u]| - 1] == steps;
    assert M.Next(g, u, M.Apply(g, u));
    assert M.Reaches(steps + [u], M.Apply(g, u));
  }

  lemma PostKeepsJobs(m: Model, s: Sys, from: nat, e: Event)
    requires e.body.recv < |s.lps|
    ensures |Post(m, s, from, e).lps| == |s.lps|
    ensures forall i :: 0 <= i < |s.lps| ==> Post(m, s, from, e).lps[i].job == s.lps[i].job
  {
    hide Insert, Erase;
  }

  lemma SendNextKeepsBooted(m: Model, s: Sys, i: nat)
    requires Booted(s) && Enabled(m, s, SendNext(i))
    ensures Booted(Apply(m, s, SendNext(i)))
  {
    hide Post;
    var lp, job := s.lps[i], s.lps[i].job;
    var lp' := lp.(job := job.(stage := Sending(job.stage.msgs[1..])));
    var e := NewEvent(i, lp', job.event, job.stage.msgs[0]);
    PostKeepsJobs(m, s.(lps := s.lps[i := Recorded(lp', job.event, e)]), i, e);
  }

  lemma SendAntiKeepsBooted(m: Model, s: Sys, i: nat)
    requires Booted(s) && Enabled(m, s, Step.SendAnti(i))
    ensures Booted(Apply(m, s, Step.SendAnti(i)))
  {
    hide Post;
    var lp, job := s.lps[i], s.lps[i].job;
    var antis := job.stage.antis;
    var s' := s.(lps := s.lps[i := lp.(job := job.(stage := Cancelling(antis[1..], job.stage.restored)))]);
    PostKeepsJobs(m, s', i, NegOf(antis[0]));
  }

  /** Initialization does not begin again. */
  lemma StepKeepsBooted(m: Model, s: Sys, t: Step)
    requires Booted(s) && Enabled(m, s, t)
    ensures Booted(Apply(m, s, t))
  {
    hide Insert, Erase, RollPoint, InsertAll, RestoreStates, OutputPoint, UpTo, CoastForward, CancelIn, OutputsCollected,
         EventsCollected, CollectStates, CollectTime, Post;
    if t.SendNext? {
      SendNextKeepsBooted(m, s, t.i);
    } else if t.SendAnti? {
      SendAntiKeepsBooted(m, s, t.i);
    }
  }

  lemma AdvanceKeepsCoupling(m: Model, j: Joint, gvt: nat)
    requires Coupled(m, j.s, j.g, j.tags) && Enabled(m, j.s, Advance(gvt))
    ensures Coupled(m, Apply(m, j.s, Advance(gvt)), j.g, j.tags)
  {
    hide PendingAt, Carries;
    var s' := Apply(m, j.s, Advance(gvt));
    forall d | 0 <= d < |j.g.nodes|
      ensures PendingAt(m, s', d) == PendingAt(m, j.s, d)
    {
      SameInputsSamePending(m, j.s, s', d);
    }
  }

  lemma JointStepKeepsOk(m: Model, j: Joint, x: JointStep, j': Joint)
    requires WellFormed(m) && JointOk(m, j) && JointNext(m, j, x, j')
    ensures JointOk(m, j')
  {
    hide WellFormed, Reachable, Booted, M.Reachable, Coupled, Enabled, Apply, M.Enabled, M.Apply, ViewOf;
    match x
    case KernelMoves(t) =>
      FollowKernel(m, j.s, t);
      StepKeepsBooted(m, j.s, t);
      KernelStepIsMatched(m, j.s, j.g, j.tags, t);
      var v := ViewOf(m, j.s, t, j.tags);
      if v.Sees? {
        FollowManager(j.g, v.u);
      }
    case ManagerMoves(u) =>
      FollowManager(j.g, u);
      ManagerStepKeepsCoupling(m, j.s, j.g, j.tags, u);
    case Publish(d) =>
      var gvt := j.g.nodes[d].g.gvt;
      FollowKernel(m, j.s, Advance(gvt));
      StepKeepsBooted(m, j.s, Advance(gvt));
      AdvanceKeepsCoupling(m, j, gvt);
  }

  lemma {:induction false} JointRunIsOk(m: Model, steps: seq<JointStep>, j: Joint)
    requires WellFormed(m) && JointReaches(m, steps, j)
    ensures JointOk(m, j)
    decreases |steps|
  {
    hide WellFormed, JointOk, JointNext, JointStarts;
    if steps == [] {
      StartIsOk(m, j);
    } else {
      var before, x := steps[..|steps| - 1], steps[|steps| - 1];
      var r :| JointReaches(m, before, r) && JointNext(m, r, x, j);
      JointRunIsOk(m, before, r);
      JointStepKeepsOk(m, r, x, j);
    }
  }

  lemma StartIsOk(m: Model, j: Joint)
    requires JointStarts(m, j)
    ensures JointOk(m, j)
  {
    hide Coupled, Reachable, Booted, M.Starts;
    var none: seq<M.Step> := [];
    assert M.Reaches(none, j.g);
  }

  // ------------------------------------------------------------------------------------------
  // Theorems
  // ------------------------------------------------------------------------------------------

  /** In every reachable state, manager and kernel agree: the times that the managers assume to be
      unprocessed are those of the events in the input queues, and the messages they count are the
      events in transit. */
  lemma JointRunsAreCoupled(m: Model, j: Joint)
    requires WellFormed(m) && JointReachable(m, j)
    ensures Reachable(m, j.s) && M.Reachable(j.g) && Coupled(m, j.s, j.g, j.tags)
  {
    hide WellFormed, JointOk, JointReaches;
    var steps :| JointReaches(m, steps, j);
    JointRunIsOk(m, steps, j);
    OkMeans(m, j);
  }

  lemma OkMeans(m: Model, j: Joint)
    requires JointOk(m, j)
    ensures Reachable(m, j.s) && Booted(j.s) && M.Reachable(j.g) && Coupled(m, j.s, j.g, j.tags)
  {
  }

  /** Neither waits for the other: a kernel step is always one that the managers can follow, and a GVT
      that a manager holds is always one that the kernel may advance to. */
  lemma NeitherBlocks(m: Model, j: Joint, x: JointStep)
    requires WellFormed(m) && JointReachable(m, j) && JointEnabled(m, j, x)
    ensures exists j' :: JointNext(m, j, x, j')
  {
    hide WellFormed, Reachable, Booted, M.Reachable, Coupled, Enabled, Apply, M.Enabled, M.Apply, ViewOf, JointReaches, JointOk;
    var steps :| JointReaches(m, steps, j);
    JointRunIsOk(m, steps, j);
    OkMeans(m, j);
    match x
    case KernelMoves(t) =>
      KernelStepIsMatched(m, j.s, j.g, j.tags, t);
      var v := ViewOf(m, j.s, t, j.tags);
      var s' := Apply(m, j.s, t);
      assert JointNext(m, j, x, if v.Sees? then Joint(s', M.Apply(j.g, v.u), v.tags) else Joint(s', j.g, j.tags));
    case ManagerMoves(u) =>
      assert JointNext(m, j, x, Joint(j.s, M.Apply(j.g, u), j.tags));
    case Publish(d) =>
      HeldGvtAllowsAdvance(m, j.s, j.g, j.tags, d);
      assert JointNext(m, j, x, Joint(Apply(m, j.s, Advance(j.g.nodes[d].g.gvt)), j.g, j.tags));
  }

  /** At all times, every GVT that a manager holds is at most the time of every event that the kernel
      still has to process and of every message in transit. */
  lemma EveryGvtIsSafe(m: Model, j: Joint, d: nat)
    requires WellFormed(m) && JointReachable(m, j) && d < |j.g.nodes|
    ensures AllAtLeast(j.s, j.g.nodes[d].g.gvt) && AllAtLeast(j.s, j.s.floor)
  {
    JointRunsAreCoupled(m, j);
    ReachableHasInv(m, j.s);
    M.GvtIsSafe(j.g, d, M.Update(d, 0));
    hide Inv, WellFormed, M.Reachable, Reachable;
    BoundsKernel(m, j.s, j.g, j.tags, j.g.nodes[d].g.gvt);
  }
}
