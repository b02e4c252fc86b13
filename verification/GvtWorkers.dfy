/** Kernel, asynchronous GVT manager and the reports of the worker threads together: nothing is assumed
    of the local minima any more.  What the threads report as they take and send events is sound, so
    that every GVT that comes of it is safe. */
module GvtWorkers {
  import opened Events
  import opened Simulation
  import opened Queues
  import opened Kernel
  import opened KernelInvariant
  import opened KernelGvt
  import opened KernelMinimum
  import opened GvtRuns
  import L = LocalMinimum
  import M = Mattern

  /** Kernel and managers, and the local computation of each process. */
  datatype Full = Full(j: Joint, locals: seq<L.Sys>)

  datatype FullStep =
    | Joins(x: JointStep)                 // the kernel, tokens and updates
    | Begins(d: nat)                      // manager d begins its local computation
    | Ends(d: nat)                        // manager d finds the flag back at 0
    | FindsNothing(d: nat, w: nat)        // worker w of process d finds its queue empty
    | ReportsSend(d: nat, w: nat)         // reportThreadSendMin

  predicate IsFree(s: Sys, w: Worker) {
    forall i :: 0 <= i < |s.lps| && s.lps[i].job.Busy? ==> s.lps[i].job.worker != w
  }

  ghost predicate FullEnabled(m: Model, f: Full, x: FullStep) {
    |f.locals| == |f.j.g.nodes| &&
    match x
    case Joins(y) =>
      && JointEnabled(m, f.j, y)
      && (y.KernelMoves? && ThreadOf(f.j.s, y.t).Some? ==>
            forall d :: 0 <= d < |f.locals| ==> MayGoOn(ThreadOf(f.j.s, y.t).value, d, f.locals[d]))
      && (y.ManagerMoves? ==> !y.u.BeginLocal? && !y.u.EndLocal?)
    case Begins(d) => M.Enabled(f.j.g, M.BeginLocal(d))
    case Ends(d) =>
      && d < |f.locals| && |f.j.g.late| == |f.j.g.nodes|
      && f.j.g.nodes[d].g.state == M.LOCAL && f.j.g.nodes[d].g.startedLocal && f.j.g.nodes[d].result == M.NotYet
      && f.locals[d].reports.flag == 0
    case FindsNothing(d, w) =>
      && d < |f.locals| && w < |f.locals[d].workers| && MayGoOn(Worker(d, w), d, f.locals[d])
      && IsFree(f.j.s, Worker(d, w)) && QueueOf(f.j.s, QueueId(d, w % NonZero(m.schedulers))) == []
    case ReportsSend(d, w) => d < |f.locals| && w < |f.locals[d].workers| && f.locals[d].workers[w].due.SendOf?
  }

  /** What the local computation of process d makes of a step. */
  ghost predicate LocalNext(v: LocalView, d: nat, l: L.Sys, l': L.Sys) {
    if v.Does? && v.d == d then L.Next(l, v.u, l') else l' == l
  }

  ghost predicate OneLocal(f: Full, f': Full, d: nat, u: L.Step) {
    d < |f.locals| == |f'.locals| && L.Next(f.locals[d], u, f'.locals[d]) && f'.locals == f.locals[d := f'.locals[d]]
  }

  ghost predicate FullNext(m: Model, f: Full, x: FullStep, f': Full) {
    FullEnabled(m, f, x) &&
    match x
    case Joins(y) =>
      && JointNext(m, f.j, y, f'.j)
      && if y.KernelMoves? then
           && |f'.locals| == |f.locals|
           && forall d :: 0 <= d < |f.locals| ==> LocalNext(LocalViewOf(m, f.j.s, y.t), d, f.locals[d], f'.locals[d])
         else f'.locals == f.locals
    case Begins(d) => JointNext(m, f.j, ManagerMoves(M.BeginLocal(d)), f'.j) && OneLocal(f, f', d, L.Begin)
    case Ends(d) =>
      JointNext(m, f.j, ManagerMoves(M.EndLocal(d, L.Least(f.locals[d].reports.localMin))), f'.j) && OneLocal(f, f', d, L.End)
    case FindsNothing(d, w) => f'.j == f.j && OneLocal(f, f', d, L.TakeNothing(w))
    case ReportsSend(d, w) => f'.j == f.j && OneLocal(f, f', d, L.Report(w))
  }

  /** The managers and the kernel start, no worker has taken an event yet, and no two workers of a process
      serve a queue with LPs. */
  ghost predicate FullStarts(m: Model, f: Full) {
    && JointStarts(m, f.j) && |f.locals| == |f.j.g.nodes|
    && forall d :: 0 <= d < |f.locals| ==>
         && L.Starts(f.locals[d]) && L.OwnQueues(L.ConfigOf(f.locals[d])) && f.locals[d].got == {}
         && Watches(m, f.j.s, d, f.locals[d])
  }

  ghost predicate FullReaches(m: Model, steps: seq<FullStep>, f: Full) {
    if steps == [] then FullStarts(m, f)
    else
      var before, last := steps[..|steps| - 1], steps[|steps| - 1];
      exists r :: FullReaches(m, before, r) && FullNext(m, r, last, f)
  }

  ghost predicate FullReachable(m: Model, f: Full) {
    exists steps :: FullReaches(m, steps, f)
  }

  // ------------------------------------------------------------------------------------------
  // The invariant
  // ------------------------------------------------------------------------------------------

  /** The local computation l is that of the manager of process d. */
  ghost predicate Serves(m: Model, s: Sys, d: nat, node: M.Node, l: L.Sys) {
    && L.Reachable(l) && L.OwnQueues(L.ConfigOf(l)) && Watches(m, s, d, l) && l.got == node.got
    && (l.running <==> node.g.startedLocal && node.result == M.NotYet)
  }

  ghost predicate FullOk(m: Model, f: Full) {
    && JointReachable(m, f.j) && |f.locals| == |f.j.g.nodes|
    && forall d :: 0 <= d < |f.locals| ==> Serves(m, f.j.s, d, f.j.g.nodes[d], f.locals[d])
  }

  lemma FollowJoint(m: Model, j: Joint, x: JointStep, j': Joint)
    requires JointReachable(m, j) && JointNext(m, j, x, j')
    ensures JointReachable(m, j')
  {
    hide JointNext, JointStarts;
    var steps :| JointReaches(m, steps, j);
    assert (steps + [x])[..|steps + [x]| - 1] == steps;
    assert JointReaches(m, steps + [x], j');
  }

  /** One step of a local computation. */
  lemma LocalStepServes(m: Model, s: Sys, s': Sys, d: nat, node: M.Node, node': M.Node, l: L.Sys, u: L.Step)
    requires Serves(m, s, d, node, l) && L.Shape(l) && L.Enabled(l, u) && Watches(m, s', d, L.Apply(l, u))
    requires L.Apply(l, u).got == node'.got
    requires L.Apply(l, u).running <==> node'.g.startedLocal && node'.result == M.NotYet
    ensures Serves(m, s', d, node', L.Apply(l, u))
  {
    hide Watches, L.Reachable, L.Enabled, L.Apply, L.OwnQueues, L.ConfigOf, L.Shape;
    L.Follow(l, u);
    L.StepKeepsShape(l, u);
  }

  /** What manager d notices of a kernel step changes neither the running computation nor what it has. */
  predicate SameManager(a: M.Node, b: M.Node) {
    b.got == a.got && b.result == a.result && b.g.startedLocal == a.g.startedLocal
  }

  lemma KernelStepServes(m: Model, f: Full, t: Step, f': Full, d: nat)
    requires WellFormed(m) && !m.migration && FullOk(m, f) && FullNext(m, f, Joins(KernelMoves(t)), f')
    requires d < |f.locals| && |f'.j.g.nodes| == |f.locals|
    requires var a, b := f.j.g.nodes[d], f'.j.g.nodes[d];
             if t.Deliver? && m.node(t.e.body.recv) == d then b.got == a.got + {t.e.body.ts} && b.result == a.result
                                                              && b.g.startedLocal == a.g.startedLocal
             else SameManager(a, b)
    ensures Serves(m, f'.j.s, d, f'.j.g.nodes[d], f'.locals[d])
  {
    var s, l, v := f.j.s, f.locals[d], LocalViewOf(m, f.j.s, t);
    assert Serves(m, s, d, f.j.g.nodes[d], l);
    assert LocalNext(v, d, l, f'.locals[d]);
    KernelIsReachable(m, f.j);
    hide WellFormed, JointReachable, Reachable, Watches, L.Reachable, Apply, L.OwnQueues, L.ConfigOf, Enabled, Coupled, MayGoOn,
         FullOk, L.LeastOf, ViewOf;
    KernelStepIsLocal(m, s, t, d, l);
    if v.Does? && v.d == d {
      ViewKeepsRunning(m, s, t, l);
      LocalStepServes(m, s, f'.j.s, d, f.j.g.nodes[d], f'.j.g.nodes[d], l, v.u);
    }
  }

  lemma KernelIsReachable(m: Model, j: Joint)
    requires WellFormed(m) && JointReachable(m, j)
    ensures Reachable(m, j.s)
  {
    JointRunsAreCoupled(m, j);
  }

  /** No kernel step begins or ends a local computation; only arrivals count as such. */
  lemma ViewKeepsRunning(m: Model, s: Sys, t: Step, l: L.Sys)
    requires Enabled(m, s, t)
    ensures var v := LocalViewOf(m, s, t);
            v.Does? && L.Shape(l) && L.Enabled(l, v.u) ==>
              && L.Apply(l, v.u).running == l.running
              && L.Apply(l, v.u).got == if t.Deliver? then l.got + {t.e.body.ts} else l.got
  {
    hide L.LeastOf;
  }

  lemma WorkKeepsManager(g: M.Sys, u: M.Step, d: nat)
    requires M.Enabled(g, u) && (u.Work? || u.Send?) && d < |g.nodes|
    ensures |M.Apply(g, u).nodes| == |g.nodes| && SameManager(g.nodes[d], M.Apply(g, u).nodes[d])
  {
    hide M.NotBefore;
  }

  lemma ReceiptIsGot(g: M.Sys, u: M.Step, d: nat)
    requires M.Enabled(g, u) && u.Receive? && d < |g.nodes|
    ensures var a, b := g.nodes[d], M.Apply(g, u).nodes[d];
            && |M.Apply(g, u).nodes| == |g.nodes| && b.result == a.result && b.g.startedLocal == a.g.startedLocal
            && b.got == if d == u.i then a.got + {g.net[u.k].ts} else a.got
  {
  }

  /** Deliveries are what the managers get. */
  lemma KernelStepKeepsManager(m: Model, j: Joint, t: Step, j': Joint, d: nat)
    requires Coupled(m, j.s, j.g, j.tags) && JointNext(m, j, KernelMoves(t), j') && d < |j.g.nodes|
    ensures |j'.g.nodes| == |j.g.nodes|
    ensures var a, b := j.g.nodes[d], j'.g.nodes[d];
            if t.Deliver? && m.node(t.e.body.recv) == d then b.got == a.got + {t.e.body.ts} && b.result == a.result
                                                             && b.g.startedLocal == a.g.startedLocal
            else SameManager(a, b)
  {
    var v := ViewOf(m, j.s, t, j.tags);
    if t.Deliver? {
      InTransitIsTagged(m, j.s, j.g, j.tags, t.e);
      assert Carries(m, j.g.net[v.u.k], j.tags[v.u.k]);
      hide PendingAt, Apply, M.Apply, M.Enabled, Enabled;
      ReceiptIsGot(j.g, v.u, d);
    } else if v.Sees? {
      hide PendingAt, Coupled, Apply, M.Apply, M.Enabled, Enabled;
      WorkKeepsManager(j.g, v.u, d);
    }
  }

  lemma KernelMoveKeepsOk(m: Model, f: Full, t: Step, f': Full)
    requires WellFormed(m) && !m.migration && FullOk(m, f) && FullNext(m, f, Joins(KernelMoves(t)), f')
    ensures FullOk(m, f')
  {
    JointRunsAreCoupled(m, f.j);
    FollowJoint(m, f.j, KernelMoves(t), f'.j);
    hide WellFormed, JointReachable, JointNext, Coupled, Reachable, M.Reachable, Serves, JointEnabled, LocalNext;
    forall d | 0 <= d < |f.locals|
      ensures |f'.j.g.nodes| == |f.locals| && Serves(m, f'.j.s, d, f'.j.g.nodes[d], f'.locals[d])
    {
      KernelStepKeepsManager(m, f.j, t, f'.j, d);
      KernelStepServes(m, f, t, f', d);
    }
    SameNumber(m, f.j, KernelMoves(t), f'.j);
  }

  lemma SameNumber(m: Model, j: Joint, x: JointStep, j': Joint)
    requires JointNext(m, j, x, j') && (x.KernelMoves? ==> Coupled(m, j.s, j.g, j.tags))
    ensures |j'.g.nodes| == |j.g.nodes|
  {
    hide Coupled, Apply, Enabled, PendingAt, M.Sound, M.NotBefore, M.ReceiveToken, M.NewToken, M.Begin, M.Ended, ViewOf;
  }

  /** Tokens, updates and the GVT period do not concern the local computation. */
  lemma ManagerStepServes(m: Model, s: Sys, g: M.Sys, u: M.Step, d: nat, l: L.Sys)
    requires d < |g.nodes| && M.Enabled(g, u) && OfManager(u) && !u.BeginLocal? && !u.EndLocal?
    requires Serves(m, s, d, g.nodes[d], l)
    ensures |M.Apply(g, u).nodes| == |g.nodes| && Serves(m, s, d, M.Apply(g, u).nodes[d], l)
  {
    hide Watches, L.Reachable, L.OwnQueues, L.ConfigOf;
    var a, b := g.nodes[d], M.Apply(g, u).nodes[d];
    assert b.got == a.got;
    assert b.g.startedLocal && b.result == M.NotYet <==> a.g.startedLocal && a.result == M.NotYet;
  }

  lemma OtherJoinKeepsOk(m: Model, f: Full, y: JointStep, f': Full)
    requires WellFormed(m) && FullOk(m, f) && !y.KernelMoves? && FullNext(m, f, Joins(y), f')
    ensures FullOk(m, f')
  {
    FollowJoint(m, f.j, y, f'.j);
    hide WellFormed, JointReachable, Serves, M.Enabled, M.Apply, Enabled, Apply;
    forall d | 0 <= d < |f.locals|
      ensures |f'.j.g.nodes| == |f.locals| && Serves(m, f'.j.s, d, f'.j.g.nodes[d], f'.locals[d])
    {
      if y.ManagerMoves? {
        ManagerStepServes(m, f.j.s, f.j.g, y.u, d, f.locals[d]);
      } else {
        AdvanceServes(m, f.j.s, f'.j.s, f.j.g.nodes[y.d].g.gvt, d, f.j.g.nodes[d], f.locals[d]);
      }
    }
    hide FullNext, JointNext;
    if y.ManagerMoves? {
      SameNumber(m, f.j, y, f'.j);
    }
  }

  lemma AdvanceServes(m: Model, s: Sys, s': Sys, gvt: nat, d: nat, node: M.Node, l: L.Sys)
    requires Serves(m, s, d, node, l) && Next(m, s, Advance(gvt), s')
    ensures Serves(m, s', d, node, l)
  {
    hide L.Reachable, L.OwnQueues, L.ConfigOf, Watches;
    AdvanceIsSeen(m, s, gvt, d, l);
    assert LocalViewOf(m, s, Advance(gvt)) == Quiet;
  }

  // ------------------------------------------------------------------------------------------
  // The local computation's own steps
  // ------------------------------------------------------------------------------------------

  lemma OneLocalKeepsOk(m: Model, f: Full, f': Full, d: nat, u: L.Step)
    requires FullOk(m, f) && OneLocal(f, f', d, u) && JointReachable(m, f'.j)
    requires f'.j.s == f.j.s && |f'.j.g.nodes| == |f.j.g.nodes|
    requires forall k :: 0 <= k < |f.locals| && k != d ==> f'.j.g.nodes[k] == f.j.g.nodes[k]
    requires Serves(m, f.j.s, d, f'.j.g.nodes[d], f'.locals[d])
    ensures FullOk(m, f')
  {
    hide Serves, JointReachable, L.Next;
  }

  lemma BeginServes(m: Model, s: Sys, g: M.Sys, d: nat, l: L.Sys, l': L.Sys)
    requires M.Enabled(g, M.BeginLocal(d)) && Serves(m, s, d, g.nodes[d], l) && L.Next(l, L.Begin, l')
    ensures var g' := M.Apply(g, M.BeginLocal(d));
            && |g'.nodes| == |g.nodes| && (forall k :: 0 <= k < |g.nodes| && k != d ==> g'.nodes[k] == g.nodes[k])
            && Serves(m, s, d, g'.nodes[d], l')
  {
    var g' := M.Apply(g, M.BeginLocal(d));
    hide Watches, L.Reachable, L.OwnQueues, L.ConfigOf;
    L.StepKeepsShape(l, L.Begin);
    SeenAlike(m, s, d, l, l');
    LocalStepServes(m, s, s, d, g.nodes[d], g'.nodes[d], l, L.Begin);
  }

  lemma EndServes(m: Model, s: Sys, g: M.Sys, d: nat, min: nat, l: L.Sys, l': L.Sys)
    requires M.Enabled(g, M.EndLocal(d, min)) && Serves(m, s, d, g.nodes[d], l) && L.Next(l, L.End, l')
    ensures var g' := M.Apply(g, M.EndLocal(d, min));
            && |g'.nodes| == |g.nodes| && (forall k :: 0 <= k < |g.nodes| && k != d ==> g'.nodes[k] == g.nodes[k])
            && Serves(m, s, d, g'.nodes[d], l')
  {
    var g' := M.Apply(g, M.EndLocal(d, min));
    hide Watches, L.Reachable, L.OwnQueues, L.ConfigOf, M.Sound;
    L.StepKeepsShape(l, L.End);
    SeenAlike(m, s, d, l, l');
    LocalStepServes(m, s, s, d, g.nodes[d], g'.nodes[d], l, L.End);
  }

  lemma ReportServes(m: Model, s: Sys, d: nat, node: M.Node, l: L.Sys, u: L.Step, l': L.Sys)
    requires Serves(m, s, d, node, l) && (u.TakeNothing? || u.Report?) && L.Next(l, u, l')
    ensures Serves(m, s, d, node, l')
  {
    hide Watches, L.Reachable, L.OwnQueues, L.ConfigOf;
    L.StepKeepsShape(l, u);
    SeenAlike(m, s, d, l, l');
    LocalStepServes(m, s, s, d, node, node, l, u);
  }

  lemma LocalStepKeepsOk(m: Model, f: Full, x: FullStep, f': Full)
    requires WellFormed(m) && FullOk(m, f) && FullNext(m, f, x, f') && !x.Joins?
    ensures FullOk(m, f')
  {
    hide WellFormed, JointReachable, Serves, L.Next, M.Enabled, M.Apply, MayGoOn;
    match x
    case Begins(d) =>
      FollowJoint(m, f.j, ManagerMoves(M.BeginLocal(d)), f'.j);
      BeginServes(m, f.j.s, f.j.g, d, f.locals[d], f'.locals[d]);
      OneLocalKeepsOk(m, f, f', d, L.Begin);
    case Ends(d) =>
      var min := L.Least(f.locals[d].reports.localMin);
      FollowJoint(m, f.j, ManagerMoves(M.EndLocal(d, min)), f'.j);
      EndServes(m, f.j.s, f.j.g, d, min, f.locals[d], f'.locals[d]);
      OneLocalKeepsOk(m, f, f', d, L.End);
    case FindsNothing(d, w) =>
      ReportServes(m, f.j.s, d, f.j.g.nodes[d], f.locals[d], L.TakeNothing(w), f'.locals[d]);
      OneLocalKeepsOk(m, f, f', d, L.TakeNothing(w));
    case ReportsSend(d, w) =>
      ReportServes(m, f.j.s, d, f.j.g.nodes[d], f.locals[d], L.Report(w), f'.locals[d]);
      OneLocalKeepsOk(m, f, f', d, L.Report(w));
  }

  lemma StartIsFullOk(m: Model, f: Full)
    requires FullStarts(m, f)
    ensures FullOk(m, f)
  {
    hide Watches, Coupled, Reachable, Booted, L.OwnQueues, L.ConfigOf;
    var none: seq<JointStep> := [];
    assert JointReaches(m, none, f.j);
    forall d | 0 <= d < |f.locals|
      ensures Serves(m, f.j.s, d, f.j.g.nodes[d], f.locals[d])
    {
      var start: seq<L.Step> := [];
      assert L.Reaches(start, f.locals[d]);
      assert M.Fresh(f.j.g.nodes[d]);
    }
  }

  lemma {:induction false} FullRunIsOk(m: Model, steps: seq<FullStep>, f: Full)
    requires WellFormed(m) && !m.migration && FullReaches(m, steps, f)
    ensures FullOk(m, f)
    decreases |steps|
  {
    hide WellFormed, FullOk, FullNext, FullStarts;
    if steps == [] {
      StartIsFullOk(m, f);
    } else {
      var before, x := steps[..|steps| - 1], steps[|steps| - 1];
      var r :| FullReaches(m, before, r) && FullNext(m, r, x, f);
      FullRunIsOk(m, before, r);
      if !x.Joins? {
        LocalStepKeepsOk(m, r, x, f);
      } else if x.x.KernelMoves? {
        KernelMoveKeepsOk(m, r, x.x.t, f);
      } else {
        OtherJoinKeepsOk(m, r, x.x, f);
      }
    }
  }

  // ------------------------------------------------------------------------------------------
  // Theorems
  // ------------------------------------------------------------------------------------------

  lemma PendingIsSeen(m: Model, s: Sys, d: nat, l: L.Sys)
    requires Watches(m, s, d, l)
    ensures forall x :: x in PendingAt(m, s, d) ==> L.Pending(l, x)
  {
    hide PendingAt, Times, L.Shape;
    forall x | x in PendingAt(m, s, d)
      ensures L.Pending(l, x)
    {
      var i: nat, e :| UnprocessedAt(m, s, d, i, e) && e.body.ts == x;
      assert LpSeen(m, d, i, s.lps[i], l.lps[i]);
    }
  }

  lemma ServedIsSound(m: Model, j: Joint, d: nat, l: L.Sys)
    requires Coupled(m, j.s, j.g, j.tags) && d < |j.g.nodes| && Serves(m, j.s, d, j.g.nodes[d], l)
    requires j.g.nodes[d].g.startedLocal && j.g.nodes[d].result == M.NotYet && l.reports.flag == 0
    ensures M.Sound(j.g.nodes[d], L.Least(l.reports.localMin)) && L.Least(l.reports.localMin) <= UINT_MAX
  {
    PendingIsSeen(m, j.s, d, l);
    hide Watches, L.Reachable, PendingAt, L.OwnQueues, L.ConfigOf, M.Sound;
    L.LocalMinimumServesMattern(l, j.g.nodes[d]);
  }

  /** When a manager finds the flag back at 0, the least report is a sound local minimum: what the
      token's algorithm assumes of it is a theorem. */
  lemma ReportsAreSound(m: Model, f: Full, d: nat)
    requires WellFormed(m) && !m.migration && FullReachable(m, f) && FullEnabled(m, f, Ends(d))
    ensures M.Enabled(f.j.g, M.EndLocal(d, L.Least(f.locals[d].reports.localMin)))
  {
    var steps :| FullReaches(m, steps, f);
    FullRunIsOk(m, steps, f);
    JointRunsAreCoupled(m, f.j);
    hide WellFormed, FullReaches, JointReachable, Serves, Coupled, Reachable, M.Reachable, M.Sound;
    ServedIsSound(m, f.j, d, f.locals[d]);
  }

  ghost function LocalAfter(v: LocalView, d: nat, l: L.Sys): L.Sys
    requires v.Does? && v.d == d ==> L.Shape(l) && L.Enabled(l, v.u)
  {
    if v.Does? && v.d == d then L.Apply(l, v.u) else l
  }

  lemma KernelMoveGoesOn(m: Model, f: Full, t: Step)
    requires WellFormed(m) && !m.migration && FullOk(m, f) && FullEnabled(m, f, Joins(KernelMoves(t)))
    ensures exists f' :: FullNext(m, f, Joins(KernelMoves(t)), f')
  {
    NeitherBlocks(m, f.j, KernelMoves(t));
    var j' :| JointNext(m, f.j, KernelMoves(t), j');
    KernelIsReachable(m, f.j);
    var v := LocalViewOf(m, f.j.s, t);
    hide WellFormed, JointReachable, JointNext, Reachable, LocalViewOf, Apply, Watches, MayGoOn, L.Enabled, L.Apply, L.Shape,
         L.Reachable, L.OwnQueues, L.ConfigOf;
    forall d | 0 <= d < |f.locals|
      ensures v.Does? && v.d == d ==> L.Shape(f.locals[d]) && L.Enabled(f.locals[d], v.u)
    {
      assert Serves(m, f.j.s, d, f.j.g.nodes[d], f.locals[d]);
      KernelStepIsLocal(m, f.j.s, t, d, f.locals[d]);
    }
    var f' := Full(j', seq(|f.locals|, d requires 0 <= d < |f.locals| => LocalAfter(v, d, f.locals[d])));
    assert FullNext(m, f, Joins(KernelMoves(t)), f');
  }

  lemma LocalStepGoesOn(m: Model, f: Full, x: FullStep)
    requires WellFormed(m) && !m.migration && FullReachable(m, f) && FullOk(m, f) && FullEnabled(m, f, x) && !x.Joins?
    ensures exists f' :: FullNext(m, f, x, f')
  {
    var d := x.d;
    BeginsInRange(f.j.g, x);
    assert Serves(m, f.j.s, d, f.j.g.nodes[d], f.locals[d]);
    var u := LocalStepOf(x);
    MayStepLocally(m, f, x);
    var l' := L.Apply(f.locals[d], u);
    var y := ManagerMoves(if x.Begins? then M.BeginLocal(d) else M.EndLocal(d, L.Least(f.locals[d].reports.localMin)));
    hide WellFormed, JointReachable, Serves, FullReachable, L.Enabled, L.Apply, L.Shape, M.Enabled, M.Apply, MayGoOn;
    if x.Begins? || x.Ends? {
      if x.Ends? {
        ReportsAreSound(m, f, d);
      }
      NeitherBlocks(m, f.j, y);
      var j' :| JointNext(m, f.j, y, j');
      assert FullNext(m, f, x, Full(j', f.locals[d := l']));
    } else {
      assert FullNext(m, f, x, Full(f.j, f.locals[d := l']));
    }
  }

  function LocalStepOf(x: FullStep): L.Step
    requires !x.Joins?
  {
    match x
    case Begins(_) => L.Begin
    case Ends(_) => L.End
    case FindsNothing(_, w) => L.TakeNothing(w)
    case ReportsSend(_, w) => L.Report(w)
  }

  lemma BeginsInRange(g: M.Sys, x: FullStep)
    ensures x.Begins? && M.Enabled(g, M.BeginLocal(x.d)) ==> x.d < |g.nodes|
  {
  }

  lemma MayStepLocally(m: Model, f: Full, x: FullStep)
    requires WellFormed(m) && FullOk(m, f) && FullEnabled(m, f, x) && !x.Joins? && x.d < |f.locals|
    ensures L.Shape(f.locals[x.d]) && L.Enabled(f.locals[x.d], LocalStepOf(x))
  {
    var d, l := x.d, f.locals[x.d];
    assert Serves(m, f.j.s, d, f.j.g.nodes[d], l);
    WatchesHas(m, f.j.s, d, l);
    KernelIsReachable(m, f.j);
    hide WellFormed, JointReachable, Reachable, Watches, L.Reachable, L.OwnQueues, L.ConfigOf;
    if x.FindsNothing? {
      EmptyQueueIsSeen(m, f.j.s, d, l, x.w);
    }
  }

  /** Nobody waits for the proof's sake: whatever the kernel, a manager or a worker is about to do, the
      others can follow. */
  lemma NothingWaits(m: Model, f: Full, x: FullStep)
    requires WellFormed(m) && !m.migration && FullReachable(m, f) && FullEnabled(m, f, x)
    ensures exists f' :: FullNext(m, f, x, f')
  {
    var steps :| FullReaches(m, steps, f);
    FullRunIsOk(m, steps, f);
    hide WellFormed, FullReaches, FullOk;
    if !x.Joins? {
      LocalStepGoesOn(m, f, x);
    } else if x.x.KernelMoves? {
      KernelMoveGoesOn(m, f, x.x.t);
    } else {
      OkIsReachable(m, f);
      NeitherBlocks(m, f.j, x.x);
      var j' :| JointNext(m, f.j, x.x, j');
      hide JointNext, JointEnabled;
      assert FullNext(m, f, x, Full(j', f.locals));
    }
  }

  lemma OkIsReachable(m: Model, f: Full)
    requires FullOk(m, f)
    ensures JointReachable(m, f.j) && |f.locals| == |f.j.g.nodes|
  {
  }

  /** In every run of workers, network, managers and reports, every GVT that a manager holds is at most
      the time of every event that the kernel still has to process and of every message in transit. */
  lemma EveryReportedGvtIsSafe(m: Model, f: Full, d: nat)
    requires WellFormed(m) && !m.migration && FullReachable(m, f) && d < |f.j.g.nodes|
    ensures AllAtLeast(f.j.s, f.j.g.nodes[d].g.gvt) && AllAtLeast(f.j.s, f.j.s.floor)
  {
    var steps :| FullReaches(m, steps, f);
    FullRunIsOk(m, steps, f);
    hide WellFormed, FullReaches, FullOk, JointReachable;
    OkIsReachable(m, f);
    EveryGvtIsSafe(m, f.j, d);
  }

  // ------------------------------------------------------------------------------------------
  // Starting
  // ------------------------------------------------------------------------------------------

  ghost function StartLocal(m: Model, s: Sys, d: nat, threads: nat): L.Sys {
    L.Sys(seq(|s.lps|, i requires 0 <= i < |s.lps| =>
                if m.node(i) == d then L.Lp(s.lps[i].queue, Times(s.lps[i].input), false) else L.Lp(0, {}, false)),
          seq(threads, w requires 0 <= w < threads => L.Worker(w, L.Nothing, L.NoSend)),
          L.Reports(0, seq(threads + 1, k => 0), seq(threads + 1, k => 0), seq(threads + 1, k => false)), {}, false)
  }

  lemma LocalStarts(m: Model, s: Sys, d: nat, threads: nat)
    requires 0 < threads <= m.schedulers && forall i :: 0 <= i < |s.lps| ==> s.lps[i].queue < threads && !s.lps[i].job.Busy?
    ensures var l := StartLocal(m, s, d, threads);
            L.Starts(l) && L.OwnQueues(L.ConfigOf(l)) && l.got == {} && Watches(m, s, d, l)
  {
    var l := StartLocal(m, s, d, threads);
    forall i | 0 <= i < |l.lps|
      ensures !l.lps[i].busy && exists w :: L.ServedBy(l, w, l.lps[i].queue)
    {
      QueueIsServed(m, s, d, threads, i);
    }
    QueuesAreOwn(m, s, d, threads);
    StartIsWatched(m, s, d, threads);
    hide L.OwnQueues, L.ConfigOf, Watches, Times, L.ServedBy;
  }

  lemma QueueIsServed(m: Model, s: Sys, d: nat, threads: nat, i: nat)
    requires 0 < threads && i < |s.lps| && s.lps[i].queue < threads
    ensures var l := StartLocal(m, s, d, threads);
            !l.lps[i].busy && L.ServedBy(l, l.lps[i].queue, l.lps[i].queue)
  {
    hide Times;
  }

  lemma QueuesAreOwn(m: Model, s: Sys, d: nat, threads: nat)
    ensures L.OwnQueues(L.ConfigOf(StartLocal(m, s, d, threads)))
  {
    hide Times;
    var c := L.ConfigOf(StartLocal(m, s, d, threads));
    assert forall w :: 0 <= w < |c.workers| ==> c.workers[w] == w;
  }

  lemma StartIsWatched(m: Model, s: Sys, d: nat, threads: nat)
    requires 0 < threads <= m.schedulers && forall i :: 0 <= i < |s.lps| ==> !s.lps[i].job.Busy?
    ensures Watches(m, s, d, StartLocal(m, s, d, threads))
  {
    hide Times;
    forall w | 0 <= w < threads
      ensures w % NonZero(m.schedulers) == w
    {
      SmallRemainder(w, m.schedulers);
    }
  }

  lemma SmallRemainder(a: nat, b: nat)
    requires a < b
    ensures a % b == a
  {
  }

  /** Whenever all LPs are initialized and no worker has taken an event, such a run can start, with as
      many threads for each process as it has schedule queues, or fewer if they serve the LPs' queues. */
  lemma FullStartExists(m: Model, s: Sys, n: nat, threads: nat) returns (f: Full)
    requires WellFormed(m) && !m.migration && Reachable(m, s) && Booted(s) && n > 0
    requires forall i :: 0 <= i < m.n ==> m.node(i) < n && m.home(i) < threads
    requires forall i :: 0 <= i < |s.lps| ==> !s.lps[i].job.Busy?
    requires 0 < threads <= m.schedulers
    ensures FullStarts(m, f) && f.j.s == s
  {
    var j := StartExists(m, s, n);
    f := Full(j, seq(|j.g.nodes|, d requires 0 <= d < |j.g.nodes| => StartLocal(m, s, d, threads)));
    HasLength(m, s);
    var steps :| Reaches(m, steps, s);
    hide WellFormed, Reachable, Reaches, Booted, JointStarts, StartLocal, L.Starts, L.OwnQueues, L.ConfigOf, Watches;
    forall i | 0 <= i < |s.lps|
      ensures s.lps[i].queue < threads
    {
      QueuesAreFixed(m, steps, s, i);
    }
    forall d | 0 <= d < |f.locals|
      ensures L.Starts(f.locals[d]) && L.OwnQueues(L.ConfigOf(f.locals[d])) && f.locals[d].got == {} && Watches(m, s, d, f.locals[d])
    {
      LocalStarts(m, s, d, threads);
    }
  }
}
