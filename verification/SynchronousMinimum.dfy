/** The local part of the synchronous GVT computation: the workers of one process, any number of
    which may share a schedule queue, stop at a barrier, each with the least event of its queue. */
module SynchronousMinimum {
  import opened Events
  import LocalMinimum
  import SynchronousGvt

  function Min(a: nat, b: nat): nat { if b < a then b else a }

  /** An LP: its schedule queue, the times of its unprocessed events, and whether a worker holds it. */
  datatype Lp = Lp(queue: nat, pending: set<nat>, busy: bool)

  datatype Stage =
    | Free
    | FlagRead(up: bool)        // local_gvt_flag was read; getEvent comes next
    | Working(lp: nat)         // processing an event
    | Stopped                   // reported, and waiting at the barrier with an event of its queue ...
    | StoppedWith(lp: nat)      // ... in hand

  datatype Hand = Nothing | Holds(ts: nat)

  datatype Worker = Worker(queue: nat, stage: Stage, unreported: Hand)

  /** The last entries of localMin and sendMin belong to the manager thread. */
  datatype Sys = Sys(lps: seq<Lp>, workers: seq<Worker>, flag: bool, localMin: seq<nat>, sendMin: seq<nat>)

  datatype Step =
    | Raise                                    // the flag goes up
    | ReadFlag(w: nat)
    | Take(w: nat, lp: nat, ts: nat)
    | TakeNothing(w: nat)
    | Insert(w: nat, lp: nat, ts: nat)         // an event caused by the one in hand
    | Report(w: nat)                           // reportThreadSendMin for it
    | Requeue(w: nat, undone: set<nat>)        // a rollback returns events to the LP's queue
    | Finish(w: nat, left: set<nat>)           // processed or annihilated; the LP is free again
    | Arrive(lp: nat, ts: nat)                 // the manager thread delivers a message
    | Lower                                    // the round is over: minima are reset, workers go on

  predicate IsStopped(d: Worker) { d.stage.Stopped? || d.stage.StoppedWith? }

  /** ts is the least unprocessed event of the LPs that are scheduled in queue q. */
  ghost predicate LeastOf(s: Sys, q: nat, ts: nat) {
    forall i, x :: 0 <= i < |s.lps| && s.lps[i].queue == q && !s.lps[i].busy && x in s.lps[i].pending ==> ts <= x
  }

  ghost predicate Enabled(s: Sys, t: Step) {
    && (!t.Raise? && !t.Arrive? && !t.Lower? ==> t.w < |s.workers|)
    && match t
       case Raise => !s.flag
       case ReadFlag(w) => s.workers[w].stage == Free
       case Take(w, i, ts) =>
         && s.workers[w].stage.FlagRead? && i < |s.lps| && s.lps[i].queue == s.workers[w].queue && !s.lps[i].busy
         && ts in s.lps[i].pending && LeastOf(s, s.workers[w].queue, ts)
       case TakeNothing(w) =>
         && s.workers[w].stage.FlagRead?
         && forall i :: 0 <= i < |s.lps| && s.lps[i].queue == s.workers[w].queue && !s.lps[i].busy ==> s.lps[i].pending == {}
       case Insert(w, i, ts) => i < |s.lps| && s.workers[w].stage.Working? && s.workers[w].unreported == Nothing
       case Report(w) => s.workers[w].stage.Working? && s.workers[w].unreported.Holds?
       case Requeue(w, _) => s.workers[w].stage.Working? && s.workers[w].stage.lp < |s.lps|
       case Finish(w, left) => s.workers[w].stage.Working? && s.workers[w].unreported == Nothing
                               && s.workers[w].stage.lp < |s.lps| && left <= s.lps[s.workers[w].stage.lp].pending
       case Arrive(i, ts) => i < |s.lps|
       case Lower => s.flag && forall w :: 0 <= w < |s.workers| ==> IsStopped(s.workers[w])
  }

  ghost predicate Shape(s: Sys) {
    |s.localMin| == |s.sendMin| == |s.workers| + 1
  }

  function Reported(s: Sys, w: nat, ts: nat): Sys
    requires Shape(s) && w <= |s.workers|
  {
    if s.flag then s.(sendMin := s.sendMin[w := Min(ts, s.sendMin[w])]) else s
  }

  function Added(s: Sys, i: nat, more: set<nat>): Sys
    requires i < |s.lps|
  {
    s.(lps := s.lps[i := s.lps[i].(pending := s.lps[i].pending + more)])
  }

  function Apply(s: Sys, t: Step): Sys
    requires Shape(s) && Enabled(s, t)
  {
    match t
    case Raise => s.(flag := true)
    case ReadFlag(w) => s.(workers := s.workers[w := s.workers[w].(stage := FlagRead(s.flag))])
    case Take(w, i, ts) =>
      var d := s.workers[w];
      var s' := s.(lps := s.lps[i := s.lps[i].(busy := true)]);
      if d.stage.up then
        s'.(workers := s.workers[w := d.(stage := StoppedWith(i))], localMin := s.localMin[w := ts])
      else s'.(workers := s.workers[w := d.(stage := Working(i))])
    case TakeNothing(w) =>
      var d := s.workers[w];
      if d.stage.up then
        s.(workers := s.workers[w := d.(stage := Stopped)], localMin := s.localMin[w := UINT_MAX])
      else s.(workers := s.workers[w := d.(stage := Free)])
    case Insert(w, i, ts) =>
      Added(s, i, {ts}).(workers := s.workers[w := s.workers[w].(unreported := Holds(ts))])
    case Report(w) =>
      Reported(s, w, s.workers[w].unreported.ts).(workers := s.workers[w := s.workers[w].(unreported := Nothing)])
    case Requeue(w, undone) => Added(s, s.workers[w].stage.lp, undone)
    case Finish(w, left) =>
      var i := s.workers[w].stage.lp;
      s.(lps := s.lps[i := s.lps[i].(pending := left, busy := false)],
         workers := s.workers[w := s.workers[w].(stage := Free)])
    case Arrive(i, ts) => Reported(Added(s, i, {ts}), |s.workers|, ts)
    case Lower =>
      var reset := seq(|s.workers| + 1, i => UINT_MAX);
      s.(workers := seq(|s.workers|, w requires 0 <= w < |s.workers| => Resumed(s.workers[w])),
         flag := false, localMin := reset, sendMin := reset)
  }

  /** Past the second barrier, a worker processes the event that it held. */
  function Resumed(d: Worker): Worker {
    d.(stage := if d.stage.StoppedWith? then Working(d.stage.lp) else Free)
  }

  /** Every LP's queue is served by a worker; nobody has started. */
  ghost predicate Starts(s: Sys) {
    && Shape(s) && !s.flag
    && (forall i :: 0 <= i < |s.lps| ==> !s.lps[i].busy && exists w :: ServedBy(s, w, s.lps[i].queue))
    && (forall w :: 0 <= w < |s.workers| ==> s.workers[w].stage == Free && s.workers[w].unreported == Nothing)
  }

  ghost predicate ServedBy(s: Sys, w: int, q: nat) {
    0 <= w < |s.workers| && s.workers[w].queue == q
  }

  ghost predicate Run(steps: seq<Step>, states: seq<Sys>) {
    && |states| == |steps| + 1 && Starts(states[0])
    && forall k :: 0 <= k < |steps| ==>
         Shape(states[k]) && Enabled(states[k], steps[k]) && states[k + 1] == Apply(states[k], steps[k])
  }

  // ------------------------------------------------------------------------------------------
  // The invariant
  // ------------------------------------------------------------------------------------------

  /** The result of the round will be at most x. */
  ghost predicate Covered(s: Sys, x: nat)
    requires Shape(s)
  {
    || (exists w :: 0 <= w < |s.workers| && IsStopped(s.workers[w]) && s.localMin[w] <= x)
    || (exists w :: 0 <= w <= |s.workers| && s.sendMin[w] <= x)
    || (exists w :: 0 <= w < |s.workers| && s.workers[w].unreported.Holds? && s.workers[w].unreported.ts <= x)
  }

  /** The LP of an event in hand is busy, and no one else has an event of it. */
  ghost predicate Held(s: Sys, w: nat)
    requires w < |s.workers|
  {
    var g := s.workers[w].stage;
    && (g.Working? || g.StoppedWith? ==>
          && g.lp < |s.lps| && s.lps[g.lp].busy && s.lps[g.lp].queue == s.workers[w].queue
          && forall v :: 0 <= v < |s.workers| && v != w && (s.workers[v].stage.Working? || s.workers[v].stage.StoppedWith?) ==>
               s.workers[v].stage.lp != g.lp)
    && (!g.Working? ==> s.workers[w].unreported == Nothing)
    && (g.Stopped? || g.StoppedWith? || (g.FlagRead? && g.up) ==> s.flag)
  }

  ghost predicate AllStopped(s: Sys, q: nat) {
    forall w :: 0 <= w < |s.workers| && s.workers[w].queue == q ==> IsStopped(s.workers[w])
  }

  ghost predicate HolderOf(s: Sys, w: int, i: nat) {
    0 <= w < |s.workers| &&
    (s.workers[w].stage.Working? || s.workers[w].stage.StoppedWith?) && s.workers[w].stage.lp == i
  }

  /** A busy LP is held by a worker, and the queue of an LP is served by one. */
  ghost predicate Attended(s: Sys, i: nat)
    requires i < |s.lps|
  {
    && (s.lps[i].busy ==> exists w :: HolderOf(s, w, i))
    && (exists w :: ServedBy(s, w, s.lps[i].queue))
  }

  ghost predicate Inv(s: Sys) {
    && Shape(s)
    && (forall w :: 0 <= w < |s.workers| ==> Held(s, w))
    && (forall i :: 0 <= i < |s.lps| ==> Attended(s, i))
    && (forall i, x :: 0 <= i < |s.lps| && x in s.lps[i].pending && Settled(s, i) ==> Covered(s, x))
  }

  /** LP i is held by a worker that has stopped, or every worker of its queue has. */
  ghost predicate Settled(s: Sys, i: nat)
    requires i < |s.lps|
  {
    || (exists w :: HolderOf(s, w, i) && IsStopped(s.workers[w]))
    || AllStopped(s, s.lps[i].queue)
  }

  lemma CoveredPersists(s: Sys, t: Step, x: nat)
    requires Inv(s) && Enabled(s, t) && Covered(s, x) && s.flag && !t.Lower?
    ensures Covered(Apply(s, t), x)
  {
    hide LeastOf;
    var s' := Apply(s, t);
    if w :| 0 <= w < |s.workers| && IsStopped(s.workers[w]) && s.localMin[w] <= x {
      assert Held(s, w);
      assert IsStopped(s'.workers[w]) && s'.localMin[w] <= x;
    } else if w :| 0 <= w <= |s.workers| && s.sendMin[w] <= x {
      assert s'.sendMin[w] <= x;
    } else {
      var w :| 0 <= w < |s.workers| && s.workers[w].unreported.Holds? && s.workers[w].unreported.ts <= x;
      assert Held(s, w);
      assert s'.sendMin[w] <= x || (s'.workers[w].unreported.Holds? && s'.workers[w].unreported.ts <= x);
    }
  }

  lemma NobodyHolds(s: Sys, i: nat)
    requires (forall w :: 0 <= w < |s.workers| ==> Held(s, w)) && i < |s.lps| && !s.lps[i].busy
    ensures forall w :: !HolderOf(s, w, i)
  {
    forall w | 0 <= w < |s.workers|
      ensures !HolderOf(s, w, i)
    {
      assert Held(s, w);
    }
  }

  lemma TakeKeepsHeld(s: Sys, v: nat, i: nat, ts: nat, w: nat)
    requires Inv(s) && Enabled(s, Take(v, i, ts)) && w < |s.workers|
    ensures var s' := Apply(s, Take(v, i, ts)); |s'.workers| == |s.workers| && Held(s', w)
  {
    hide LeastOf, Covered, Settled;
    assert Held(s, w);
    NobodyHolds(s, i);
    assert forall u :: 0 <= u < |s.workers| && (s.workers[u].stage.Working? || s.workers[u].stage.StoppedWith?) ==>
                         HolderOf(s, u, s.workers[u].stage.lp);
  }

  lemma OtherStepsKeepHeld(s: Sys, t: Step, w: nat)
    requires Inv(s) && Enabled(s, t) && w < |s.workers| && !t.Take?
    ensures |Apply(s, t).workers| == |s.workers| && Shape(Apply(s, t)) && Held(Apply(s, t), w)
  {
    hide LeastOf, Covered, Settled;
    assert Held(s, w);
    if t.Finish? {
      assert Held(s, t.w);
    }
  }

  lemma StepKeepsHeld(s: Sys, t: Step)
    requires Inv(s) && Enabled(s, t)
    ensures Shape(Apply(s, t)) && |Apply(s, t).workers| == |s.workers|
    ensures forall w :: 0 <= w < |s.workers| ==> Held(Apply(s, t), w)
  {
    StepKeepsShape(s, t);
    hide Held, Inv, Apply, Enabled;
    forall w | 0 <= w < |s.workers|
      ensures Held(Apply(s, t), w)
    {
      if t.Take? {
        TakeKeepsHeld(s, t.w, t.lp, t.ts, w);
      } else {
        OtherStepsKeepHeld(s, t, w);
      }
    }
  }

  lemma StepKeepsShape(s: Sys, t: Step)
    requires Shape(s) && Enabled(s, t)
    ensures Shape(Apply(s, t)) && |Apply(s, t).workers| == |s.workers|
  {
    hide LeastOf;
  }

  lemma StepKeepsAttended(s: Sys, t: Step, i: nat)
    requires Inv(s) && Enabled(s, t) && i < |s.lps|
    ensures |Apply(s, t).lps| == |s.lps| && Attended(Apply(s, t), i)
  {
    hide LeastOf, Covered, Settled;
    var s' := Apply(s, t);
    assert Attended(s, i);
    var v :| ServedBy(s, v, s.lps[i].queue);
    assert ServedBy(s', v, s'.lps[i].queue);
    if s'.lps[i].busy {
      if s.lps[i].busy {
        var w :| HolderOf(s, w, i);
        assert HolderOf(s', w, i);
      } else {
        assert HolderOf(s', t.w, i);
      }
    }
  }

  /** If a step settles an LP, its unprocessed events are covered: those that were there by what the
      worker that stopped has reported, later ones by the report of their sender. */
  lemma TakeSettles(s: Sys, t: Step, i: nat, x: nat)
    requires Inv(s) && Enabled(s, t) && (t.Take? || t.TakeNothing?) && s.workers[t.w].stage.up
    requires i < |s.lps| && x in s.lps[i].pending && Settled(Apply(s, t), i)
    ensures Covered(Apply(s, t), x)
  {
    hide Covered;
    var s', w := Apply(s, t), t.w;
    assert Held(s, w);
    if Settled(s, i) {
      CoveredPersists(s, t, x);
    } else if t.Take? && t.lp == i {
      StoppedCovers(s', w, x);
    } else if s.lps[i].busy {
      assert Attended(s, i);
      var v :| HolderOf(s, v, i);
      assert Held(s, v);
      HolderIsStopped(s, t, v, i);
    } else {
      NewlyStopped(s, t, i);
      StoppedCovers(s', w, x);
    }
  }

  lemma StoppedCovers(s: Sys, w: nat, x: nat)
    requires Shape(s) && w < |s.workers| && IsStopped(s.workers[w]) && s.localMin[w] <= x
    ensures Covered(s, x)
  {
  }

  /** The holder of an LP that becomes settled had stopped before. */
  lemma HolderIsStopped(s: Sys, t: Step, v: nat, i: nat)
    requires Inv(s) && Enabled(s, t) && (t.Take? || t.TakeNothing?) && s.workers[t.w].stage.up
    requires i < |s.lps| && s.lps[i].busy && HolderOf(s, v, i) && Settled(Apply(s, t), i)
    ensures Settled(s, i)
  {
    hide Covered, LeastOf;
    var s' := Apply(s, t);
    assert Held(s, v) && v != t.w && s'.workers[v] == s.workers[v];
    assert AllStopped(s', s'.lps[i].queue) ==> IsStopped(s'.workers[v]);
    if u :| HolderOf(s', u, i) && IsStopped(s'.workers[u]) {
      assert u != t.w;
      assert HolderOf(s, u, i);
    }
  }

  /** An idle LP becomes settled when the last worker of its queue stops. */
  lemma NewlyStopped(s: Sys, t: Step, i: nat)
    requires Inv(s) && Enabled(s, t) && (t.Take? || t.TakeNothing?) && s.workers[t.w].stage.up
    requires i < |s.lps| && !s.lps[i].busy && !(t.Take? && t.lp == i)
    requires Settled(Apply(s, t), i) && !Settled(s, i)
    ensures s.workers[t.w].queue == s.lps[i].queue
  {
    hide Covered, LeastOf;
    var s' := Apply(s, t);
    forall u | 0 <= u < |s.workers|
      ensures !HolderOf(s', u, i)
    {
      assert Held(s, u);
    }
    var v :| 0 <= v < |s.workers| && s.workers[v].queue == s.lps[i].queue && !IsStopped(s.workers[v]);
    assert IsStopped(s'.workers[v]);
  }

  lemma StoppersStay(s: Sys, t: Step, i: nat)
    requires Inv(s) && Enabled(s, t) && i < |s.lps| && !t.Lower?
    requires (t.Take? || t.TakeNothing?) ==> !s.workers[t.w].stage.up
    requires i < |Apply(s, t).lps| && Settled(Apply(s, t), i)
    ensures Settled(s, i) && s.flag
  {
    hide LeastOf, Covered;
    var s' := Apply(s, t);
    assert forall w :: 0 <= w < |s.workers| ==> IsStopped(s'.workers[w]) == IsStopped(s.workers[w]) && s'.workers[w].queue == s.workers[w].queue;
    if u :| HolderOf(s', u, i) && IsStopped(s'.workers[u]) {
      assert HolderOf(s, u, i) && Held(s, u);
    } else {
      assert Attended(s, i);
      var v :| ServedBy(s, v, s.lps[i].queue);
      assert Held(s, v);
    }
  }

  /** No other step settles an LP, and what is added to a settled LP is reported by its sender. */
  lemma OtherStepsSettleNothing(s: Sys, t: Step, i: nat, x: nat)
    requires Inv(s) && Enabled(s, t) && i < |s.lps| && !t.Lower?
    requires (t.Take? || t.TakeNothing?) ==> !s.workers[t.w].stage.up
    requires i < |Apply(s, t).lps| && x in Apply(s, t).lps[i].pending && Settled(Apply(s, t), i)
    ensures Settled(s, i) && s.flag
    ensures x in s.lps[i].pending || (t.Insert? && t.ts == x) || (t.Arrive? && t.ts == x)
  {
    hide LeastOf, Covered;
    var s' := Apply(s, t);
    StoppersStay(s, t, i);
    if t.Requeue? || t.Finish? {
      assert Held(s, t.w);
    }
  }

  lemma NobodyStopsInLower(s: Sys, i: nat)
    requires Inv(s) && Enabled(s, Lower) && i < |s.lps|
    ensures !Settled(Apply(s, Lower), i)
  {
    hide Covered, LeastOf;
    var s' := Apply(s, Lower);
    assert Attended(s, i);
    var v :| ServedBy(s, v, s.lps[i].queue);
    assert !IsStopped(s'.workers[v]) && s'.workers[v].queue == s.lps[i].queue;
  }

  lemma StepKeepsCovered(s: Sys, t: Step, i: nat, x: nat)
    requires Inv(s) && Enabled(s, t) && i < |Apply(s, t).lps| == |s.lps| && Shape(Apply(s, t))
    requires x in Apply(s, t).lps[i].pending && Settled(Apply(s, t), i)
    ensures Covered(Apply(s, t), x)
  {
    hide LeastOf, Covered, Settled, Held;
    var s' := Apply(s, t);
    if t.Lower? {
      NobodyStopsInLower(s, i);
    } else if (t.Take? || t.TakeNothing?) && s.workers[t.w].stage.up {
      TakeSettles(s, t, i, x);
    } else {
      OtherStepsSettleNothing(s, t, i, x);
      if x in s.lps[i].pending {
        CoveredPersists(s, t, x);
      } else {
        NewIsCovered(s, t, x);
      }
    }
  }

  lemma NewIsCovered(s: Sys, t: Step, x: nat)
    requires Shape(s) && Enabled(s, t) && s.flag && ((t.Insert? && t.ts == x) || (t.Arrive? && t.ts == x))
    ensures Covered(Apply(s, t), x)
  {
    var s' := Apply(s, t);
    if t.Insert? {
      assert s'.workers[t.w].unreported == Holds(x);
    } else {
      assert s'.sendMin[|s.workers|] <= x;
    }
  }

  lemma StepKeepsInv(s: Sys, t: Step)
    requires Inv(s) && Enabled(s, t)
    ensures Inv(Apply(s, t))
  {
    hide LeastOf, Covered, Settled, Held, Attended, Apply;
    StepKeepsHeld(s, t);
    StepKeepsSizes(s, t);
    var s' := Apply(s, t);
    forall i | 0 <= i < |s'.lps|
      ensures Attended(s', i)
    {
      StepKeepsAttended(s, t, i);
    }
    forall i, x | 0 <= i < |s'.lps| && x in s'.lps[i].pending && Settled(s', i)
      ensures Covered(s', x)
    {
      StepKeepsCovered(s, t, i, x);
    }
  }

  lemma StepKeepsSizes(s: Sys, t: Step)
    requires Shape(s) && Enabled(s, t)
    ensures |Apply(s, t).lps| == |s.lps|
  {
  }

  lemma StartIsOk(s: Sys)
    requires Starts(s)
    ensures Inv(s)
  {
    forall i | 0 <= i < |s.lps|
      ensures !Settled(s, i)
    {
      var w :| ServedBy(s, w, s.lps[i].queue);
      assert !IsStopped(s.workers[w]);
    }
  }

  lemma {:induction false} RunKeepsInv(steps: seq<Step>, states: seq<Sys>)
    requires Run(steps, states)
    ensures Inv(states[|steps|])
    decreases |steps|
  {
    hide Starts, Inv, Apply, Enabled;
    if steps == [] {
      StartIsOk(states[0]);
    } else {
      var k := |steps| - 1;
      RunKeepsInv(steps[..k], states[..k + 1]);
      StepKeepsInv(states[k], steps[k]);
    }
  }

  /** What the manager thread computes from the arrays once all workers wait at the barrier. */
  function RoundMin(s: Sys): nat {
    Min(LocalMinimum.Least(s.localMin), LocalMinimum.Least(s.sendMin))
  }

  lemma RoundMinBounds(steps: seq<Step>, states: seq<Sys>, i: nat, x: nat)
    requires Run(steps, states) && i < |states[|steps|].lps| && x in states[|steps|].lps[i].pending
    requires forall w :: 0 <= w < |states[|steps|].workers| ==> IsStopped(states[|steps|].workers[w])
    ensures RoundMin(states[|steps|]) <= x
  {
    hide LocalMinimum.Least, Attended;
    RunKeepsInv(steps, states);
    var s := states[|steps|];
    assert Settled(s, i);
    forall w | 0 <= w < |s.workers|
      ensures s.workers[w].unreported == Nothing
    {
      assert Held(s, w);
    }
    assert Covered(s, x);
  }

  /** Once all workers wait at the barrier, the minimum of the round bounds every unprocessed event
      of the process, however workers share queues and whatever they did since the flag went up: the
      two minima are sound, which is what the processes together rely on. */
  lemma RoundMinIsSound(steps: seq<Step>, states: seq<Sys>, pending: set<nat>)
    requires Run(steps, states)
    requires forall w :: 0 <= w < |states[|steps|].workers| ==> IsStopped(states[|steps|].workers[w])
    requires forall x :: x in pending ==> exists i :: 0 <= i < |states[|steps|].lps| && x in states[|steps|].lps[i].pending
    ensures var s := states[|steps|];
            && (forall x :: x in pending ==> RoundMin(s) <= x)
            && SynchronousGvt.Sound(pending, LocalMinimum.Least(s.localMin), LocalMinimum.Least(s.sendMin))
  {
    hide LocalMinimum.Least, Enabled, Apply, Starts;
    var s := states[|steps|];
    forall x | x in pending
      ensures RoundMin(s) <= x
    {
      var i :| 0 <= i < |s.lps| && x in s.lps[i].pending;
      RoundMinBounds(steps, states, i, x);
    }
  }

  // ------------------------------------------------------------------------------------------
  // The other side
  // ------------------------------------------------------------------------------------------

  /** While the flag is up, nothing is reported or arrives that is before the given time. */
  predicate NotEarlier(s: Sys, t: Step, low: nat) {
    match t
    case Take(w, _, ts) => w < |s.workers| && s.workers[w].stage == FlagRead(true) ==> low <= ts
    case Report(w) => s.flag && w < |s.workers| && s.workers[w].unreported.Holds? ==> low <= s.workers[w].unreported.ts
    case Arrive(_, ts) => s.flag ==> low <= ts
    case _ => true
  }

  ghost predicate MinimaFrom(s: Sys, low: nat) {
    Shape(s) && forall w :: 0 <= w <= |s.workers| ==> low <= s.localMin[w] && low <= s.sendMin[w]
  }

  lemma StepKeepsMinima(s: Sys, t: Step, low: nat)
    requires Shape(s) && Enabled(s, t) && low <= UINT_MAX
    requires t == Lower || (MinimaFrom(s, low) && NotEarlier(s, t, low))
    ensures MinimaFrom(Apply(s, t), low)
  {
    hide LeastOf;
  }

  /** The minimum of a round is not too low either: it is at or after any time that nothing reported
      or received since the previous round ended, or since the arrays were filled with infinity, is
      before. */
  lemma {:induction false} RoundMinIsNotTooLow(steps: seq<Step>, states: seq<Sys>, low: nat)
    requires |states| == |steps| + 1 && low <= UINT_MAX
    requires forall k :: 0 <= k < |steps| ==>
               Shape(states[k]) && Enabled(states[k], steps[k]) && states[k + 1] == Apply(states[k], steps[k])
    requires if steps != [] && steps[0] == Lower then true
             else Shape(states[0]) && forall w :: 0 <= w <= |states[0].workers| ==> states[0].localMin[w] == UINT_MAX == states[0].sendMin[w]
    requires forall k :: 0 <= k < |steps| ==> NotEarlier(states[k], steps[k], low)
    ensures low <= RoundMin(states[|steps|])
    ensures MinimaFrom(states[|steps|], low)
    decreases |steps|
  {
    hide Enabled, NotEarlier;
    if steps != [] {
      hide Apply, LocalMinimum.Least;
      var n := |steps| - 1;
      if n > 0 {
        RoundMinIsNotTooLow(steps[..n], states[..n + 1], low);
      }
      StepKeepsMinima(states[n], steps[n], low);
      LeastIsFrom(states[|steps|].localMin, low);
      LeastIsFrom(states[|steps|].sendMin, low);
    }
  }

  lemma LeastIsFrom(mins: seq<nat>, low: nat)
    requires low <= UINT_MAX && forall w :: 0 <= w < |mins| ==> low <= mins[w]
    ensures low <= LocalMinimum.Least(mins)
  {
  }
}
