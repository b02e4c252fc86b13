/** The local part of the asynchronous GVT computation: the worker threads of one process report,
    each once and without stopping, and the least report bounds what the process still has to do. */
module LocalMinimum {
  import opened Events
  import Mattern

  /** The arrays and the flag; the last entry belongs to the manager thread. */
  datatype Reports = Reports(flag: nat, localMin: seq<nat>, sendMin: seq<nat>, done: seq<bool>)

  function Min(a: nat, b: nat): nat { if b < a then b else a }

  /** resetLocalState, and the flag is raised */
  function Reset(workers: nat): Reports {
    Reports(workers, seq(workers + 1, i => UINT_MAX), seq(workers + 1, i => UINT_MAX), seq(workers + 1, i => i == workers))
  }

  function ReportMin(r: Reports, ts: nat, id: nat, flagRead: nat): Reports
    requires id < |r.localMin| == |r.sendMin| == |r.done|
  {
    if flagRead > 0 && !r.done[id] then
      r.(localMin := r.localMin[id := Min(r.sendMin[id], ts)], done := r.done[id := true],
         flag := if r.flag > 0 then r.flag - 1 else UINT_MAX)
    else r
  }

  function ReportSend(r: Reports, ts: nat, id: nat): Reports
    requires id < |r.localMin| == |r.sendMin| == |r.done|
  {
    if r.flag > 0 && !r.done[id] then r.(sendMin := r.sendMin[id := Min(r.sendMin[id], ts)]) else r
  }

  /** The loop of progressGVT over local_min_. */
  function Least(mins: seq<nat>): (r: nat)
    ensures r <= UINT_MAX && forall i :: 0 <= i < |mins| ==> r <= mins[i]
    ensures r == UINT_MAX || r in mins
  {
    if mins == [] then UINT_MAX
    else
      var k := |mins| - 1;
      assert forall x :: x in mins[..k] ==> x in mins;
      Min(Least(mins[..k]), mins[k])
  }

  // ------------------------------------------------------------------------------------------
  // The process
  // ------------------------------------------------------------------------------------------

  /** An LP: its schedule queue, the times of its unprocessed events, and whether a worker holds it. */
  datatype Lp = Lp(queue: nat, pending: set<nat>, busy: bool)

  datatype Hand = Nothing | Holds(lp: nat, ts: nat)

  datatype Due = NoSend | SendOf(ts: nat)

  /** A worker: the queue it serves, the event it has in hand, and a send that it has yet to report. */
  datatype Worker = Worker(queue: nat, hand: Hand, due: Due)

  /** `got` holds the times of the events that other processes sent and that arrived since the
      computation began; `running` says that one has begun and its result is not yet read. */
  datatype Sys = Sys(lps: seq<Lp>, workers: seq<Worker>, reports: Reports, got: set<nat>, running: bool)

  datatype Step =
    | Begin
    | Take(w: nat, lp: nat, ts: nat)          // read the flag, get the least event, report
    | TakeNothing(w: nat)                     // the queue is empty: report infinity
    | Insert(w: nat, lp: nat, ts: nat)        // an event caused by the one in hand
    | SendAway(w: nat, ts: nat)               // one for another process
    | Report(w: nat)                          // reportThreadSendMin for either
    | Requeue(w: nat, undone: set<nat>)       // a rollback returns events to the LP's queue
    | Finish(w: nat, left: set<nat>)          // processed or annihilated; the LP is free again
    | Arrive(lp: nat, ts: nat)
    | End                                     // the flag is back at 0

  /** ts is at most every unprocessed event of the LPs that are scheduled in queue q. */
  ghost predicate LeastOf(s: Sys, q: nat, ts: nat) {
    forall i, x :: 0 <= i < |s.lps| && s.lps[i].queue == q && !s.lps[i].busy && x in s.lps[i].pending ==> ts <= x
  }

  ghost predicate Enabled(s: Sys, t: Step) {
    && (t.Take? || t.TakeNothing? || t.Insert? || t.SendAway? || t.Report? || t.Requeue? || t.Finish? ==>
          t.w < |s.workers|)
    && match t
       case Begin => !s.running
       case Take(w, i, ts) =>
         && s.workers[w].hand == Nothing && s.workers[w].due == NoSend
         && i < |s.lps| && s.lps[i].queue == s.workers[w].queue && !s.lps[i].busy
         && ts in s.lps[i].pending && LeastOf(s, s.workers[w].queue, ts)
       case TakeNothing(w) =>
         && s.workers[w].hand == Nothing && s.workers[w].due == NoSend
         && forall i :: 0 <= i < |s.lps| && s.lps[i].queue == s.workers[w].queue && !s.lps[i].busy ==> s.lps[i].pending == {}
       case Insert(w, i, ts) => i < |s.lps| && s.workers[w].due == NoSend
                                && s.workers[w].hand.Holds? && s.workers[w].hand.ts <= ts
       case SendAway(w, ts) => s.workers[w].due == NoSend && s.workers[w].hand.Holds? && s.workers[w].hand.ts <= ts
       case Report(w) => s.workers[w].due.SendOf?
       case Requeue(w, undone) => s.workers[w].hand.Holds? && s.workers[w].hand.lp < |s.lps|
                                  && forall x :: x in undone ==> s.workers[w].hand.ts <= x
       case Finish(w, left) => s.workers[w].hand.Holds? && s.workers[w].due == NoSend
                               && s.workers[w].hand.lp < |s.lps| && left <= s.lps[s.workers[w].hand.lp].pending
       case Arrive(i, ts) => i < |s.lps|
       case End => s.running && s.reports.flag == 0
  }

  ghost predicate Shape(s: Sys) {
    |s.reports.localMin| == |s.reports.sendMin| == |s.reports.done| == |s.workers| + 1
  }

  function Added(s: Sys, i: nat, more: set<nat>): Sys
    requires i < |s.lps|
  {
    s.(lps := s.lps[i := s.lps[i].(pending := s.lps[i].pending + more)])
  }

  function Apply(s: Sys, t: Step): Sys
    requires Shape(s) && Enabled(s, t)
  {
    match t
    case Begin => s.(reports := Reset(|s.workers|), got := {}, running := true)
    case Take(w, i, ts) =>
      s.(workers := s.workers[w := s.workers[w].(hand := Holds(i, ts))],
         lps := s.lps[i := s.lps[i].(busy := true)],
         reports := ReportMin(s.reports, ts, w, s.reports.flag))
    case TakeNothing(w) => s.(reports := ReportMin(s.reports, UINT_MAX, w, s.reports.flag))
    case Insert(w, i, ts) => Added(s, i, {ts}).(workers := s.workers[w := s.workers[w].(due := SendOf(ts))])
    case SendAway(w, ts) => s.(workers := s.workers[w := s.workers[w].(due := SendOf(ts))])
    case Report(w) =>
      s.(workers := s.workers[w := s.workers[w].(due := NoSend)],
         reports := ReportSend(s.reports, s.workers[w].due.ts, w))
    case Requeue(w, undone) => Added(s, s.workers[w].hand.lp, undone)
    case Finish(w, left) =>
      var i := s.workers[w].hand.lp;
      s.(lps := s.lps[i := s.lps[i].(pending := left, busy := false)],
         workers := s.workers[w := s.workers[w].(hand := Nothing)])
    case Arrive(i, ts) => Added(s, i, {ts}).(got := s.got + {ts})
    case End => s.(running := false)
  }

  ghost predicate ServedBy(s: Sys, w: int, q: nat) {
    0 <= w < |s.workers| && s.workers[w].queue == q
  }

  /** No computation has begun, and every LP's queue is served. */
  ghost predicate Starts(s: Sys) {
    && Shape(s) && !s.running && s.reports.flag == 0
    && (forall w :: 0 <= w < |s.workers| ==> s.workers[w].hand == Nothing && s.workers[w].due == NoSend)
    && (forall i :: 0 <= i < |s.lps| ==> !s.lps[i].busy && exists w :: ServedBy(s, w, s.lps[i].queue))
  }

  ghost predicate Next(s: Sys, t: Step, s': Sys) {
    Shape(s) && Enabled(s, t) && s' == Apply(s, t)
  }

  ghost predicate Reaches(steps: seq<Step>, s: Sys) {
    if steps == [] then Starts(s)
    else
      var before, last := steps[..|steps| - 1], steps[|steps| - 1];
      exists r :: Reaches(before, r) && Next(r, last, s)
  }

  ghost predicate Reachable(s: Sys) {
    exists steps :: Reaches(steps, s)
  }

  /** The queue that each LP is mapped to, and the one that each worker serves: no step changes them. */
  datatype Config = Config(lps: seq<nat>, workers: seq<nat>)

  function ConfigOf(s: Sys): Config {
    Config(seq(|s.lps|, i requires 0 <= i < |s.lps| => s.lps[i].queue),
           seq(|s.workers|, w requires 0 <= w < |s.workers| => s.workers[w].queue))
  }

  predicate IsServed(c: Config) {
    forall q :: q in c.lps ==> q in c.workers
  }

  /** No two workers serve a queue that some LP is mapped to. */
  predicate OwnQueues(c: Config) {
    forall v, w :: 0 <= v < w < |c.workers| && c.workers[v] == c.workers[w] ==> c.workers[v] !in c.lps
  }

  // ------------------------------------------------------------------------------------------
  // The invariant
  // ------------------------------------------------------------------------------------------

  function Waiting(done: seq<bool>): (c: nat)
    ensures c == 0 <==> forall w :: 0 <= w < |done| ==> done[w]
  {
    if done == [] then 0 else (if done[0] then 0 else 1) + Waiting(done[1..])
  }

  lemma {:induction false} WaitingAfter(done: seq<bool>, w: nat)
    requires w < |done| && !done[w]
    ensures Waiting(done[w := true]) == Waiting(done) - 1
  {
    if w == 0 {
      assert done[0 := true][1..] == done[1..];
    } else {
      WaitingAfter(done[1..], w - 1);
      assert done[w := true][1..] == done[1..][w - 1 := true];
    }
  }

  lemma {:induction false} AllWait(workers: nat, k: nat)
    requires k <= workers
    ensures Waiting(seq(workers + 1, i => i == workers)[k..]) == workers - k
    decreases workers - k
  {
    var done := seq(workers + 1, i => i == workers);
    if k == workers {
      assert done[k..] == [true] && [true][1..] == [];
    } else {
      AllWait(workers, k + 1);
      assert done[k..][1..] == done[k + 1..];
    }
  }

  /** Something that has been reported, will be, or came from outside is at most x. */
  ghost predicate Covered(s: Sys, x: nat)
    requires Shape(s)
  {
    || (exists w :: 0 <= w < |s.workers| && s.reports.done[w] && s.reports.localMin[w] <= x)
    || (exists w :: 0 <= w < |s.workers| && !s.reports.done[w] &&
          (s.reports.sendMin[w] <= x || (s.workers[w].due.SendOf? && s.workers[w].due.ts <= x)))
    || (exists y :: y in s.got && y <= x)
  }

  ghost predicate HolderOf(s: Sys, w: int, i: nat) {
    0 <= w < |s.workers| && s.workers[w].hand.Holds? && s.workers[w].hand.lp == i
  }

  /** A busy LP is held by a worker of its queue. */
  ghost predicate LpOk(s: Sys, i: nat)
    requires i < |s.lps|
  {
    && (s.lps[i].busy ==> exists w :: HolderOf(s, w, i))
    && (exists w :: ServedBy(s, w, s.lps[i].queue))
  }

  ghost predicate WorkerOk(s: Sys, w: nat)
    requires w < |s.workers|
  {
    var d := s.workers[w].hand;
    d.Holds? ==> d.lp < |s.lps| && s.lps[d.lp].busy && s.lps[d.lp].queue == s.workers[w].queue && d.ts in s.lps[d.lp].pending
  }

  /** Events of an LP whose worker has reported are covered. */
  ghost predicate ReportedOk(s: Sys, w: nat, i: nat)
    requires Shape(s) && w < |s.workers| && i < |s.lps|
  {
    s.workers[w].queue == s.lps[i].queue && s.reports.done[w] ==> forall x :: x in s.lps[i].pending ==> Covered(s, x)
  }

  ghost predicate Inv(s: Sys) {
    && Shape(s) && OwnQueues(ConfigOf(s))
    && (forall w :: 0 <= w < |s.workers| ==> WorkerOk(s, w))
    && (forall i :: 0 <= i < |s.lps| ==> LpOk(s, i))
    && (s.running ==>
          && s.reports.flag == Waiting(s.reports.done) && s.reports.done[|s.workers|]
          && forall w, i :: 0 <= w < |s.workers| && 0 <= i < |s.lps| ==> ReportedOk(s, w, i))
    && (!s.running ==> s.reports.flag == 0)
  }

  lemma FlagIsUp(s: Sys, w: nat)
    requires Inv(s) && s.running && w < |s.workers| && !s.reports.done[w]
    ensures s.reports.flag > 0
  {
    hide ReportedOk, WorkerOk, LpOk;
  }

  lemma CoveredIsUpward(s: Sys, x: nat, y: nat)
    requires Shape(s) && Covered(s, x) && x <= y
    ensures Covered(s, y)
  {
  }

  lemma StepKeepsShape(s: Sys, t: Step)
    requires Shape(s) && Enabled(s, t)
    ensures var s' := Apply(s, t);
            && Shape(s') && |s'.workers| == |s.workers| && |s'.lps| == |s.lps| && ConfigOf(s') == ConfigOf(s)
            && (forall i :: 0 <= i < |s.lps| ==> s'.lps[i].queue == s.lps[i].queue)
  {
    hide LeastOf;
  }

  lemma CoveredPersists(s: Sys, t: Step, x: nat)
    requires Inv(s) && Enabled(s, t) && s.running && !t.End? && Covered(s, x) && Shape(Apply(s, t))
    ensures Covered(Apply(s, t), x)
  {
    var s' := Apply(s, t);
    StepKeepsShape(s, t);
    if w :| 0 <= w < |s.workers| && s.reports.done[w] && s.reports.localMin[w] <= x {
      ReportStays(s, t, w);
    } else if w :| 0 <= w < |s.workers| && !s.reports.done[w] && s.reports.sendMin[w] <= x {
      SendMinStays(s, t, w, x);
    } else if w :| 0 <= w < |s.workers| && !s.reports.done[w] && s.workers[w].due.SendOf? && s.workers[w].due.ts <= x {
      FlagIsUp(s, w);
      SendWillBeReported(s, t, w, x);
    }
  }

  lemma ReportStays(s: Sys, t: Step, w: nat)
    requires Shape(s) && Enabled(s, t) && s.running && !t.End? && w < |s.workers| && s.reports.done[w]
    ensures var r := Apply(s, t).reports; w < |r.done| == |r.localMin| && r.done[w] && r.localMin[w] == s.reports.localMin[w]
  {
    hide LeastOf;
  }

  lemma SendMinStays(s: Sys, t: Step, w: nat, x: nat)
    requires Shape(s) && Enabled(s, t) && s.running && !t.End? && w < |s.workers| == |Apply(s, t).workers|
    requires !s.reports.done[w] && s.reports.sendMin[w] <= x && Shape(Apply(s, t))
    ensures Covered(Apply(s, t), x)
  {
    hide LeastOf;
    var s' := Apply(s, t);
    assert if s'.reports.done[w] then s'.reports.localMin[w] <= x else s'.reports.sendMin[w] <= x;
  }

  lemma SendWillBeReported(s: Sys, t: Step, w: nat, x: nat)
    requires Shape(s) && Enabled(s, t) && s.running && !t.End? && w < |s.workers| == |Apply(s, t).workers|
    requires !s.reports.done[w] && s.workers[w].due.SendOf? && s.workers[w].due.ts <= x && s.reports.flag > 0
    requires Shape(Apply(s, t))
    ensures Covered(Apply(s, t), x)
  {
    hide LeastOf;
    var s' := Apply(s, t);
    assert !s'.reports.done[w];
    assert s'.reports.sendMin[w] <= x || (s'.workers[w].due.SendOf? && s'.workers[w].due.ts <= x);
  }

  lemma StepKeepsWorkers(s: Sys, t: Step, w: nat)
    requires Inv(s) && Enabled(s, t) && w < |s.workers| == |Apply(s, t).workers|
    ensures WorkerOk(Apply(s, t), w)
  {
    hide LeastOf, ReportedOk, LpOk, OwnQueues, ConfigOf;
    assert WorkerOk(s, w);
    if t.Finish? {
      assert WorkerOk(s, t.w);
      if w != t.w && s.workers[w].hand.Holds? && s.workers[w].hand.lp == s.workers[t.w].hand.lp {
        OwnServer(s, w, t.w, s.workers[w].hand.lp);
      }
    }
  }

  lemma StepKeepsLps(s: Sys, t: Step, i: nat)
    requires Inv(s) && Enabled(s, t) && i < |s.lps| == |Apply(s, t).lps|
    ensures LpOk(Apply(s, t), i)
  {
    hide LeastOf, ReportedOk, WorkerOk;
    var s' := Apply(s, t);
    assert LpOk(s, i);
    var v :| ServedBy(s, v, s.lps[i].queue);
    assert ServedBy(s', v, s'.lps[i].queue);
    if s'.lps[i].busy {
      if s.lps[i].busy {
        var w :| HolderOf(s, w, i);
        assert HolderOf(s', w, i);
      } else {
        assert HolderOf(s', t.w, i);
      }
    }
  }

  lemma OwnServer(s: Sys, v: nat, w: nat, i: nat)
    requires OwnQueues(ConfigOf(s)) && v < |s.workers| && w < |s.workers| && i < |s.lps|
    requires s.workers[v].queue == s.lps[i].queue == s.workers[w].queue
    ensures v == w
  {
    var c := ConfigOf(s);
    assert c.lps[i] in c.lps && c.workers[v] == c.workers[w] == c.lps[i];
  }

  /** The LPs of a queue are idle while its one worker has nothing in hand. */
  lemma QueueIsIdle(s: Sys, w: nat, i: nat)
    requires Inv(s) && w < |s.workers| && s.workers[w].hand == Nothing
    requires i < |s.lps| && s.lps[i].queue == s.workers[w].queue
    ensures !s.lps[i].busy
  {
    hide ReportedOk, OwnQueues, ConfigOf;
    assert LpOk(s, i);
    forall v: nat | v < |s.workers|
      ensures !HolderOf(s, v, i)
    {
      assert WorkerOk(s, v);
      if HolderOf(s, v, i) {
        OwnServer(s, v, w, i);
      }
    }
  }

  /** A worker that reports as it takes its queue's least event, or finds none, reports a bound for
      all LPs of the queue: nobody else could hold one of them. */
  lemma TakeKeepsReported(s: Sys, t: Step, i: nat, x: nat)
    requires Inv(s) && Enabled(s, t) && (t.Take? || t.TakeNothing?) && s.running && !s.reports.done[t.w]
    requires i < |s.lps| && s.lps[i].queue == s.workers[t.w].queue && x in s.lps[i].pending && Shape(Apply(s, t))
    ensures t.w < |Apply(s, t).workers| && Covered(Apply(s, t), x)
  {
    FlagIsUp(s, t.w);
    QueueIsIdle(s, t.w, i);
    var s' := Apply(s, t);
    assert s'.reports.done[t.w] && s'.reports.localMin[t.w] <= x;
  }

  /** What a worker adds is covered if the event in its hand is, or by its own coming report. */
  lemma AddedIsCovered(s: Sys, t: Step, x: nat)
    requires Inv(s) && Enabled(s, t) && s.running && Shape(Apply(s, t)) && |Apply(s, t).workers| == |s.workers|
    requires (t.Insert? && x == t.ts) || (t.Requeue? && x in t.undone && s.reports.done[t.w]) || (t.Arrive? && x == t.ts)
    ensures Covered(Apply(s, t), x)
  {
    hide LeastOf, LpOk;
    var s' := Apply(s, t);
    if t.Arrive? {
      assert x in s'.got;
    } else if s.reports.done[t.w] {
      var d := s.workers[t.w].hand;
      assert WorkerOk(s, t.w) && ReportedOk(s, t.w, d.lp);
      CoveredPersists(s, t, d.ts);
      CoveredIsUpward(s', d.ts, x);
    } else {
      assert !s'.reports.done[t.w] && s'.workers[t.w].due == SendOf(x);
    }
  }

  lemma StepKeepsReported(s: Sys, t: Step, w: nat, i: nat, x: nat)
    requires Inv(s) && Enabled(s, t) && s.running && !t.End?
    requires var s' := Apply(s, t);
             && Shape(s') && w < |s.workers| == |s'.workers| && i < |s.lps| == |s'.lps|
             && s'.workers[w].queue == s'.lps[i].queue && s'.reports.done[w] && x in s'.lps[i].pending
    ensures Covered(Apply(s, t), x)
  {
    StepKeepsShape(s, t);
    hide LeastOf, LpOk, Covered, OwnQueues, ConfigOf;
    if !s.reports.done[w] {
      TakeKeepsReported(s, t, i, x);
    } else {
      assert ReportedOk(s, w, i);
      if x in s.lps[i].pending {
        CoveredPersists(s, t, x);
      } else {
        assert WorkerOk(s, w);
        if t.Requeue? {
          assert WorkerOk(s, t.w);
          OwnServer(s, w, t.w, i);
        }
        AddedIsCovered(s, t, x);
      }
    }
  }

  lemma StepKeepsFlag(s: Sys, t: Step)
    requires Inv(s) && Enabled(s, t)
    ensures var s' := Apply(s, t);
            && Shape(s') && |s'.workers| == |s.workers|
            && (s'.running ==> s'.reports.flag == Waiting(s'.reports.done) && s'.reports.done[|s'.workers|])
            && (!s'.running ==> s'.reports.flag == 0)
  {
    StepKeepsShape(s, t);
    hide LeastOf, LpOk, ReportedOk, WorkerOk;
    if t.Begin? {
      AllWait(|s.workers|, 0);
      var done := Apply(s, t).reports.done;
      assert done[0..] == done;
    } else if (t.Take? || t.TakeNothing?) && s.running && !s.reports.done[t.w] {
      FlagIsUp(s, t.w);
      WaitingAfter(s.reports.done, t.w);
    }
  }

  lemma StepKeepsInv(s: Sys, t: Step)
    requires Inv(s) && Enabled(s, t)
    ensures Inv(Apply(s, t))
  {
    StepKeepsShape(s, t);
    StepKeepsFlag(s, t);
    RunningStays(s, t);
    var s' := Apply(s, t);
    hide LeastOf, LpOk, WorkerOk, Covered, Waiting, Apply, OwnQueues;
    forall w | 0 <= w < |s'.workers|
      ensures WorkerOk(s', w)
    {
      StepKeepsWorkers(s, t, w);
    }
    forall i | 0 <= i < |s'.lps|
      ensures LpOk(s', i)
    {
      StepKeepsLps(s, t, i);
    }
    forall w, i | s'.running && 0 <= w < |s'.workers| && 0 <= i < |s'.lps|
      ensures ReportedOk(s', w, i)
    {
      if !t.Begin? && s'.workers[w].queue == s'.lps[i].queue && s'.reports.done[w] {
        forall x | x in s'.lps[i].pending
          ensures Covered(s', x)
        {
          StepKeepsReported(s, t, w, i, x);
        }
      }
    }
  }

  lemma RunningStays(s: Sys, t: Step)
    requires Shape(s) && Enabled(s, t)
    ensures Apply(s, t).running ==> t.Begin? || (s.running && !t.End?)
    ensures t.Begin? ==> forall w :: 0 <= w < |s.workers| ==> w < |Apply(s, t).reports.done| && !Apply(s, t).reports.done[w]
  {
  }

  lemma {:induction false} RunKeepsInv(steps: seq<Step>, s: Sys)
    requires Reaches(steps, s) && OwnQueues(ConfigOf(s))
    ensures Inv(s)
    decreases |steps|
  {
    if steps != [] {
      var before, t := steps[..|steps| - 1], steps[|steps| - 1];
      var r :| Reaches(before, r) && Next(r, t, s);
      StepKeepsShape(r, t);
      hide Inv, OwnQueues, Enabled, Apply;
      RunKeepsInv(before, r);
      StepKeepsInv(r, t);
    }
  }

  // ------------------------------------------------------------------------------------------
  // Theorems
  // ------------------------------------------------------------------------------------------

  /** x is unprocessed somewhere in the process. */
  ghost predicate Pending(s: Sys, x: nat) {
    exists i :: 0 <= i < |s.lps| && x in s.lps[i].pending
  }

  /** The least report bounds every unprocessed event of the process, except for the consequences of
      what has arrived from other processes since the computation began. */
  ghost predicate SoundReport(s: Sys) {
    forall x :: Pending(s, x) ==> Least(s.reports.localMin) <= x || exists y :: y in s.got && y <= x
  }

  /** Whenever the flag is back at 0, every worker has reported once; and if no two workers serve a
      queue that holds LPs, the least report is sound. */
  lemma LocalMinimumIsSound(s: Sys)
    requires Reachable(s) && OwnQueues(ConfigOf(s)) && Enabled(s, End)
    ensures SoundReport(s) && Least(s.reports.localMin) <= UINT_MAX
    ensures Shape(s) && forall w :: 0 <= w < |s.workers| ==> s.reports.done[w]
  {
    var steps :| Reaches(steps, s);
    RunKeepsInv(steps, s);
    forall x | Pending(s, x)
      ensures Least(s.reports.localMin) <= x || exists y :: y in s.got && y <= x
    {
      var i :| 0 <= i < |s.lps| && x in s.lps[i].pending;
      assert LpOk(s, i);
      var w :| ServedBy(s, w, s.lps[i].queue);
      assert s.reports.done[w] && ReportedOk(s, w, i);
    }
  }

  /** This is what Mattern's algorithm needs of a process. */
  lemma LocalMinimumServesMattern(s: Sys, d: Mattern.Node)
    requires Reachable(s) && OwnQueues(ConfigOf(s)) && Enabled(s, End)
    requires d.got == s.got && forall x :: x in d.pending ==> Pending(s, x)
    ensures Mattern.Sound(d, Least(s.reports.localMin)) && Least(s.reports.localMin) <= UINT_MAX
  {
    LocalMinimumIsSound(s);
  }

  lemma Follow(s: Sys, t: Step)
    requires Reachable(s) && Shape(s) && Enabled(s, t)
    ensures Reachable(Apply(s, t))
  {
    var steps :| Reaches(steps, s);
    assert (steps + [t])[..|steps + [t]| - 1] == steps;
    hide Enabled, Apply, Starts;
    assert Next(s, t, Apply(s, t));
    assert Reaches(steps + [t], Apply(s, t));
  }

  // ------------------------------------------------------------------------------------------
  // Shared queues
  // ------------------------------------------------------------------------------------------

  /** Nothing is unprocessed but the events of LP i. */
  ghost predicate OnlyAt(lps: seq<Lp>, i: nat, pending: set<nat>, busy: bool) {
    && i < |lps| && lps[i].pending == pending && lps[i].busy == busy
    && forall k :: 0 <= k < |lps| && k != i ==> lps[k].pending == {} && !lps[k].busy
  }

  ghost predicate IsIdle(x: Worker) { x.hand == Nothing && x.due == NoSend }

  /** LP i has a single event, for time 20. */
  lemma OneEvent(c: Config, i: nat) returns (s: Sys)
    requires IsServed(c) && i < |c.lps|
    ensures Reachable(s) && ConfigOf(s) == c && Shape(s) && !s.running && s.reports.flag == 0
    ensures OnlyAt(s.lps, i, {20}, false) && forall w :: 0 <= w < |s.workers| ==> IsIdle(s.workers[w])
  {
    var n := |c.workers|;
    var none := seq(n + 1, k => 0);
    s := Sys(seq(|c.lps|, k requires 0 <= k < |c.lps| => Lp(c.lps[k], if k == i then {20} else {}, false)),
             seq(n, w requires 0 <= w < n => Worker(c.workers[w], Nothing, NoSend)),
             Reports(0, none, none, seq(n + 1, k => false)), {}, false);
    forall k | 0 <= k < |s.lps|
      ensures exists w :: ServedBy(s, w, s.lps[k].queue)
    {
      assert c.lps[k] in c.workers;
      var w :| 0 <= w < n && c.workers[w] == c.lps[k];
      assert ServedBy(s, w, s.lps[k].queue);
    }
    assert ConfigOf(s) == c;
    var start: seq<Step> := [];
    assert Reaches(start, s);
  }

  /** Worker w holds it when an event for time 5 arrives; then a computation begins. */
  lemma EarlierEvent(c: Config, w: nat, i: nat) returns (s: Sys)
    requires IsServed(c) && i < |c.lps| && w < |c.workers| && c.workers[w] == c.lps[i]
    ensures Reachable(s) && ConfigOf(s) == c && Shape(s) && s.running && s.got == {}
    ensures OnlyAt(s.lps, i, {5, 20}, true) && s.workers[w].hand == Holds(i, 20) && s.workers[w].due == NoSend
    ensures forall u :: 0 <= u < |s.workers| && u != w ==> IsIdle(s.workers[u])
    ensures s.reports == Reset(|s.workers|)
  {
    s := OneEvent(c, i);
    assert s.lps[i].queue == ConfigOf(s).lps[i] && s.workers[w].queue == ConfigOf(s).workers[w];
    hide Reachable;
    FollowIn(s, Take(w, i, 20));
    s := Apply(s, Take(w, i, 20));
    FollowIn(s, Arrive(i, 5));
    s := Apply(s, Arrive(i, 5));
    assert {20} + {5} == {5, 20};
    FollowIn(s, Begin);
    s := Apply(s, Begin);
  }

  lemma FollowIn(s: Sys, t: Step)
    requires Reachable(s) && Shape(s) && Enabled(s, t)
    ensures Reachable(Apply(s, t)) && Shape(Apply(s, t)) && ConfigOf(Apply(s, t)) == ConfigOf(s)
  {
    Follow(s, t);
    StepKeepsShape(s, t);
  }

  /** Worker v finds its queue empty and reports so; worker w lets go of the LP, and v takes the event
      for time 5 without reporting again. */
  lemma TakenUnreported(c: Config, v: nat, w: nat, i: nat) returns (s: Sys)
    requires IsServed(c) && i < |c.lps| && v < |c.workers| && w < |c.workers| && v != w
    requires c.workers[v] == c.workers[w] == c.lps[i]
    ensures Reachable(s) && ConfigOf(s) == c && Shape(s) && s.running && s.got == {}
    ensures OnlyAt(s.lps, i, {5}, true)
    ensures forall u :: 0 <= u < |s.workers| && u != v ==> IsIdle(s.workers[u])
    ensures s.reports == ReportMin(Reset(|s.workers|), UINT_MAX, v, |s.workers|)
  {
    s := EarlierEvent(c, w, i);
    assert s.lps[i].queue == ConfigOf(s).lps[i] && s.workers[v].queue == ConfigOf(s).workers[v];
    hide Reachable;
    FollowIn(s, TakeNothing(v));
    s := Apply(s, TakeNothing(v));
    FollowIn(s, Finish(w, {5}));
    s := Apply(s, Finish(w, {5}));
    FollowIn(s, Take(v, i, 5));
    s := Apply(s, Take(v, i, 5));
  }

  /** Worker v has in hand the event for time 5, and nobody who has reported reported a bound for it. */
  ghost predicate Unreported(c: Config, s: Sys, v: nat, i: nat) {
    && Shape(s) && ConfigOf(s) == c && s.running && s.got == {} && v < |s.workers|
    && OnlyAt(s.lps, i, {5}, true)
    && (forall u :: 0 <= u < |s.workers| && u != v ==> IsIdle(s.workers[u]))
    && s.reports.flag == Waiting(s.reports.done) && s.reports.done[v] && s.reports.done[|s.workers|]
    && forall u :: 0 <= u <= |s.workers| ==> s.reports.localMin[u] == UINT_MAX == s.reports.sendMin[u]
  }

  lemma OnlyVHasReported(c: Config, v: nat, w: nat, i: nat) returns (s: Sys)
    requires IsServed(c) && i < |c.lps| && v < |c.workers| && w < |c.workers| && v != w
    requires c.workers[v] == c.workers[w] == c.lps[i]
    ensures Reachable(s) && Unreported(c, s, v, i)
  {
    s := TakenUnreported(c, v, w, i);
    hide Reachable, Waiting;
    var n := |s.workers|;
    AllWait(n, 0);
    var all := seq(n + 1, k => k == n);
    assert all[0..] == all;
    WaitingAfter(all, v);
  }

  lemma OtherReportsNothing(c: Config, s: Sys, v: nat, i: nat, u: nat) returns (s': Sys)
    requires Reachable(s) && Unreported(c, s, v, i) && u < |s.workers|
    ensures Reachable(s') && Unreported(c, s', v, i) && |s'.workers| == |s.workers| && s'.reports.done[u]
    ensures forall k :: 0 <= k <= |s.workers| && s.reports.done[k] ==> s'.reports.done[k]
  {
    s' := s;
    if !s.reports.done[u] {
      WaitingAfter(s.reports.done, u);
      assert s.reports.flag > 0;
      hide Reachable, Waiting, ConfigOf, Shape;
      assert Shape(s) && Enabled(s, TakeNothing(u));
      FollowIn(s, TakeNothing(u));
      s' := Apply(s, TakeNothing(u));
    }
  }

  /** All other workers then find nothing, and the least report is infinity. */
  lemma SharedQueueIsUnsound(c: Config, v: nat, w: nat, i: nat) returns (s: Sys)
    requires IsServed(c) && i < |c.lps| && v < |c.workers| && w < |c.workers| && v != w
    requires c.workers[v] == c.workers[w] == c.lps[i]
    ensures Reachable(s) && ConfigOf(s) == c && Enabled(s, End) && !SoundReport(s)
  {
    hide *;
    s := OnlyVHasReported(c, v, w, i);
    HasShape(c, s, v, i);
    var n := |s.workers|;
    var u := 0;
    while u < n
      invariant u <= n && Reachable(s) && Unreported(c, s, v, i) && |s.workers| == n == |s.reports.done| - 1
      invariant forall k :: 0 <= k < u ==> s.reports.done[k]
    {
      s := OtherReportsNothing(c, s, v, i, u);
      HasShape(c, s, v, i);
      u := u + 1;
    }
    AllNothing(c, s, v, i);
  }

  lemma HasShape(c: Config, s: Sys, v: nat, i: nat)
    requires Unreported(c, s, v, i)
    ensures |s.reports.done| == |s.workers| + 1
  {
  }

  lemma AllNothing(c: Config, s: Sys, v: nat, i: nat)
    requires Unreported(c, s, v, i) && forall u :: 0 <= u < |s.workers| ==> s.reports.done[u]
    ensures ConfigOf(s) == c && Enabled(s, End) && !SoundReport(s)
  {
    NothingReported(s.reports.localMin);
    assert 5 in s.lps[i].pending && Pending(s, 5);
  }

  lemma NothingReported(mins: seq<nat>)
    requires forall k :: 0 <= k < |mins| ==> mins[k] == UINT_MAX
    ensures Least(mins) == UINT_MAX
  {
  }

  /** No run with these queues ends a computation with a wrong report. */
  ghost predicate AlwaysSound(c: Config) {
    forall s :: Reachable(s) && ConfigOf(s) == c && Enabled(s, End) ==> SoundReport(s)
  }

  /** The exact condition on the queues. */
  lemma SoundExactlyForOwnQueues(c: Config)
    requires IsServed(c)
    ensures AlwaysSound(c) <==> OwnQueues(c)
  {
    if OwnQueues(c) {
      forall s | Reachable(s) && ConfigOf(s) == c && Enabled(s, End)
        ensures SoundReport(s)
      {
        LocalMinimumIsSound(s);
      }
    } else {
      var v, w :| 0 <= v < w < |c.workers| && c.workers[v] == c.workers[w] && c.workers[v] in c.lps;
      var i :| 0 <= i < |c.lps| && c.lps[i] == c.workers[v];
      var s := SharedQueueIsUnsound(c, v, w, i);
    }
  }

  lemma Multiples(k: nat, d: int)
    requires k * d > 0
    ensures k * d >= k
  {
    if d > 1 {
      assert k * d == k + k * (d - 1) && k * (d - 1) >= 0;
    }
  }

  lemma SameRemainder(v: nat, w: nat, k: nat)
    requires k > 0 && v < w && v % k == w % k
    ensures v % k + k <= w
  {
    assert v == k * (v / k) + v % k && w == k * (w / k) + w % k;
    Multiples(k, w / k - v / k);
    assert k * (w / k - v / k) == w - v;
  }

  lemma SmallRemainder(q: nat, k: nat)
    requires q < k
    ensures q % k == q == (q + k) % k
  {
  }

  /** initialize maps thread w to queue w % schedulers: the report is then sound in all runs exactly if
      no LP is in a queue that the threads come round to a second time. */
  lemma SoundExactlyForFewThreads(c: Config, schedulers: nat)
    requires schedulers > 0 && IsServed(c)
    requires forall w :: 0 <= w < |c.workers| ==> c.workers[w] == w % schedulers
    ensures AlwaysSound(c) <==> forall q :: q in c.lps ==> |c.workers| <= q + schedulers
  {
    SoundExactlyForOwnQueues(c);
    hide AlwaysSound;
    forall v, w | 0 <= v < w < |c.workers| && c.workers[v] == c.workers[w]
      ensures c.workers[v] + schedulers <= w
    {
      SameRemainder(v, w, schedulers);
    }
    forall q | q in c.lps && q + schedulers < |c.workers|
      ensures !OwnQueues(c)
    {
      var w :| 0 <= w < |c.workers| && c.workers[w] == q;
      SmallRemainder(q, schedulers);
      assert c.workers[q] == c.workers[q + schedulers] == q;
    }
  }

  // ------------------------------------------------------------------------------------------
  // The other side
  // ------------------------------------------------------------------------------------------

  /** Neither an event taken nor a send reported is before the given time. */
  predicate NotEarlier(s: Sys, t: Step, low: nat) {
    match t
    case Take(_, _, ts) => low <= ts
    case Report(w) => w < |s.workers| && s.workers[w].due.SendOf? ==> low <= s.workers[w].due.ts
    case _ => true
  }

  ghost predicate MinimaFrom(s: Sys, low: nat) {
    Shape(s) && forall w :: 0 <= w <= |s.workers| ==> low <= s.reports.localMin[w] && low <= s.reports.sendMin[w]
  }

  lemma StepKeepsMinima(s: Sys, t: Step, low: nat)
    requires Shape(s) && Enabled(s, t) && low <= UINT_MAX
    requires t == Begin || (MinimaFrom(s, low) && NotEarlier(s, t, low))
    ensures MinimaFrom(Apply(s, t), low)
  {
    hide LeastOf;
  }

  /** The least report is not too low either: from the beginning of a computation on, it is at or
      after any time that no event taken and no send reported is before. */
  lemma {:induction false} LeastReportIsNotTooLow(steps: seq<Step>, states: seq<Sys>, low: nat)
    requires |states| == |steps| + 1 && steps != [] && steps[0] == Begin && low <= UINT_MAX
    requires forall k :: 0 <= k < |steps| ==> Next(states[k], steps[k], states[k + 1])
    requires forall k :: 0 < k < |steps| ==> NotEarlier(states[k], steps[k], low)
    ensures Shape(states[|steps|]) && low <= Least(states[|steps|].reports.localMin)
    ensures MinimaFrom(states[|steps|], low)
    decreases |steps|
  {
    hide Enabled, NotEarlier;
    var n := |steps| - 1;
    assert Next(states[n], steps[n], states[n + 1]);
    if n > 0 {
      hide Apply, Least;
      LeastReportIsNotTooLow(steps[..n], states[..n + 1], low);
    }
    StepKeepsMinima(states[n], steps[n], low);
  }
}
