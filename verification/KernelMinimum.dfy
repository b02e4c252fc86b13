/** What the local GVT computation assumes of the worker threads, proved of the kernel: seen from one
    process, the kernel's steps are the steps of the local computation. */
module KernelMinimum {
  import opened Events
  import opened Simulation
  import opened Queues
  import opened Kernel
  import opened KernelInvariant
  import opened KernelSteps
  import opened KernelTheorems
  import opened KernelGvt
  import L = LocalMinimum

  ghost function Times(q: seq<Event>): (r: set<nat>)
    ensures forall t :: t in r <==> exists x :: x in q && x.body.ts == t
  {
    set x | x in q :: x.body.ts
  }

  // ------------------------------------------------------------------------------------------
  // One process
  // ------------------------------------------------------------------------------------------

  /** LP i as the local computation of process d has it; the LPs of other processes have no events. */
  ghost predicate LpSeen(m: Model, d: nat, i: nat, lp: LP, v: L.Lp) {
    if m.node(i) == d then v == L.Lp(lp.queue, Times(lp.input), lp.job.Busy?) else v.pending == {} && !v.busy
  }

  /** Whoever holds LP i has it in hand. */
  ghost predicate HeldAs(i: nat, lp: LP, d: nat, workers: seq<L.Worker>) {
    lp.job.Busy? ==>
      var w := lp.job.worker;
      w.node == d && w.thread < |workers| && workers[w.thread].hand == L.Holds(i, lp.job.event.body.ts)
  }

  ghost predicate HeldBy(m: Model, s: Sys, d: nat, w: nat, i: nat) {
    i < |s.lps| && m.node(i) == d && s.lps[i].job.Busy? && s.lps[i].job.worker == Worker(d, w)
  }

  ghost predicate WorkerSeen(m: Model, s: Sys, d: nat, w: nat, v: L.Worker) {
    v.queue == w % NonZero(m.schedulers) && (v.hand.Holds? ==> HeldBy(m, s, d, w, v.hand.lp))
  }

  /** The local computation l runs at process d beside the kernel. */
  ghost predicate Watches(m: Model, s: Sys, d: nat, l: L.Sys) {
    && L.Shape(l) && |l.lps| == |s.lps|
    && (forall i :: 0 <= i < |s.lps| ==> LpSeen(m, d, i, s.lps[i], l.lps[i]))
    && (forall i :: 0 <= i < |s.lps| && m.node(i) == d ==> HeldAs(i, s.lps[i], d, l.workers))
    && (forall w :: 0 <= w < |l.workers| ==> WorkerSeen(m, s, d, w, l.workers[w]))
  }

  /** What process d sees of an LP is the same. */
  predicate SameJob(a: Job, b: Job) {
    a.Busy? == b.Busy? && (a.Busy? ==> a.worker == b.worker && a.event == b.event)
  }

  predicate SameSeen(a: LP, b: LP) {
    b.input == a.input && b.queue == a.queue && SameJob(a.job, b.job)
  }

  predicate OthersSame(m: Model, s: Sys, s': Sys, d: nat, r: nat) {
    |s'.lps| == |s.lps| && forall i :: 0 <= i < |s.lps| && m.node(i) == d && i != r ==> SameSeen(s.lps[i], s'.lps[i])
  }

  lemma NothingIsSeen(m: Model, s: Sys, s': Sys, d: nat, l: L.Sys)
    requires Watches(m, s, d, l) && |s'.lps| == |s.lps|
    requires forall i :: 0 <= i < |s.lps| && m.node(i) == d ==> SameSeen(s.lps[i], s'.lps[i])
    ensures Watches(m, s', d, l)
  {
    hide Times, L.Shape;
    forall w | 0 <= w < |l.workers|
      ensures WorkerSeen(m, s', d, w, l.workers[w])
    {
      assert WorkerSeen(m, s, d, w, l.workers[w]);
    }
  }

  /** LP r of process d gains events. */
  lemma MoreIsSeen(m: Model, s: Sys, s': Sys, d: nat, l: L.Sys, r: nat, more: set<nat>)
    requires Watches(m, s, d, l) && r < |s.lps| && m.node(r) == d && OthersSame(m, s, s', d, r)
    requires s'.lps[r].queue == s.lps[r].queue && SameJob(s.lps[r].job, s'.lps[r].job)
    requires Times(s'.lps[r].input) == Times(s.lps[r].input) + more
    ensures Watches(m, s', d, L.Added(l, r, more))
  {
    hide Times;
    forall w | 0 <= w < |l.workers|
      ensures WorkerSeen(m, s', d, w, l.workers[w])
    {
      assert WorkerSeen(m, s, d, w, l.workers[w]);
    }
  }

  /** Reports, arrivals and coming reports do not matter. */
  lemma SeenAlike(m: Model, s: Sys, d: nat, a: L.Sys, b: L.Sys)
    requires Watches(m, s, d, a) && L.Shape(b) && b.lps == a.lps && |b.workers| == |a.workers|
    requires forall w :: 0 <= w < |a.workers| ==> b.workers[w].queue == a.workers[w].queue && b.workers[w].hand == a.workers[w].hand
    ensures Watches(m, s, d, b)
  {
    hide Times, L.Shape;
    forall w | 0 <= w < |b.workers|
      ensures WorkerSeen(m, s, d, w, b.workers[w])
    {
      assert WorkerSeen(m, s, d, w, a.workers[w]);
    }
  }

  // ------------------------------------------------------------------------------------------
  // The view of a step
  // ------------------------------------------------------------------------------------------

  /** What the local computations notice of a kernel step: nothing, or a step at process d. */
  datatype LocalView = Quiet | Does(d: nat, u: L.Step)

  function SeenSend(m: Model, i: nat, thread: nat, recv: nat, ts: nat): LocalView {
    if ts > m.maxTime then Quiet
    else Does(m.node(i), if m.node(recv) == m.node(i) then L.Insert(thread, recv, ts) else L.SendAway(thread, ts))
  }

  ghost function LocalViewOf(m: Model, s: Sys, t: Step): LocalView
    requires Enabled(m, s, t)
  {
    match t
    case GetEvent(w) =>
      var e := QueueOf(s, QueueId(w.node, w.thread % NonZero(m.schedulers)))[0];
      Does(w.node, L.Take(w.thread, e.body.recv, e.body.ts))
    case Check(i) =>
      var lp := s.lps[i];
      if NeedsRollback(lp, lp.job.event) then
        Does(m.node(i), L.Requeue(lp.job.worker.thread, Times(lp.processed[RollPoint(lp.processed, lp.job.event)..])))
      else Quiet
    case SendAnti(i) =>
      var job := s.lps[i].job;
      SeenSend(m, i, job.worker.thread, job.stage.antis[0].body.recv, job.stage.antis[0].body.ts)
    case SendNext(i) =>
      var job := s.lps[i].job;
      SeenSend(m, i, job.worker.thread, job.stage.msgs[0].recv, job.stage.msgs[0].ts)
    case Cancel(i) =>
      var lp := s.lps[i];
      Does(m.node(i), L.Finish(lp.job.worker.thread, Times(CancelIn(lp.input, lp.job.event))))
    case Replenish(i) =>
      var lp := s.lps[i];
      Does(m.node(i), L.Finish(lp.job.worker.thread, Times(Erase(lp.input, lp.job.event))))
    case Deliver(e) => Does(m.node(e.body.recv), L.Arrive(e.body.recv, e.body.ts))
    case _ => Quiet
  }

  /** The thread that takes a step. */
  function ThreadOf(s: Sys, t: Step): Option<Worker> {
    if t.GetEvent? then Some(t.w)
    else if OfHolder(t) && t.i < |s.lps| && s.lps[t.i].job.Busy? then Some(s.lps[t.i].job.worker)
    else None
  }

  /** A thread has reported its last send before it goes on. */
  ghost predicate MayGoOn(w: Worker, d: nat, l: L.Sys) {
    w.node == d ==> w.thread < |l.workers| && l.workers[w.thread].due == L.NoSend
  }

  /** What the local computation has to do, if anything. */
  ghost predicate Follows(m: Model, s': Sys, v: LocalView, d: nat, l: L.Sys) {
    if v.Does? && v.d == d then L.Shape(l) && L.Enabled(l, v.u) && Watches(m, s', d, L.Apply(l, v.u))
    else Watches(m, s', d, l)
  }

  // ------------------------------------------------------------------------------------------
  // Inserting
  // ------------------------------------------------------------------------------------------

  lemma TimesOfInsert(q: seq<Event>, e: Event)
    ensures Times(Insert(q, e)) == Times(q) + {e.body.ts}
  {
    hide Insert;
  }

  lemma InsertEventChanges(m: Model, s: Sys, r: nat, e: Event)
    requires r < |s.lps|
    ensures var s' := InsertEvent(m, s, r, e);
            && |s'.lps| == |s.lps| && s'.lps[r].input == Insert(s.lps[r].input, e)
            && s'.lps[r].queue == s.lps[r].queue && s'.lps[r].job == s.lps[r].job
            && forall i :: 0 <= i < |s.lps| && i != r ==> s'.lps[i] == s.lps[i]
  {
    hide Insert, Erase;
  }

  /** An event is put into an input queue, after the holder's job has moved on. */
  lemma InsertionIsSeen(m: Model, s: Sys, r: Sys, d: nat, l: L.Sys, e: Event)
    requires Watches(m, s, d, l) && |r.lps| == |s.lps| && e.body.recv < |s.lps|
    requires forall i :: 0 <= i < |s.lps| && m.node(i) == d ==> SameSeen(s.lps[i], r.lps[i])
    ensures var s' := InsertEvent(m, r, e.body.recv, e);
            if m.node(e.body.recv) == d then Watches(m, s', d, L.Added(l, e.body.recv, {e.body.ts}))
            else Watches(m, s', d, l)
  {
    var s' := InsertEvent(m, r, e.body.recv, e);
    InsertEventChanges(m, r, e.body.recv, e);
    TimesOfInsert(r.lps[e.body.recv].input, e);
    hide Insert, InsertEvent, Times, Watches;
    if m.node(e.body.recv) == d {
      MoreIsSeen(m, s, s', d, l, e.body.recv, {e.body.ts});
    } else {
      NothingIsSeen(m, s, s', d, l);
    }
  }

  lemma DeliveryIsSeen(m: Model, s: Sys, e: Event, d: nat, l: L.Sys)
    requires Enabled(m, s, Deliver(e)) && Watches(m, s, d, l)
    ensures Follows(m, Apply(m, s, Deliver(e)), LocalViewOf(m, s, Deliver(e)), d, l)
  {
    var r := s.(net := s.net - {e});
    assert L.Shape(l) && |l.lps| == |s.lps|;
    hide Watches, InsertEvent, L.Shape;
    InsertionIsSeen(m, s, r, d, l, e);
    if m.node(e.body.recv) == d {
      ArrivalIsSeen(m, Apply(m, s, Deliver(e)), d, l, e.body.recv, e.body.ts);
    }
  }

  lemma ArrivalIsSeen(m: Model, s: Sys, d: nat, l: L.Sys, i: nat, ts: nat)
    requires L.Shape(l) && i < |l.lps| && Watches(m, s, d, L.Added(l, i, {ts}))
    ensures L.Enabled(l, L.Arrive(i, ts)) && Watches(m, s, d, L.Apply(l, L.Arrive(i, ts)))
  {
    hide Watches;
    SeenAlike(m, s, d, L.Added(l, i, {ts}), L.Apply(l, L.Arrive(i, ts)));
  }

  // ------------------------------------------------------------------------------------------
  // The holder's steps
  // ------------------------------------------------------------------------------------------

  /** The worker that holds an LP of process d has its event in hand. */
  lemma HolderIsSeen(m: Model, s: Sys, d: nat, l: L.Sys, i: nat)
    requires Watches(m, s, d, l) && i < |s.lps| && m.node(i) == d && s.lps[i].job.Busy?
    ensures var w := s.lps[i].job.worker;
            && w.node == d && w.thread < |l.workers| && l.workers[w.thread].hand == L.Holds(i, s.lps[i].job.event.body.ts)
    ensures L.Shape(l) && |l.lps| == |s.lps| && l.lps[i] == L.Lp(s.lps[i].queue, Times(s.lps[i].input), true)
  {
    hide Times, L.Shape;
    assert HeldAs(i, s.lps[i], d, l.workers) && LpSeen(m, d, i, s.lps[i], l.lps[i]);
  }

  lemma RequeueIsSeen(m: Model, s: Sys, s': Sys, d: nat, l: L.Sys, i: nat, undone: set<nat>)
    requires Watches(m, s, d, l) && i < |s.lps| && m.node(i) == d && s.lps[i].job.Busy?
    requires OthersSame(m, s, s', d, i) && s'.lps[i].queue == s.lps[i].queue && SameJob(s.lps[i].job, s'.lps[i].job)
    requires Times(s'.lps[i].input) == Times(s.lps[i].input) + undone
    requires forall x :: x in undone ==> s.lps[i].job.event.body.ts <= x
    ensures Follows(m, s', Does(d, L.Requeue(s.lps[i].job.worker.thread, undone)), d, l)
  {
    HolderIsSeen(m, s, d, l, i);
    hide Watches, Times, L.Shape, SameJob, OthersSame;
    MoreIsSeen(m, s, s', d, l, i, undone);
  }

  lemma CheckIsSeen(m: Model, s: Sys, i: nat, d: nat, l: L.Sys)
    requires Enabled(m, s, Check(i)) && Watches(m, s, d, l)
    ensures Follows(m, Apply(m, s, Check(i)), LocalViewOf(m, s, Check(i)), d, l)
  {
    var lp, s' := s.lps[i], Apply(m, s, Check(i));
    var e := lp.job.event;
    hide Watches, Times, NeedsRollback, RestoreStates, OutputPoint, InsertAll, RollPoint, Follows;
    if m.node(i) == d && NeedsRollback(lp, e) {
      var p := lp.processed[RollPoint(lp.processed, e)..];
      TimesOfUndone(lp.input, lp.processed, e);
      RequeueIsSeen(m, s, s', d, l, i, Times(p));
    } else {
      NothingIsSeen(m, s, s', d, l);
      IsQuiet(m, s', LocalViewOf(m, s, Check(i)), d, l);
    }
  }

  lemma IsQuiet(m: Model, s': Sys, v: LocalView, d: nat, l: L.Sys)
    requires (v.Does? ==> v.d != d) && Watches(m, s', d, l)
    ensures Follows(m, s', v, d, l)
  {
  }

  lemma TimesOfUndone(q: seq<Event>, p: seq<Event>, e: Event)
    ensures var undone := p[RollPoint(p, e)..];
            Times(InsertAll(q, undone)) == Times(q) + Times(undone) && forall x :: x in Times(undone) ==> e.body.ts <= x
  {
    var c := RollPoint(p, e);
    hide RollPoint, InsertAll;
    forall x | x in p[c..]
      ensures e.body.ts <= x.body.ts
    {
      var k :| 0 <= k < |p[c..]| && p[c..][k] == x;
      assert p[c + k] == x;
    }
  }

  lemma InsertionFollows(m: Model, s: Sys, s': Sys, d: nat, l: L.Sys, i: nat, recv: nat, ts: nat)
    requires Watches(m, s, d, l) && i < |s.lps| && m.node(i) == d && s.lps[i].job.Busy? && recv < |s.lps|
    requires MayGoOn(s.lps[i].job.worker, d, l) && s.lps[i].job.event.body.ts <= ts
    requires Watches(m, s', d, L.Added(l, recv, {ts}))
    ensures Follows(m, s', Does(d, L.Insert(s.lps[i].job.worker.thread, recv, ts)), d, l)
  {
    HolderIsSeen(m, s, d, l, i);
    hide Watches, Times;
    SeenAlike(m, s', d, L.Added(l, recv, {ts}), L.Apply(l, L.Insert(s.lps[i].job.worker.thread, recv, ts)));
  }

  lemma SendAwayFollows(m: Model, s: Sys, s': Sys, d: nat, l: L.Sys, i: nat, ts: nat)
    requires Watches(m, s, d, l) && i < |s.lps| && m.node(i) == d && s.lps[i].job.Busy?
    requires MayGoOn(s.lps[i].job.worker, d, l) && s.lps[i].job.event.body.ts <= ts && Watches(m, s', d, l)
    ensures Follows(m, s', Does(d, L.SendAway(s.lps[i].job.worker.thread, ts)), d, l)
  {
    HolderIsSeen(m, s, d, l, i);
    hide Watches, Times;
    SeenAlike(m, s', d, l, L.Apply(l, L.SendAway(s.lps[i].job.worker.thread, ts)));
  }

  /** Event e is sent by the holder of LP i. */
  lemma PostIsSeen(m: Model, s: Sys, r: Sys, d: nat, l: L.Sys, i: nat, e: Event)
    requires Watches(m, s, d, l) && i < |s.lps| && s.lps[i].job.Busy? && e.body.recv < |s.lps| && |r.lps| == |s.lps|
    requires forall k :: 0 <= k < |s.lps| && m.node(k) == d ==> SameSeen(s.lps[k], r.lps[k])
    requires MayGoOn(s.lps[i].job.worker, d, l) && s.lps[i].job.event.body.ts <= e.body.ts
    ensures var s' := if e.body.ts <= m.maxTime then Post(m, r, i, e) else r;
            Follows(m, s', SeenSend(m, i, s.lps[i].job.worker.thread, e.body.recv, e.body.ts), d, l)
  {
    hide Watches, InsertEvent, SameSeen, Follows, MayGoOn;
    var v := SeenSend(m, i, s.lps[i].job.worker.thread, e.body.recv, e.body.ts);
    if e.body.ts <= m.maxTime && m.node(e.body.recv) == m.node(i) {
      var s' := InsertEvent(m, r, e.body.recv, e);
      InsertionIsSeen(m, s, r, d, l, e);
      if m.node(i) == d {
        WatchesHas(m, s, d, l);
        InsertionFollows(m, s, s', d, l, i, e.body.recv, e.body.ts);
      } else {
        IsQuiet(m, s', v, d, l);
      }
    } else {
      var s' := if e.body.ts <= m.maxTime then Post(m, r, i, e) else r;
      NothingIsSeen(m, s, s', d, l);
      if v.Does? && m.node(i) == d {
        SendAwayFollows(m, s, s', d, l, i, e.body.ts);
      } else {
        IsQuiet(m, s', v, d, l);
      }
    }
  }

  lemma WatchesHas(m: Model, s: Sys, d: nat, l: L.Sys)
    requires Watches(m, s, d, l)
    ensures L.Shape(l) && |l.lps| == |s.lps|
  {
  }

  /** What the holder of LP i still has to send is later than its event. */
  lemma SendsAreLater(m: Model, s: Sys, i: nat)
    requires WellFormed(m) && Inv(m, s) && i < |s.lps| && s.lps[i].job.Busy?
    ensures var job := s.lps[i].job;
            && (job.stage.Sending? && job.stage.msgs != [] ==> job.event.body.ts <= job.stage.msgs[0].ts)
            && (job.stage.Cancelling? && job.stage.antis != [] ==> job.event.body.ts <= job.stage.antis[0].body.ts)
  {
    hide Inv, WellFormed, LocalOk;
    InvAt(m, s, i);
    InHandIsEarlier(m, i, s.lps[i]);
  }

  lemma SendIsSeen(m: Model, s: Sys, i: nat, d: nat, l: L.Sys)
    requires Enabled(m, s, SendNext(i)) && Watches(m, s, d, l) && MayGoOn(s.lps[i].job.worker, d, l)
    requires s.lps[i].job.event.body.ts <= s.lps[i].job.stage.msgs[0].ts
    ensures Follows(m, Apply(m, s, SendNext(i)), LocalViewOf(m, s, SendNext(i)), d, l)
  {
    var lp := s.lps[i];
    var msg, rest := lp.job.stage.msgs[0], lp.job.(stage := Sending(lp.job.stage.msgs[1..]));
    var e := NewEvent(i, lp.(job := rest), lp.job.event, msg);
    var r := if msg.ts <= m.maxTime then s.(lps := s.lps[i := Recorded(lp.(job := rest), lp.job.event, e)])
             else s.(lps := s.lps[i := lp.(job := rest)]);
    hide Watches, Post, Follows, MayGoOn;
    PostIsSeen(m, s, r, d, l, i, e);
  }

  lemma AntiIsSeen(m: Model, s: Sys, i: nat, d: nat, l: L.Sys)
    requires Enabled(m, s, Step.SendAnti(i)) && Watches(m, s, d, l) && MayGoOn(s.lps[i].job.worker, d, l)
    requires s.lps[i].job.event.body.ts <= s.lps[i].job.stage.antis[0].body.ts
    ensures Follows(m, Apply(m, s, Step.SendAnti(i)), LocalViewOf(m, s, Step.SendAnti(i)), d, l)
  {
    var lp := s.lps[i];
    var antis := lp.job.stage.antis;
    var r := s.(lps := s.lps[i := lp.(job := lp.job.(stage := Cancelling(antis[1..], lp.job.stage.restored)))]);
    hide Watches, Post, Follows, MayGoOn;
    PostIsSeen(m, s, r, d, l, i, NegOf(antis[0]));
  }

  lemma ReleaseChanges(m: Model, s: Sys, i: nat)
    requires i < |s.lps|
    ensures var s' := Release(m, s, i);
            && |s'.lps| == |s.lps| && s'.lps[i].input == s.lps[i].input && s'.lps[i].queue == s.lps[i].queue
            && s'.lps[i].job == Idle && forall k :: 0 <= k < |s.lps| && k != i ==> s'.lps[k] == s.lps[k]
  {
    hide Insert;
  }

  /** The holder lets go of LP i. */
  lemma FinishIsSeen(m: Model, s: Sys, s': Sys, d: nat, l: L.Sys, i: nat)
    requires Watches(m, s, d, l) && i < |s.lps| && m.node(i) == d && s.lps[i].job.Busy?
    requires MayGoOn(s.lps[i].job.worker, d, l) && OthersSame(m, s, s', d, i)
    requires s'.lps[i].queue == s.lps[i].queue && s'.lps[i].job == Idle && Times(s'.lps[i].input) <= Times(s.lps[i].input)
    ensures Follows(m, s', Does(d, L.Finish(s.lps[i].job.worker.thread, Times(s'.lps[i].input))), d, l)
  {
    HolderIsSeen(m, s, d, l, i);
    var u := L.Finish(s.lps[i].job.worker.thread, Times(s'.lps[i].input));
    var l' := L.Apply(l, u);
    hide Times;
    forall k | 0 <= k < |s'.lps| && m.node(k) == d
      ensures HeldAs(k, s'.lps[k], d, l'.workers)
    {
      assert HeldAs(k, s.lps[k], d, l.workers);
    }
    forall w | 0 <= w < |l'.workers|
      ensures WorkerSeen(m, s', d, w, l'.workers[w])
    {
      assert WorkerSeen(m, s, d, w, l.workers[w]);
      if l'.workers[w].hand.Holds? {
        assert l.workers[w].hand.lp != i;
      }
    }
  }

  lemma CancelIsSeen(m: Model, s: Sys, i: nat, d: nat, l: L.Sys)
    requires Enabled(m, s, Cancel(i)) && Watches(m, s, d, l) && MayGoOn(s.lps[i].job.worker, d, l)
    ensures Follows(m, Apply(m, s, Cancel(i)), LocalViewOf(m, s, Cancel(i)), d, l)
  {
    var lp := s.lps[i];
    var r := s.(lps := s.lps[i := lp.(input := CancelIn(lp.input, lp.job.event))]);
    ReleaseChanges(m, r, i);
    CancelShrinks(lp.input, lp.job.event);
    LetGoIsSeen(m, s, Cancel(i), d, l, i, r);
  }

  lemma ReplenishIsSeen(m: Model, s: Sys, i: nat, d: nat, l: L.Sys)
    requires !m.migration && Enabled(m, s, Replenish(i)) && Watches(m, s, d, l) && MayGoOn(s.lps[i].job.worker, d, l)
    ensures Follows(m, Apply(m, s, Replenish(i)), LocalViewOf(m, s, Replenish(i)), d, l)
  {
    var r := s.(lps := s.lps[i := Finished(m, s.lps[i])]);
    ReleaseChanges(m, r, i);
    LetGoIsSeen(m, s, Replenish(i), d, l, i, r);
  }

  lemma LetGoIsSeen(m: Model, s: Sys, t: Step, d: nat, l: L.Sys, i: nat, r: Sys)
    requires Enabled(m, s, t) && i < |s.lps| && s.lps[i].job.Busy? && Watches(m, s, d, l)
    requires MayGoOn(s.lps[i].job.worker, d, l) && |r.lps| == |s.lps| && Apply(m, s, t) == Release(m, r, i)
    requires r.lps == s.lps[i := r.lps[i]] && r.lps[i].queue == s.lps[i].queue && forall x :: x in r.lps[i].input ==> x in s.lps[i].input
    requires LocalViewOf(m, s, t) == Does(m.node(i), L.Finish(s.lps[i].job.worker.thread, Times(r.lps[i].input)))
    ensures Follows(m, Apply(m, s, t), LocalViewOf(m, s, t), d, l)
  {
    var s' := Release(m, r, i);
    ReleaseChanges(m, r, i);
    assert Times(r.lps[i].input) <= Times(s.lps[i].input);
    hide Watches, Release, Times, Apply, LocalViewOf, Enabled, Follows, MayGoOn;
    if m.node(i) == d {
      FinishIsSeen(m, s, s', d, l, i);
    } else {
      NothingIsSeen(m, s, s', d, l);
      IsQuiet(m, s', LocalViewOf(m, s, t), d, l);
    }
  }

  /** The other steps only take the job further. */
  lemma QuietStepIsSeen(m: Model, s: Sys, t: Step, d: nat, l: L.Sys)
    requires Enabled(m, s, t) && (t.Coast? || t.Receive? || t.Collect?) && Watches(m, s, d, l)
    ensures Follows(m, Apply(m, s, t), LocalViewOf(m, s, t), d, l)
  {
    hide Watches, CoastForward, UpTo, OutputsCollected, EventsCollected, CollectTime, CollectStates;
    NothingIsSeen(m, s, Apply(m, s, t), d, l);
  }

  // ------------------------------------------------------------------------------------------
  // Looking for work
  // ------------------------------------------------------------------------------------------

  lemma FreeHand(m: Model, s: Sys, d: nat, l: L.Sys, w: nat)
    requires Watches(m, s, d, l) && w < |l.workers|
    requires forall i :: 0 <= i < |s.lps| && s.lps[i].job.Busy? ==> s.lps[i].job.worker != Worker(d, w)
    ensures l.workers[w].hand == L.Nothing && l.workers[w].queue == w % NonZero(m.schedulers)
  {
    hide Times, L.Shape;
    assert WorkerSeen(m, s, d, w, l.workers[w]);
  }

  /** The head of a schedule queue is least among the idle LPs of the queue. */
  lemma HeadIsLeastSeen(m: Model, s: Sys, d: nat, l: L.Sys, k: nat)
    requires WellFormed(m) && Reachable(m, s) && Watches(m, s, d, l)
    ensures var Q := QueueOf(s, QueueId(d, k));
            forall i, x :: 0 <= i < |l.lps| && l.lps[i].queue == k && !l.lps[i].busy && x in l.lps[i].pending ==>
              Q != [] && Q[0].body.ts <= x
  {
    hide Reachable, WellFormed, L.Shape, QueueOf;
    forall i, x | 0 <= i < |l.lps| && l.lps[i].queue == k && !l.lps[i].busy && x in l.lps[i].pending
      ensures var Q := QueueOf(s, QueueId(d, k)); Q != [] && Q[0].body.ts <= x
    {
      assert LpSeen(m, d, i, s.lps[i], l.lps[i]);
      var e :| e in s.lps[i].input && e.body.ts == x;
      QueueHeadIsLeast(m, s, i, e);
    }
  }

  /** A worker that finds its queue empty. */
  lemma EmptyQueueIsSeen(m: Model, s: Sys, d: nat, l: L.Sys, w: nat)
    requires WellFormed(m) && Reachable(m, s) && Watches(m, s, d, l) && w < |l.workers| && MayGoOn(Worker(d, w), d, l)
    requires forall i :: 0 <= i < |s.lps| && s.lps[i].job.Busy? ==> s.lps[i].job.worker != Worker(d, w)
    requires QueueOf(s, QueueId(d, w % NonZero(m.schedulers))) == []
    ensures Follows(m, s, Does(d, L.TakeNothing(w)), d, l)
  {
    WatchesHas(m, s, d, l);
    FreeHand(m, s, d, l, w);
    HeadIsLeastSeen(m, s, d, l, w % NonZero(m.schedulers));
    hide Watches, Reachable, WellFormed, QueueOf;
    SeenAlike(m, s, d, l, L.Apply(l, L.TakeNothing(w)));
  }

  /** The event that a worker takes, and its LP. */
  lemma TakenIsOf(m: Model, s: Sys, w: Worker)
    requires WellFormed(m) && Reachable(m, s) && Enabled(m, s, GetEvent(w))
    ensures var q := QueueId(w.node, w.thread % NonZero(m.schedulers));
            var e := QueueOf(s, q)[0];
            && e.body.recv < |s.lps| && m.node(e.body.recv) == w.node && s.lps[e.body.recv].queue == q.k
            && !s.lps[e.body.recv].job.Busy? && e in s.lps[e.body.recv].input
  {
    var q := QueueId(w.node, w.thread % NonZero(m.schedulers));
    var e := QueueOf(s, q)[0];
    assert NonZero(m.schedulers) == m.schedulers;
    hide Reachable, WellFormed, QueueOf;
    SchedulesAreExact(m, s, e.body.recv, q, e);
  }

  lemma GetEventIsSeen(m: Model, s: Sys, w: Worker, d: nat, l: L.Sys)
    requires WellFormed(m) && Reachable(m, s) && Enabled(m, s, GetEvent(w)) && Watches(m, s, d, l) && MayGoOn(w, d, l)
    ensures Follows(m, Apply(m, s, GetEvent(w)), LocalViewOf(m, s, GetEvent(w)), d, l)
  {
    TakenIsOf(m, s, w);
    var e := QueueOf(s, QueueId(w.node, w.thread % NonZero(m.schedulers)))[0];
    var s' := Apply(m, s, GetEvent(w));
    if w.node == d {
      FreeHand(m, s, d, l, w.thread);
      HeadIsLeastSeen(m, s, d, l, w.thread % NonZero(m.schedulers));
      hide Reachable, WellFormed, QueueOf;
      TakeIsSeen(m, s, s', d, l, w.thread, e);
    } else {
      hide Reachable, WellFormed, QueueOf, Watches;
      NothingIsSeen(m, s, s', d, l);
    }
  }

  lemma TakeIsSeen(m: Model, s: Sys, s': Sys, d: nat, l: L.Sys, w: nat, e: Event)
    requires Watches(m, s, d, l) && w < |l.workers| && e.body.recv < |s.lps| && m.node(e.body.recv) == d
    requires l.workers[w].hand == L.Nothing && l.workers[w].due == L.NoSend && l.workers[w].queue == s.lps[e.body.recv].queue
    requires !s.lps[e.body.recv].job.Busy? && e in s.lps[e.body.recv].input && L.LeastOf(l, l.workers[w].queue, e.body.ts)
    requires s'.lps == s.lps[e.body.recv := s.lps[e.body.recv].(job := Busy(Worker(d, w), e, Taken))]
    ensures Follows(m, s', Does(d, L.Take(w, e.body.recv, e.body.ts)), d, l)
  {
    var r, u := e.body.recv, L.Take(w, e.body.recv, e.body.ts);
    assert LpSeen(m, d, r, s.lps[r], l.lps[r]);
    assert L.Enabled(l, u);
    var l' := L.Apply(l, u);
    hide Times, L.LeastOf;
    forall k | 0 <= k < |s'.lps| && m.node(k) == d
      ensures HeldAs(k, s'.lps[k], d, l'.workers)
    {
      assert HeldAs(k, s.lps[k], d, l.workers);
    }
    forall v | 0 <= v < |l'.workers|
      ensures WorkerSeen(m, s', d, v, l'.workers[v])
    {
      assert WorkerSeen(m, s, d, v, l.workers[v]);
    }
  }

  // ------------------------------------------------------------------------------------------
  // The theorem
  // ------------------------------------------------------------------------------------------

  /** Every kernel step of a worker or of the network is, at each process, a step that the local
      computation allows, or one that it does not notice. */
  lemma KernelStepIsLocal(m: Model, s: Sys, t: Step, d: nat, l: L.Sys)
    requires WellFormed(m) && !m.migration && Reachable(m, s) && Enabled(m, s, t) && !t.Boot?
    requires Watches(m, s, d, l) && (ThreadOf(s, t).Some? ==> MayGoOn(ThreadOf(s, t).value, d, l))
    ensures Follows(m, Apply(m, s, t), LocalViewOf(m, s, t), d, l)
  {
    if OfHolder(t) {
      ReachableHasInv(m, s);
      SendsAreLater(m, s, t.i);
    }
    hide Inv, Reachable, Watches, WellFormed, Apply, LocalViewOf, Follows, MayGoOn;
    match t
    case GetEvent(w) => GetEventIsSeen(m, s, w, d, l);
    case Check(i) => CheckIsSeen(m, s, i, d, l);
    case SendAnti(i) => AntiIsSeen(m, s, i, d, l);
    case SendNext(i) => SendIsSeen(m, s, i, d, l);
    case Cancel(i) => CancelIsSeen(m, s, i, d, l);
    case Replenish(i) => ReplenishIsSeen(m, s, i, d, l);
    case Deliver(e) => DeliveryIsSeen(m, s, e, d, l);
    case Advance(g) => AdvanceIsSeen(m, s, g, d, l);
    case _ => QuietStepIsSeen(m, s, t, d, l);
  }

  lemma AdvanceIsSeen(m: Model, s: Sys, g: nat, d: nat, l: L.Sys)
    requires Enabled(m, s, Advance(g)) && Watches(m, s, d, l)
    ensures Follows(m, Apply(m, s, Advance(g)), LocalViewOf(m, s, Advance(g)), d, l)
  {
    hide Watches;
    NothingIsSeen(m, s, Apply(m, s, Advance(g)), d, l);
  }
}
