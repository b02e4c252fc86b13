/** The Time Warp kernel as a step system: any number of processes, schedule queues, worker threads
    and LPs.  Every locked region of the program is one step; steps of different workers, message
    deliveries and GVT advances interleave freely. */
module Kernel {
  import opened Events
  import opened Simulation
  import opened Queues

  datatype Worker = Worker(node: nat, thread: nat)

  datatype QueueId = QueueId(node: nat, k: nat)

  /** How far the worker that holds an LP has got with its event. */
  datatype Stage =
    | Taken                                             // getEvent returned it
    | Cancelling(antis: seq<Event>, restored: Event)    // rolled back; these sends are to be cancelled
    | Ready                                             // no rollback (any more)
    | Sending(msgs: seq<Msg>)                           // processed; these new events are to be sent
    | Closing                                           // all sent, queues collected

  datatype Job =
    | Idle
    | Booting(msgs: seq<Msg>)                           // initialize(): initial events to be sent
    | Busy(worker: Worker, event: Event, stage: Stage)

  /** A logical process and its queues.  The last three fields only record the past. */
  datatype LP = LP(
    input: seq<Event>,          // input_queue_
    processed: seq<Event>,      // processed_queue_
    states: seq<Saved>,         // state_queue_
    outputs: seq<Output>,       // output_queue_
    scheduled: Option<Event>,   // scheduled_event_pointer_
    queue: nat,                 // input_queue_scheduler_map_
    state: State,               // getState() and rng_list_
    generation: nat,            // generation_
    count: nat,                 // count_ of the periodic state manager
    lastCollect: nat,           // last_fossil_collect_gvt_
    job: Job,
    committed: seq<Event>,      // processed events that were collected
    committedOut: seq<Output>,  // outputs that were collected
    sent: seq<Event>)           // everything ever sent

  /** `net` holds the event messages in transit; `floor` is the largest GVT published so far. */
  datatype Sys = Sys(lps: seq<LP>, queues: map<QueueId, seq<Event>>, net: set<Event>, floor: nat)

  function History(lp: LP): seq<Event> { lp.committed + lp.processed }
  function Outputs(lp: LP): seq<Output> { lp.committedOut + lp.outputs }

  function QueueOf(s: Sys, q: QueueId): seq<Event> {
    if q in s.queues then s.queues[q] else []
  }

  function HomeOf(m: Model, s: Sys, i: nat): QueueId
    requires i < |s.lps|
  {
    QueueId(m.node(i), s.lps[i].queue)
  }

  // ------------------------------------------------------------------------------------------
  // The event set
  // ------------------------------------------------------------------------------------------

  /** insertEvent */
  function InsertEvent(m: Model, s: Sys, r: nat, e: Event): Sys
    requires r < |s.lps|
  {
    var lp := s.lps[r];
    var input := Insert(lp.input, e);
    var q := HomeOf(m, s, r);
    if lp.scheduled.None? then
      s.(lps := s.lps[r := lp.(input := input, scheduled := Some(e))],
         queues := s.queues[q := Insert(QueueOf(s, q), e)])
    else
      var erased := Erase(QueueOf(s, q), lp.scheduled.value);
      if input[0] != lp.scheduled.value && |erased| < |QueueOf(s, q)| then
        s.(lps := s.lps[r := lp.(input := input, scheduled := Some(input[0]))],
           queues := s.queues[q := Insert(erased, input[0])])
      else
        s.(lps := s.lps[r := lp.(input := input)])
  }

  /** startScheduling, and the end of replenishScheduler: the worker lets go of the LP. */
  function Release(m: Model, s: Sys, i: nat): Sys
    requires i < |s.lps|
  {
    var lp := s.lps[i];
    var q := HomeOf(m, s, i);
    if lp.input != [] then
      s.(lps := s.lps[i := lp.(scheduled := Some(lp.input[0]), job := Idle)],
         queues := s.queues[q := Insert(QueueOf(s, q), lp.input[0])])
    else
      s.(lps := s.lps[i := lp.(scheduled := None, job := Idle)])
  }

  /** sendLocalEvent or enqueueRemoteEvent, as the receiver's process decides. */
  function Post(m: Model, s: Sys, from: nat, e: Event): Sys
    requires e.body.recv < |s.lps|
  {
    if m.node(e.body.recv) == m.node(from) then InsertEvent(m, s, e.body.recv, e)
    else s.(net := s.net + {e})
  }

  // ------------------------------------------------------------------------------------------
  // The steps
  // ------------------------------------------------------------------------------------------

  datatype Step =
    | Boot(i: nat)
    | GetEvent(w: Worker)
    | Check(i: nat)
    | SendAnti(i: nat)
    | Coast(i: nat)
    | Cancel(i: nat)
    | Receive(i: nat)
    | SendNext(i: nat)
    | Collect(i: nat, g: nat)
    | Replenish(i: nat)
    | Deliver(e: Event)
    | Advance(g: nat)

  /** processEvents: a rollback is needed. */
  predicate NeedsRollback(lp: LP, e: Event) {
    lp.processed != [] &&
    var last := lp.processed[|lp.processed| - 1];
    Less(e, last) || (SameId(e, last) && !e.pos)
  }

  /** Everything rollback() does to the LP before it sends anti-messages. */
  function RolledBack(lp: LP, e: Event): LP
    requires lp.job.Busy?
  {
    var c := RollPoint(lp.processed, e);
    var states := RestoreStates(lp.states, e);
    var o := OutputPoint(lp.outputs, e);
    var restored := if states != [] then states[|states| - 1] else Saved(INITIAL, lp.state);
    lp.(input := InsertAll(lp.input, lp.processed[c..]),
        processed := lp.processed[..c],
        states := states,
        state := restored.state,
        outputs := lp.outputs[..o],
        job := lp.job.(stage := Cancelling(EventsOf(lp.outputs[o..]), restored.event)))
  }

  /** saveState: the countdown wraps as an unsigned int does. */
  function SaveState(m: Model, lp: LP, e: Event, state: State): LP {
    if lp.count == 0 then
      lp.(states := lp.states + [Saved(e, state)],
          count := if m.period == 0 then UINT_MAX else m.period - 1)
    else lp.(count := lp.count - 1)
  }

  /** A new event gets sender, send time and generation. */
  function NewEvent(i: nat, lp: LP, input: Event, msg: Msg): Event {
    Event(Body(msg.recv, msg.ts, input.body.ts, i + 1, msg.data), lp.generation, true)
  }

  /** Its sender records it in the output queue. */
  function Recorded(lp: LP, input: Event, e: Event): LP {
    lp.(generation := lp.generation + 1,
        outputs := lp.outputs + [Output(input, e)],
        sent := lp.sent + [e])
  }

  /** The next of the new events of LP i is recorded and posted, or dropped past the end. */
  function SendOne(m: Model, s: Sys, i: nat, input: Event, msg: Msg, rest: Job): Sys
    requires i < |s.lps| && msg.recv < |s.lps|
  {
    var lp := s.lps[i].(job := rest);
    var e := NewEvent(i, lp, input, msg);
    if msg.ts <= m.maxTime then Post(m, s.(lps := s.lps[i := Recorded(lp, input, e)]), i, e)
    else s.(lps := s.lps[i := lp])
  }

  /** The three fossil collections of an LP. */
  function Collected(lp: LP, g: nat): LP
    requires lp.job.Busy?
  {
    var lp' := lp.(job := lp.job.(stage := Closing));
    if g > lp.lastCollect then
      var o := OutputsCollected(lp.outputs, g);
      var p := EventsCollected(lp.processed, CollectTime(lp.states, g));
      lp'.(lastCollect := g,
           outputs := lp.outputs[o..], committedOut := lp.committedOut + lp.outputs[..o],
           states := CollectStates(lp.states, g),
           processed := lp.processed[p..], committed := lp.committed + lp.processed[..p])
    else lp'
  }

  /** replenishScheduler, up to the scheduling of the next event. */
  function Finished(m: Model, lp: LP): LP
    requires lp.job.Busy?
  {
    var e := lp.job.event;
    lp.(input := Erase(lp.input, e),
        processed := lp.processed + [e],
        queue := if m.migration then (lp.queue + 1) % NonZero(m.schedulers) else lp.queue)
  }

  function NonZero(n: nat): (r: nat)
    ensures r > 0 && (n > 0 ==> r == n)
  {
    if n == 0 then 1 else n
  }

  predicate Booted(s: Sys) {
    forall i :: 0 <= i < |s.lps| ==> !s.lps[i].job.Booting?
  }

  /** Event e of an LP's input queue is unprocessed, in hand or not; so is a message in transit. */
  predicate AllAtLeast(s: Sys, g: nat) {
    && (forall i, x :: 0 <= i < |s.lps| && x in s.lps[i].input ==> x.body.ts >= g)
    && (forall x :: x in s.net ==> x.body.ts >= g)
  }

  /** A positive event reaches its receiver before its anti-message does. */
  predicate MayDeliver(s: Sys, e: Event) {
    e in s.net && (!e.pos ==> forall x :: x in s.net && x.pos ==> !SameId(x, e))
  }

  predicate Enabled(m: Model, s: Sys, t: Step) {
    match t
    case Boot(i) => i < |s.lps| && s.lps[i].job.Booting?
    case GetEvent(w) =>
      && Booted(s)
      && (forall i :: 0 <= i < |s.lps| && s.lps[i].job.Busy? ==> s.lps[i].job.worker != w)
      && var Q := QueueOf(s, QueueId(w.node, w.thread % NonZero(m.schedulers)));
         Q != [] && Q[0].body.recv < |s.lps|
    case Check(i) => i < |s.lps| && s.lps[i].job.Busy? && s.lps[i].job.stage.Taken?
    case SendAnti(i) =>
      && i < |s.lps| && s.lps[i].job.Busy? && s.lps[i].job.stage.Cancelling?
      && s.lps[i].job.stage.antis != [] && s.lps[i].job.stage.antis[0].body.recv < |s.lps|
    case Coast(i) =>
      i < |s.lps| && s.lps[i].job.Busy? && s.lps[i].job.stage.Cancelling? && s.lps[i].job.stage.antis == []
    case Cancel(i) => i < |s.lps| && s.lps[i].job.Busy? && s.lps[i].job.stage.Ready? && !s.lps[i].job.event.pos
    case Receive(i) => i < |s.lps| && s.lps[i].job.Busy? && s.lps[i].job.stage.Ready? && s.lps[i].job.event.pos
    case SendNext(i) =>
      && i < |s.lps| && s.lps[i].job.Busy? && s.lps[i].job.stage.Sending?
      && s.lps[i].job.stage.msgs != [] && s.lps[i].job.stage.msgs[0].recv < |s.lps|
    case Collect(i, g) =>
      && i < |s.lps| && s.lps[i].job.Busy? && s.lps[i].job.stage.Sending? && s.lps[i].job.stage.msgs == []
      && g <= s.floor
    case Replenish(i) => i < |s.lps| && s.lps[i].job.Busy? && s.lps[i].job.stage.Closing?
    case Deliver(e) => MayDeliver(s, e) && e.body.recv < |s.lps|
    case Advance(g) => Booted(s) && AllAtLeast(s, g)
  }

  function Apply(m: Model, s: Sys, t: Step): Sys
    requires Enabled(m, s, t)
  {
    match t
    case Boot(i) =>
      var lp := s.lps[i];
      if lp.job.msgs == [] then
        s.(lps := s.lps[i := SaveState(m, lp.(job := Idle), INITIAL, lp.state)])
      else if lp.job.msgs[0].recv < |s.lps| then
        SendOne(m, s, i, INITIAL, lp.job.msgs[0], Booting(lp.job.msgs[1..]))
      else s
    case GetEvent(w) =>
      var q := QueueId(w.node, w.thread % NonZero(m.schedulers));
      var e := QueueOf(s, q)[0];
      var r := e.body.recv;
      s.(queues := s.queues[q := QueueOf(s, q)[1..]],
         lps := s.lps[r := s.lps[r].(job := Busy(w, e, Taken))])
    case Check(i) =>
      var lp := s.lps[i];
      if NeedsRollback(lp, lp.job.event) then s.(lps := s.lps[i := RolledBack(lp, lp.job.event)])
      else s.(lps := s.lps[i := lp.(job := lp.job.(stage := Ready))])
    case SendAnti(i) =>
      var lp := s.lps[i];
      var antis := lp.job.stage.antis;
      var s' := s.(lps := s.lps[i := lp.(job := lp.job.(stage := Cancelling(antis[1..], lp.job.stage.restored)))]);
      if antis[0].body.ts <= m.maxTime then Post(m, s', i, NegOf(antis[0])) else s'
    case Coast(i) =>
      var lp := s.lps[i];
      var events := lp.processed[UpTo(lp.processed, lp.job.stage.restored)..];
      s.(lps := s.lps[i := lp.(state := CoastForward(m, i, lp.state, events), job := lp.job.(stage := Ready))])
    case Cancel(i) =>
      var lp := s.lps[i];
      Release(m, s.(lps := s.lps[i := lp.(input := CancelIn(lp.input, lp.job.event))]), i)
    case Receive(i) =>
      var lp := s.lps[i];
      var (state, msgs) := m.receive(i, lp.state, lp.job.event.body);
      var lp' := lp.(state := state, job := lp.job.(stage := Sending(msgs)));
      s.(lps := s.lps[i := SaveState(m, lp', lp.job.event, state)])
    case SendNext(i) =>
      var job := s.lps[i].job;
      SendOne(m, s, i, job.event, job.stage.msgs[0], job.(stage := Sending(job.stage.msgs[1..])))
    case Collect(i, g) =>
      s.(lps := s.lps[i := Collected(s.lps[i], g)])
    case Replenish(i) =>
      Release(m, s.(lps := s.lps[i := Finished(m, s.lps[i])]), i)
    case Deliver(e) =>
      InsertEvent(m, s.(net := s.net - {e}), e.body.recv, e)
    case Advance(g) =>
      s.(floor := if g > s.floor then g else s.floor)
  }

  /** Before initialize() has sent anything. */
  function StartLP(m: Model, i: nat): LP {
    LP([], [], [], [], None, m.home(i), m.init(i), 0, 0, 0, Booting(m.initMsgs(i)), [], [], [])
  }

  function Start(m: Model): Sys {
    Sys(seq(m.n, i requires 0 <= i => StartLP(m, i)), map[], {}, 0)
  }

  ghost predicate Next(m: Model, s: Sys, t: Step, s': Sys) {
    Enabled(m, s, t) && s' == Apply(m, s, t)
  }

  /** A run of the system from its start. */
  ghost predicate Reaches(m: Model, steps: seq<Step>, s: Sys)
    decreases |steps|
  {
    if steps == [] then s == Start(m)
    else
      var before, last := steps[..|steps| - 1], steps[|steps| - 1];
      exists r :: Reaches(m, before, r) && Next(m, r, last, s)
  }

  ghost predicate Reachable(m: Model, s: Sys) {
    exists steps :: Reaches(m, steps, s)
  }
}
