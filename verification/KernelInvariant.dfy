/** What holds between any two steps of the Time Warp kernel. */
module KernelInvariant {
  import opened Events
  import opened Simulation
  import opened Queues
  import opened Kernel
  import opened Ledgers

  // ------------------------------------------------------------------------------------------
  // One LP
  // ------------------------------------------------------------------------------------------

  /** The history, and the event in hand once its processing has changed the state. */
  function Replayed(history: seq<Event>, job: Job): seq<Event> {
    if job.Busy? && (job.stage.Sending? || job.stage.Closing?) then history + [job.event] else history
  }

  /** New events that the job in hand has created but not yet sent. */
  function Unsent(m: Model, i: nat, job: Job): seq<Send> {
    match job
    case Idle => []
    case Booting(msgs) => SendsFrom(m, i, INITIAL, msgs)
    case Busy(_, e, stage) => if stage.Sending? then SendsFrom(m, i, e, stage.msgs) else []
  }

  /** Sends that the rollback in hand has yet to cancel. */
  function Antis(job: Job): seq<Event> {
    if job.Busy? && job.stage.Cancelling? then job.stage.antis else []
  }

  function Made(outs: seq<Output>): (r: seq<Send>)
    ensures |r| == |outs| && forall k :: 0 <= k < |outs| ==> r[k] == Send(outs[k].input, outs[k].event.body)
  {
    seq(|outs|, k requires 0 <= k < |outs| => Send(outs[k].input, outs[k].event.body))
  }

  ghost predicate InputOk(i: nat, input: seq<Event>) {
    Sorted(input) && forall x :: x in input ==> x.body.recv == i
  }

  ghost predicate HistoryOk(i: nat, h: seq<Event>) {
    Ascending(h) && forall x :: x in h ==> x.body.recv == i && x.pos && x.body.sender > 0
  }

  /** The event in hand stays in the input queue; once a rollback is done or was not needed, all of
      the history is before it. */
  ghost predicate JobOk(job: Job, input: seq<Event>, h: seq<Event>) {
    && (job.Busy? ==>
          && job.event in input
          && (!job.stage.Taken? ==> forall x :: x in h ==> Less(x, job.event))
          && (job.stage.Sending? || job.stage.Closing? ==> job.event.pos && job.event.body.sender > 0))
    && (job.Booting? ==> h == [])
  }

  /** Every recorded send carries its own number; so generation_ identifies events of one sender. */
  ghost predicate SentHereOk(m: Model, i: nat, generation: nat, sent: seq<Event>) {
    && generation == |sent|
    && (forall g :: 0 <= g < |sent| ==> SentItemOk(m, i, g, sent[g]))
  }

  ghost predicate SentItemOk(m: Model, i: nat, g: nat, x: Event) {
    x.pos && x.gen == g && x.body.sender == i + 1 && x.body.recv < m.n && x.body.ts <= m.maxTime
  }

  /** A saved state is the replay of the history up to its event. */
  ghost predicate SavedOk(m: Model, i: nat, h: seq<Event>, saved: Saved) {
    && (saved.event == INITIAL || saved.event in h)
    && saved.state == StateOf(m, i, h[..UpTo(h, saved.event)])
  }

  ghost predicate SavedStatesOk(m: Model, i: nat, booting: bool, h: seq<Event>, states: seq<Saved>) {
    && (booting <==> states == [])
    && (forall k :: 0 <= k < |states| ==> SavedOk(m, i, h, states[k]))
    && (forall a, b :: 0 <= a < b < |states| ==> Less(states[a].event, states[b].event))
  }

  /** The LP's state is the replay of its history, except between restoring and coasting forward. */
  ghost predicate StateOk(m: Model, i: nat, job: Job, h: seq<Event>, states: seq<Saved>, state: State) {
    if job.Busy? && job.stage.Cancelling? then
      states != [] && Saved(job.stage.restored, state) == states[|states| - 1]
    else state == StateOf(m, i, h)
  }

  ghost predicate CommittedOk(committed: seq<Event>, states: seq<Saved>) {
    forall c :: c in committed ==> states != [] && c.body.ts < states[0].event.body.ts
  }

  /** The recorded outputs, with what is still to be sent, are what the history sends. */
  ghost predicate OutputsOk(m: Model, i: nat, job: Job, h: seq<Event>, outs: seq<Output>) {
    Made(outs) + Unsent(m, i, job) == SendsOf(m, i, h)
  }

  /** Sends of this LP, in the order in which they were made. */
  ghost predicate Numbered(sent: seq<Event>, q: seq<Event>) {
    && (forall k :: 0 <= k < |q| ==> q[k].gen < |sent| && sent[q[k].gen] == q[k])
    && (forall a, b :: 0 <= a < b < |q| ==> q[a].gen < q[b].gen)
  }

  ghost predicate AntisOk(sent: seq<Event>, job: Job) {
    && Numbered(sent, Antis(job))
    && (forall a :: a in Antis(job) ==> a.body.ts > job.event.body.ts)
  }

  ghost predicate CommittedOutOk(committedOut: seq<Output>, lastCollect: nat) {
    forall o :: o in committedOut ==> o.input.body.ts < lastCollect
  }

  /** The messages still to be handled come from the model. */
  ghost predicate MsgsOk(m: Model, job: Job) {
    match job
    case Idle => true
    case Booting(msgs) => forall k :: 0 <= k < |msgs| ==> msgs[k].recv < m.n
    case Busy(_, e, stage) =>
      stage.Sending? ==>
        forall k :: 0 <= k < |stage.msgs| ==> stage.msgs[k].recv < m.n && stage.msgs[k].ts > e.body.ts
  }

  ghost predicate LocalOk(m: Model, i: nat, lp: LP) {
    var h := Replayed(History(lp), lp.job);
    && InputOk(i, lp.input)
    && HistoryOk(i, History(lp))
    && JobOk(lp.job, lp.input, History(lp))
    && SentHereOk(m, i, lp.generation, lp.sent)
    && SavedStatesOk(m, i, lp.job.Booting?, h, lp.states)
    && StateOk(m, i, lp.job, h, lp.states, lp.state)
    && CommittedOk(lp.committed, lp.states)
    && OutputsOk(m, i, lp.job, h, Outputs(lp))
    && Numbered(lp.sent, EventsOf(Outputs(lp)))
    && AntisOk(lp.sent, lp.job)
    && CommittedOutOk(lp.committedOut, lp.lastCollect)
    && MsgsOk(m, lp.job)
    && (lp.job.Booting? ==> lp.count == 0)
  }

  // ------------------------------------------------------------------------------------------
  // All LPs
  // ------------------------------------------------------------------------------------------

  ghost function LedgerOf(s: Sys): Ledger {
    Ledger(SentLists(s), Union(InputLists(s)), Union(HistoryLists(s)), s.net,
           Union(LiveLists(s)), Union(AntiLists(s)))
  }

  ghost function Union(F: seq<seq<Event>>): set<Event> {
    set k, x | 0 <= k < |F| && x in F[k] :: x
  }

  ghost function SentLists(s: Sys): seq<seq<Event>> {
    seq(|s.lps|, i requires 0 <= i < |s.lps| => s.lps[i].sent)
  }

  ghost function InputLists(s: Sys): seq<seq<Event>> {
    seq(|s.lps|, i requires 0 <= i < |s.lps| => s.lps[i].input)
  }

  ghost function HistoryLists(s: Sys): seq<seq<Event>> {
    seq(|s.lps|, i requires 0 <= i < |s.lps| => History(s.lps[i]))
  }

  ghost function LiveLists(s: Sys): seq<seq<Event>> {
    seq(|s.lps|, i requires 0 <= i < |s.lps| => EventsOf(Outputs(s.lps[i])))
  }

  ghost function AntiLists(s: Sys): seq<seq<Event>> {
    seq(|s.lps|, i requires 0 <= i < |s.lps| => Antis(s.lps[i].job))
  }

  /** An idle LP has exactly its least input event in its schedule queue, a busy LP has none. */
  ghost predicate SchedulingOk(m: Model, s: Sys) {
    && (forall i :: 0 <= i < |s.lps| ==> ScheduledOk(s.lps[i]) && s.lps[i].queue < m.schedulers)
    && (forall i :: 0 <= i < |s.lps| && !s.lps[i].job.Busy? && s.lps[i].scheduled.Some? ==>
          s.lps[i].scheduled.value in QueueOf(s, HomeOf(m, s, i)))
    && (forall q, x :: x in QueueOf(s, q) ==> QueuedOk(m, s, q, x))
    && (forall q :: Sorted(QueueOf(s, q)))
  }

  ghost predicate ScheduledOk(lp: LP) {
    lp.scheduled ==
      if lp.job.Busy? then Some(lp.job.event)
      else if lp.input == [] then None
      else Some(lp.input[0])
  }

  ghost predicate QueuedOk(m: Model, s: Sys, q: QueueId, x: Event) {
    && x.body.recv < |s.lps|
    && q == HomeOf(m, s, x.body.recv)
    && !s.lps[x.body.recv].job.Busy?
    && s.lps[x.body.recv].scheduled == Some(x)
  }

  /** Nothing unprocessed is before GVT, and fossil collection stayed behind it. */
  ghost predicate FloorOk(m: Model, s: Sys) {
    && AllAtLeast(s, s.floor)
    && (!Booted(s) ==> s.floor == 0)
    && (forall i :: 0 <= i < |s.lps| ==> CollectedOk(s.lps[i], s.floor))
  }

  ghost predicate CollectedOk(lp: LP, floor: nat) {
    && lp.lastCollect <= floor
    && (lp.states != [] ==> lp.states[0].event == INITIAL || lp.states[0].event.body.ts < lp.lastCollect)
  }

  ghost predicate Inv(m: Model, s: Sys) {
    && |s.lps| == m.n
    && (forall i :: 0 <= i < m.n ==> LocalOk(m, i, s.lps[i]))
    && Balanced(m.node, LedgerOf(s))
    && SchedulingOk(m, s)
    && FloorOk(m, s)
  }
}
