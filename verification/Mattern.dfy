/** The asynchronous GVT manager: Mattern's algorithm on a ring of processes.  A process colours its
    messages; a token collects how many messages of the old colour are still missing, the processes'
    local minima, and the least send of the new colour. */
module Mattern {
  import opened Events

  datatype Color = WHITE | RED

  function Other(c: Color): Color { if c == WHITE then RED else WHITE }

  datatype GvtState = IDLE | LOCAL | GLOBAL

  datatype Token = Token(receiver: nat, clock: nat, send: nat, count: int)

  datatype Message = Message(sender: nat, receiver: nat, ts: nat, color: Color)

  datatype Update = Update(receiver: nat, gvt: nat)

  /** The fields of a TimeWarpAsynchronousGVTManager that are not about worker threads. */
  datatype Manager = Manager(
    color: Color,
    initial: Color,
    white: int,             // white_msg_count_
    red: int,               // red_msg_count_
    minSend: nat,           // min_send_timestamp_
    minRecv: nat,           // min_recv_timestamp_
    clock: nat,             // global_min_clock_
    held: int,              // msg_count_
    state: GvtState,
    startedLocal: bool,
    startedGlobal: bool,
    gvt: nat)

  function Min(a: nat, b: nat): nat { if b < a then b else a }

  // ------------------------------------------------------------------------------------------
  // One manager
  // ------------------------------------------------------------------------------------------

  function CountOf(g: Manager, c: Color): int { if c == RED then g.red else g.white }

  function Counted(g: Manager, c: Color, delta: int): Manager {
    if c == RED then g.(red := g.red + delta) else g.(white := g.white + delta)
  }

  function SendEvent(g: Manager, ts: nat): Manager {
    var g' := Counted(g, g.color, 1);
    if g.color != g.initial then g'.(minSend := Min(g.minSend, ts)) else g'
  }

  function ReceiveEvent(g: Manager, ts: nat, color: Color): Manager {
    var g' := Counted(g, color, -1);
    if color == g.initial then g'.(minRecv := Min(g.minRecv, ts)) else g'
  }

  /** A computation begins here: from now on this process sends the new colour. */
  function Toggled(g: Manager): Manager {
    g.(minSend := UINT_MAX, minRecv := UINT_MAX, color := Other(g.color))
  }

  /** The count of the old colour goes to the token. */
  function Captured(g: Manager, count: int): Manager {
    Counted(g, g.initial, -CountOf(g, g.initial)).(held := CountOf(g, g.initial) + count)
  }

  /** progressGVT: the local computation begins */
  function Begin(g: Manager, id: nat): Manager {
    var g' := if id == 0 && !g.startedGlobal then Captured(Toggled(g), 0).(startedGlobal := true) else g;
    g'.(startedLocal := true)
  }

  /** sendMatternGVTToken: the token ... */
  function NewToken(g: Manager, id: nat, n: nat, localMin: nat): Token {
    var clock := if id == 0 then UINT_MAX else g.clock;
    Token(if id + 1 >= n then 0 else id + 1, Min(Min(g.minRecv, localMin), clock), g.minSend, g.held)
  }

  /** ... and the manager after it, or after a computation by a single process. */
  function Ended(g: Manager, id: nat, n: nat, localMin: nat): Manager {
    if n > 1 then g.(state := GLOBAL, startedLocal := false, clock := if id == 0 then UINT_MAX else g.clock)
    else g.(state := IDLE, startedLocal := false, gvt := localMin)
  }

  /** receiveMatternGVTToken: the initiator has everything it needs. */
  predicate Finishes(id: nat, k: Token) { id == 0 && k.count <= 0 }

  function ReceiveToken(g: Manager, id: nat, k: Token): Manager {
    if Finishes(id, k) then g.(state := GLOBAL, startedGlobal := false)
    else if id == 0 then
      Captured(g.(minSend := Min(k.send, g.minSend)), k.count).(state := LOCAL)
    else
      var g' := if g.color == g.initial then Toggled(g) else g;
      Captured(g'.(minSend := Min(k.send, g'.minSend), clock := Min(g.clock, k.clock)), k.count).(state := LOCAL)
  }

  function ReceiveUpdate(g: Manager, gvt: nat): Manager {
    g.(gvt := gvt, clock := UINT_MAX, initial := Other(g.initial), state := if g.state == GLOBAL then IDLE else g.state)
  }

  // ------------------------------------------------------------------------------------------
  // All processes
  // ------------------------------------------------------------------------------------------

  /** A process: its manager, the times of its unprocessed events, those of the events received since
      its local computation began, and the result of that computation. */
  datatype Node = Node(g: Manager, pending: set<nat>, got: set<nat>, result: Result)

  datatype Result = NotYet | Computed(min: nat)

  /** The last two components have no effect: `before` is the colour of the messages sent before the
      current computation (or the next one); late[i] counts those that process i received since it
      last gave its count to the token. */
  datatype Sys = Sys(nodes: seq<Node>, net: seq<Message>, tokens: seq<Token>, updates: set<Update>,
                     before: Color, late: seq<nat>)

  datatype Step =
    | Work(i: nat, pending: set<nat>)     // process, create, undo and cancel local events
    | Send(i: nat, j: nat, ts: nat)
    | Receive(i: nat, k: nat)             // any message may arrive next
    | GetReady(i: nat)                    // the GVT period is over
    | BeginLocal(i: nat)
    | EndLocal(i: nat, min: nat)          // every worker thread has reported
    | SendToken(i: nat)
    | TakeToken(i: nat)
    | TakeUpdate(i: nat, gvt: nat)

  /** Every element of a is at least as late as some element of b. */
  ghost predicate NotBefore(a: set<nat>, b: set<nat>) {
    forall x :: x in a ==> exists y :: y in b && y <= x
  }

  /** The workers' minimum bounds the unprocessed events, except for the consequences of what has
      arrived meanwhile. */
  ghost predicate Sound(d: Node, min: nat) {
    forall x :: x in d.pending ==> min <= x || exists y :: y in d.got && y <= x
  }

  ghost predicate Enabled(s: Sys, t: Step) {
    t.i < |s.nodes| == |s.late| &&
    var d := s.nodes[t.i];
    match t
    case Work(_, pending) => NotBefore(pending, d.pending)
    case Send(i, j, ts) => j < |s.nodes| && j != i && NotBefore({ts}, d.pending)
    case Receive(i, k) => k < |s.net| && s.net[k].receiver == i
    case GetReady(i) => i == 0 && d.g.state == IDLE
    case BeginLocal(_) => d.g.state == LOCAL && !d.g.startedLocal
    case EndLocal(_, min) => d.g.state == LOCAL && d.g.startedLocal && d.result == NotYet && min <= UINT_MAX && Sound(d, min)
    case SendToken(_) => d.g.state == LOCAL && d.g.startedLocal && d.result.Computed?
    case TakeToken(i) =>
      // an update is received before the next computation's token
      && s.tokens != [] && s.tokens[0].receiver == i
      && (forall u :: u in s.updates ==> u.receiver != i)
    case TakeUpdate(i, gvt) => Update(i, gvt) in s.updates
  }

  /** sendGVTUpdate: to all processes, the initiator included. */
  function UpdatesFor(n: nat, gvt: nat): (r: set<Update>)
    ensures forall u :: u in r <==> u.receiver < n && u.gvt == gvt
  {
    set j | 0 <= j < n :: Update(j, gvt)
  }

  function Changed(s: Sys, i: nat, d: Node): Sys
    requires i < |s.nodes|
  {
    s.(nodes := s.nodes[i := d])
  }

  function Apply(s: Sys, t: Step): Sys
    requires Enabled(s, t)
  {
    var i, n := t.i, |s.nodes|;
    var d := s.nodes[i];
    match t
    case Work(_, pending) => Changed(s, i, d.(pending := pending))
    case Send(_, j, ts) =>
      Changed(s, i, d.(g := SendEvent(d.g, ts))).(net := s.net + [Message(i, j, ts, d.g.color)])
    case Receive(_, k) =>
      var x := s.net[k];
      Changed(s, i, d.(g := ReceiveEvent(d.g, x.ts, x.color), pending := d.pending + {x.ts}, got := d.got + {x.ts}))
        .(net := s.net[..k] + s.net[k + 1..], late := if x.color == s.before then s.late[i := s.late[i] + 1] else s.late)
    case GetReady(_) => Changed(s, i, d.(g := d.g.(state := LOCAL)))
    case BeginLocal(_) =>
      Changed(s, i, d.(g := Begin(d.g, i), got := {}, result := NotYet))
        .(late := if i == 0 && !d.g.startedGlobal then s.late[i := 0] else s.late)
    case EndLocal(_, min) => Changed(s, i, d.(result := Computed(min)))
    case SendToken(_) =>
      var s' := Changed(s, i, d.(g := Ended(d.g, i, n, d.result.min), result := NotYet));
      if n > 1 then s'.(tokens := s.tokens + [NewToken(d.g, i, n, d.result.min)]) else s'
    case TakeToken(_) =>
      var k := s.tokens[0];
      var s' := Changed(s, i, d.(g := ReceiveToken(d.g, i, k))).(tokens := s.tokens[1..]);
      if Finishes(i, k) then
        s'.(updates := s.updates + UpdatesFor(n, Min(k.clock, k.send)), before := Other(s.before))
      else s'.(late := s.late[i := 0])
    case TakeUpdate(_, gvt) =>
      Changed(s, i, d.(g := ReceiveUpdate(d.g, gvt))).(updates := s.updates - {Update(i, gvt)})
  }

  /** The managers start white, and the messages of the initialization that are still in transit are
      counted; global_min_clock_ is not initialized. */
  ghost predicate Starts(s: Sys) {
    && s.tokens == [] && s.updates == {} && s.before == WHITE
    && (forall x :: x in s.net ==> x.color == WHITE && x.sender < |s.nodes| && x.receiver < |s.nodes|)
    && (|s.nodes| == 1 ==> s.net == [])
    && |s.late| == |s.nodes| && SumCounts(s.nodes, WHITE) == |s.net|
    && forall i :: 0 <= i < |s.nodes| ==> Fresh(s.nodes[i])
  }

  ghost predicate Fresh(d: Node) {
    && d.got == {} && d.result == NotYet
    && d.g == Manager(WHITE, WHITE, d.g.white, 0, UINT_MAX, UINT_MAX, d.g.clock, 0, IDLE, false, false, 0)
  }

  ghost predicate Next(s: Sys, t: Step, s': Sys) {
    Enabled(s, t) && s' == Apply(s, t)
  }

  ghost predicate Reaches(steps: seq<Step>, s: Sys) {
    if steps == [] then Starts(s)
    else
      var before, last := steps[..|steps| - 1], steps[|steps| - 1];
      exists r :: Reaches(before, r) && Next(r, last, s)
  }

  ghost predicate Reachable(s: Sys) {
    exists steps :: Reaches(steps, s)
  }

  // ------------------------------------------------------------------------------------------
  // Counting
  // ------------------------------------------------------------------------------------------

  function CountColor(net: seq<Message>, c: Color): (r: nat)
    ensures r == 0 <==> forall k :: 0 <= k < |net| ==> net[k].color != c
  {
    if net == [] then 0 else (if net[0].color == c then 1 else 0) + CountColor(net[1..], c)
  }

  lemma {:induction false} CountAppend(net: seq<Message>, x: Message, c: Color)
    ensures CountColor(net + [x], c) == CountColor(net, c) + (if x.color == c then 1 else 0)
  {
    if net == [] {
      assert [] + [x] == [x] && [x][1..] == [];
    } else {
      CountAppend(net[1..], x, c);
      assert (net + [x])[1..] == net[1..] + [x];
    }
  }

  lemma {:induction false} CountRemove(net: seq<Message>, k: nat, c: Color)
    requires k < |net|
    ensures CountColor(net[..k] + net[k + 1..], c) == CountColor(net, c) - (if net[k].color == c then 1 else 0)
  {
    if k == 0 {
      assert net[..0] + net[1..] == net[1..];
    } else {
      CountRemove(net[1..], k - 1, c);
      assert (net[..k] + net[k + 1..])[1..] == net[1..][..k - 1] + net[1..][k..];
    }
  }

  function SumCounts(nodes: seq<Node>, c: Color): int {
    if nodes == [] then 0 else CountOf(nodes[0].g, c) + SumCounts(nodes[1..], c)
  }

  lemma {:induction false} SumUpdate(nodes: seq<Node>, i: nat, d: Node, c: Color)
    requires i < |nodes|
    ensures SumCounts(nodes[i := d], c) == SumCounts(nodes, c) - CountOf(nodes[i].g, c) + CountOf(d.g, c)
  {
    if i == 0 {
      assert nodes[0 := d][1..] == nodes[1..];
    } else {
      SumUpdate(nodes[1..], i - 1, d, c);
      assert nodes[i := d][1..] == nodes[1..][i - 1 := d];
    }
  }

  function SumLate(late: seq<nat>): (r: nat)
    ensures r == 0 <==> forall i :: 0 <= i < |late| ==> late[i] == 0
  {
    if late == [] then 0 else late[0] + SumLate(late[1..])
  }

  lemma {:induction false} SumsCancel(nodes: seq<Node>, late: seq<nat>, c: Color)
    requires |nodes| == |late| && forall i :: 0 <= i < |nodes| ==> CountOf(nodes[i].g, c) == 0 - (late[i] as int)
    ensures SumCounts(nodes, c) == 0 - SumLate(late)
  {
    if nodes != [] {
      SumsCancel(nodes[1..], late[1..], c);
    }
  }

  // ------------------------------------------------------------------------------------------
  // The invariant
  // ------------------------------------------------------------------------------------------

  /** Where the token is; a process holds it while it computes its local minimum. */
  datatype Place = Nowhere | Holding(i: nat) | Flying(i: nat)

  /** Process j has passed the token on in this circulation. */
  predicate Passed(p: Place, j: nat) {
    match p
    case Nowhere => false
    case Holding(i) => j < i
    case Flying(i) => i == 0 || j < i
  }

  /** Process j has given its count to the token in this circulation. */
  predicate Gave(p: Place, j: nat) {
    Passed(p, j) || p == Holding(j)
  }

  predicate Toggled?(s: Sys, j: nat)
    requires j < |s.nodes|
  {
    s.nodes[j].g.color != s.before
  }

  ghost predicate PlaceOk(s: Sys, p: Place)
    requires s.nodes != []
  {
    && (forall j :: 0 <= j < |s.nodes| && p != Holding(j) ==>
          !s.nodes[j].g.startedLocal && (s.nodes[j].g.state == LOCAL ==> j == 0 && p == Nowhere))
    && (s.nodes[0].g.startedGlobal <==> p != Nowhere)
    && (p != Nowhere ==> s.nodes[0].g.state != IDLE)
    && (p != Nowhere || s.nodes[0].g.state != GLOBAL ==> !Waiting(s.updates, 0))
    && match p
       case Nowhere => s.tokens == []
       case Holding(i) => i < |s.nodes| && s.tokens == [] && s.nodes[i].g.state == LOCAL
       case Flying(i) => i < |s.nodes| && |s.tokens| == 1 && s.tokens[0].receiver == i
  }

  /** An update for process j is on its way. */
  ghost predicate Waiting(updates: set<Update>, j: nat) {
    exists u :: u in updates && u.receiver == j
  }

  ghost predicate ColorOk(g: Manager, before: Color, p: Place, gave: bool, waiting: bool) {
    && (p == Nowhere ==> g.color == before)
    && (gave ==> g.color != before)
    && (g.color != before ==> !waiting)
    && (g.initial == before <==> !waiting)
  }

  ghost predicate ColorsOk(s: Sys, p: Place) {
    && (forall j :: 0 <= j < |s.nodes| ==>
          ColorOk(s.nodes[j].g, s.before, p, Gave(p, j), Waiting(s.updates, j)))
    && (forall u, v :: u in s.updates && v in s.updates && u.receiver == v.receiver ==> u == v)
  }

  ghost function Carried(s: Sys, p: Place): int
    requires s.nodes != [] && PlaceOk(s, p)
  {
    match p
    case Nowhere => 0
    case Holding(i) => s.nodes[i].g.held
    case Flying(_) => s.tokens[0].count
  }

  ghost predicate CountsOk(s: Sys, carried: int) {
    && |s.late| == |s.nodes|
    && (forall j :: 0 <= j < |s.nodes| && Toggled?(s, j) ==> CountOf(s.nodes[j].g, s.before) == 0 - (s.late[j] as int))
    && SumCounts(s.nodes, s.before) + carried == CountColor(s.net, s.before)
    && SumCounts(s.nodes, Other(s.before)) == CountColor(s.net, Other(s.before))
  }

  /** A message of the new colour was noted by its sender. */
  ghost predicate NetOk(s: Sys) {
    forall x :: x in s.net ==>
      && x.sender < |s.nodes|
      && (x.color != s.before ==> Toggled?(s, x.sender) && s.nodes[x.sender].g.minSend <= x.ts)
  }

  /** The minimum that will come out of this circulation is at most x. */
  ghost predicate Covered(s: Sys, p: Place, x: nat) {
    || (p.Flying? && s.tokens != [] && (s.tokens[0].clock <= x || s.tokens[0].send <= x))
    || (p.Holding? && 0 < p.i < |s.nodes| && s.nodes[p.i].g.clock <= x)
    || exists j :: 0 <= j < |s.nodes| && !Passed(p, j) && Toggled?(s, j) && s.nodes[j].g.minSend <= x
  }

  /** No message of the old colour arrived too late to be counted in this circulation. */
  ghost predicate Clean(s: Sys, p: Place) {
    forall j :: 0 <= j < |s.nodes| && j < |s.late| && Gave(p, j) ==> s.late[j] == 0
  }

  ghost predicate BoundOk(s: Sys, p: Place) {
    && (forall j, x :: 0 <= j < |s.nodes| && Passed(p, j) && x in s.nodes[j].pending ==> Covered(s, p, x))
    && (forall m :: m in s.net && m.color != s.before ==> Covered(s, p, m.ts))
    && (p.Holding? && p.i < |s.nodes| && s.nodes[p.i].g.startedLocal ==> HolderOk(s, p, s.nodes[p.i]))
  }

  ghost predicate HolderOk(s: Sys, p: Place, d: Node) {
    && (forall y :: y in d.got ==> Covered(s, p, y))
    && (d.result.Computed? ==> forall x :: x in d.pending ==> d.result.min <= x || Covered(s, p, x))
  }

  /** Time g is at most every unprocessed event and every message in transit. */
  ghost predicate AllAtLeast(s: Sys, g: nat) {
    && (forall j, x :: 0 <= j < |s.nodes| && x in s.nodes[j].pending ==> g <= x)
    && (forall m :: m in s.net ==> g <= m.ts)
  }

  ghost predicate PublishedOk(s: Sys) {
    && (forall u :: u in s.updates ==> AllAtLeast(s, u.gvt))
    && (forall j :: 0 <= j < |s.nodes| ==> AllAtLeast(s, s.nodes[j].g.gvt))
  }

  ghost predicate Inv(s: Sys, p: Place) {
    && |s.nodes| > 1
    && PlaceOk(s, p)
    && ColorsOk(s, p)
    && CountsOk(s, Carried(s, p))
    && NetOk(s)
    && (p != Nowhere && Clean(s, p) ==> BoundOk(s, p))
    && PublishedOk(s)
  }

  function Moves(s: Sys, t: Step, p: Place): Place
    requires t.i < |s.nodes|
  {
    match t
    case BeginLocal(i) => if i == 0 && !s.nodes[0].g.startedGlobal then Holding(0) else p
    case SendToken(i) => Flying(if i + 1 >= |s.nodes| then 0 else i + 1)
    case TakeToken(i) => if s.tokens != [] && Finishes(i, s.tokens[0]) then Nowhere else Holding(i)
    case _ => p
  }

  // ------------------------------------------------------------------------------------------
  // Every step keeps it
  // ------------------------------------------------------------------------------------------

  lemma TokenStepKeepsPlace(s: Sys, t: Step, p: Place)
    requires |s.nodes| > 1 && PlaceOk(s, p) && ColorsOk(s, p) && Enabled(s, t)
    requires t.BeginLocal? || t.SendToken? || t.TakeToken?
    ensures |Apply(s, t).nodes| == |s.nodes|
    ensures PlaceOk(Apply(s, t), Moves(s, t, p))
  {
    hide NotBefore, Sound;
  }

  lemma OtherStepsKeepPlace(s: Sys, t: Step, p: Place)
    requires |s.nodes| > 1 && PlaceOk(s, p) && Enabled(s, t)
    requires !t.BeginLocal? && !t.SendToken? && !t.TakeToken? && !t.TakeUpdate?
    ensures |Apply(s, t).nodes| == |s.nodes|
    ensures PlaceOk(Apply(s, t), p)
  {
    hide NotBefore, Sound, Waiting;
  }

  lemma UpdateKeepsPlace(s: Sys, i: nat, gvt: nat, p: Place)
    requires |s.nodes| > 1 && PlaceOk(s, p) && ColorsOk(s, p) && Enabled(s, TakeUpdate(i, gvt))
    ensures |Apply(s, TakeUpdate(i, gvt)).nodes| == |s.nodes|
    ensures PlaceOk(Apply(s, TakeUpdate(i, gvt)), p)
  {
    assert Waiting(s.updates, i);
  }

  lemma StepKeepsPlace(s: Sys, t: Step, p: Place)
    requires |s.nodes| > 1 && PlaceOk(s, p) && ColorsOk(s, p) && Enabled(s, t)
    ensures |Apply(s, t).nodes| == |s.nodes|
    ensures PlaceOk(Apply(s, t), Moves(s, t, p))
  {
    hide PlaceOk, ColorsOk, Apply, Enabled;
    if t.BeginLocal? || t.SendToken? || t.TakeToken? {
      TokenStepKeepsPlace(s, t, p);
    } else if t.TakeUpdate? {
      UpdateKeepsPlace(s, t.i, t.gvt, p);
    } else {
      OtherStepsKeepPlace(s, t, p);
    }
  }

  lemma FinishKeepsColors(s: Sys)
    requires |s.nodes| > 1 && PlaceOk(s, Flying(0)) && ColorsOk(s, Flying(0))
    requires Enabled(s, TakeToken(0)) && Finishes(0, s.tokens[0])
    ensures |Apply(s, TakeToken(0)).nodes| == |s.nodes|
    ensures ColorsOk(Apply(s, TakeToken(0)), Nowhere)
  {
    var gvt := Min(s.tokens[0].clock, s.tokens[0].send);
    forall j | 0 <= j < |s.nodes|
      ensures Waiting(s.updates + UpdatesFor(|s.nodes|, gvt), j)
    {
      assert Update(j, gvt) in s.updates + UpdatesFor(|s.nodes|, gvt);
    }
    forall u | u in s.updates
      ensures u.receiver >= |s.nodes|
    {
      assert Waiting(s.updates, u.receiver);
    }
  }

  /** No update is on its way when a computation begins or the token moves. */
  lemma TokenStepKeepsColors(s: Sys, t: Step, p: Place)
    requires |s.nodes| > 1 && PlaceOk(s, p) && ColorsOk(s, p) && Enabled(s, t)
    requires t.BeginLocal? || t.SendToken? || (t.TakeToken? && !Finishes(t.i, s.tokens[0]))
    ensures |Apply(s, t).nodes| == |s.nodes|
    ensures ColorsOk(Apply(s, t), Moves(s, t, p))
  {
    hide NotBefore, Sound;
  }

  lemma UpdateKeepsColors(s: Sys, i: nat, gvt: nat, p: Place)
    requires |s.nodes| > 1 && PlaceOk(s, p) && ColorsOk(s, p) && Enabled(s, TakeUpdate(i, gvt))
    ensures |Apply(s, TakeUpdate(i, gvt)).nodes| == |s.nodes|
    ensures ColorsOk(Apply(s, TakeUpdate(i, gvt)), p)
  {
    var updates := s.updates - {Update(i, gvt)};
    forall j | 0 <= j < |s.nodes|
      ensures Waiting(updates, j) <==> Waiting(s.updates, j) && j != i
    {
      if Waiting(s.updates, j) && j != i {
        var u :| u in s.updates && u.receiver == j;
        assert u in updates;
      }
    }
    assert Waiting(s.updates, i);
  }

  lemma OtherStepsKeepColors(s: Sys, t: Step, p: Place)
    requires |s.nodes| > 1 && ColorsOk(s, p) && Enabled(s, t)
    requires !t.BeginLocal? && !t.SendToken? && !t.TakeToken? && !t.TakeUpdate?
    ensures |Apply(s, t).nodes| == |s.nodes|
    ensures ColorsOk(Apply(s, t), p)
  {
    hide NotBefore, Sound;
  }

  lemma StepKeepsColors(s: Sys, t: Step, p: Place)
    requires |s.nodes| > 1 && PlaceOk(s, p) && ColorsOk(s, p) && Enabled(s, t)
    ensures |Apply(s, t).nodes| == |s.nodes|
    ensures ColorsOk(Apply(s, t), Moves(s, t, p))
  {
    hide NotBefore, Sound, Apply, ColorsOk;
    match t
    case TakeToken(i) =>
      if Finishes(i, s.tokens[0]) {
        FinishKeepsColors(s);
      } else {
        TokenStepKeepsColors(s, t, p);
      }
    case BeginLocal(_) => TokenStepKeepsColors(s, t, p);
    case SendToken(_) => TokenStepKeepsColors(s, t, p);
    case TakeUpdate(i, gvt) => UpdateKeepsColors(s, i, gvt, p);
    case _ => OtherStepsKeepColors(s, t, p);
  }

  /** What an update of one process does to the sums. */
  lemma SumsAfter(nodes: seq<Node>, i: nat, d: Node, c: Color)
    requires i < |nodes|
    ensures SumCounts(nodes[i := d], c) == SumCounts(nodes, c) - CountOf(nodes[i].g, c) + CountOf(d.g, c)
    ensures SumCounts(nodes[i := d], Other(c)) ==
            SumCounts(nodes, Other(c)) - CountOf(nodes[i].g, Other(c)) + CountOf(d.g, Other(c))
  {
    hide SumCounts;
    SumUpdate(nodes, i, d, c);
    SumUpdate(nodes, i, d, Other(c));
  }

  lemma SendKeepsCounts(s: Sys, i: nat, j: nat, ts: nat, carried: int)
    requires CountsOk(s, carried) && Enabled(s, Send(i, j, ts))
    ensures CountsOk(Apply(s, Send(i, j, ts)), carried)
  {
    hide SumCounts, CountColor, NotBefore;
    var d := s.nodes[i];
    SumsAfter(s.nodes, i, d.(g := SendEvent(d.g, ts)), s.before);
    CountAppend(s.net, Message(i, j, ts, d.g.color), s.before);
    CountAppend(s.net, Message(i, j, ts, d.g.color), Other(s.before));
  }

  lemma ReceiveKeepsCounts(s: Sys, i: nat, k: nat, carried: int)
    requires CountsOk(s, carried) && Enabled(s, Receive(i, k))
    ensures CountsOk(Apply(s, Receive(i, k)), carried)
  {
    hide SumCounts, CountColor;
    var d, x := s.nodes[i], s.net[k];
    SumsAfter(s.nodes, i, d.(g := ReceiveEvent(d.g, x.ts, x.color), pending := d.pending + {x.ts}, got := d.got + {x.ts}), s.before);
    CountRemove(s.net, k, s.before);
    CountRemove(s.net, k, Other(s.before));
  }

  /** A process that gives its count to the token has none left, and nothing was late. */
  lemma CaptureKeepsCounts(s: Sys, s': Sys, i: nat, d: Node, carried: int, held: int)
    requires CountsOk(s, carried) && i < |s.nodes|
    requires CountOf(d.g, s.before) == 0 && held == CountOf(s.nodes[i].g, s.before) + carried
    requires CountOf(d.g, Other(s.before)) == CountOf(s.nodes[i].g, Other(s.before))
    requires s'.nodes == s.nodes[i := d] && s'.net == s.net && s'.before == s.before && s'.late == s.late[i := 0]
    ensures CountsOk(s', held)
  {
    hide SumCounts, CountColor;
    SumsAfter(s.nodes, i, d, s.before);
  }

  lemma QuietChangeKeepsCounts(s: Sys, s': Sys, i: nat, d: Node, carried: int)
    requires CountsOk(s, carried) && i < |s.nodes|
    requires d.g.color == s.nodes[i].g.color && d.g.white == s.nodes[i].g.white && d.g.red == s.nodes[i].g.red
    requires s'.nodes == s.nodes[i := d] && s'.net == s.net && s'.before == s.before && s'.late == s.late
    ensures CountsOk(s', carried)
  {
    hide SumCounts, CountColor;
    SumsAfter(s.nodes, i, d, s.before);
  }

  /** When the token is back, the count says exactly how many messages of the old colour the
      processes' captures missed: those in transit, and those that arrived after a capture. */
  lemma BackCountIsExact(s: Sys, carried: int)
    requires CountsOk(s, carried) && forall j :: 0 <= j < |s.nodes| ==> Toggled?(s, j)
    ensures carried == CountColor(s.net, s.before) + SumLate(s.late)
  {
    SumsCancel(s.nodes, s.late, s.before);
  }

  lemma FinishKeepsCounts(s: Sys)
    requires s.tokens != [] && CountsOk(s, s.tokens[0].count) && Enabled(s, TakeToken(0)) && Finishes(0, s.tokens[0])
    requires forall j :: 0 <= j < |s.nodes| ==> Toggled?(s, j)
    ensures CountsOk(Apply(s, TakeToken(0)), 0)
    ensures forall k :: 0 <= k < |s.net| ==> s.net[k].color != s.before
    ensures forall j :: 0 <= j < |s.nodes| ==> s.late[j] == 0
  {
    BackCountIsExact(s, s.tokens[0].count);
    hide SumCounts;
    var s' := Apply(s, TakeToken(0));
    var c := s.before;
    SumsAfter(s.nodes, 0, s'.nodes[0], c);
    assert s'.before == Other(c) && Other(s'.before) == c;
    forall j | 0 <= j < |s.nodes|
      ensures !Toggled?(s', j)
    {
      assert Toggled?(s, j);
    }
  }

  // ------------------------------------------------------------------------------------------
  // Bounds
  // ------------------------------------------------------------------------------------------

  /** A change to process i that neither sends nor gives the token anything leaves NetOk alone. */
  lemma StepKeepsNet(s: Sys, t: Step, p: Place)
    requires |s.nodes| > 1 && ColorsOk(s, p) && PlaceOk(s, p) && NetOk(s) && Enabled(s, t)
    requires t.TakeToken? && Finishes(t.i, s.tokens[0]) ==> forall k :: 0 <= k < |s.net| ==> s.net[k].color != s.before
    ensures NetOk(Apply(s, t))
  {
    hide NotBefore, Sound;
    var s' := Apply(s, t);
    forall x | x in s'.net
      ensures x.sender < |s.nodes| && (x.color != s'.before ==> Toggled?(s', x.sender) && s'.nodes[x.sender].g.minSend <= x.ts)
    {
      if t.Send? && x == Message(t.i, t.j, t.ts, s.nodes[t.i].g.color) {
      } else {
        assert x in s.net;
      }
    }
  }

  lemma CoveredIsUpward(s: Sys, p: Place, x: nat, y: nat)
    requires Covered(s, p, x) && x <= y
    ensures Covered(s, p, y)
  {
  }

  /** What covers a time before a step covers it afterwards, within one circulation. */
  lemma TokenStepKeepsCovered(s: Sys, t: Step, p: Place, x: nat)
    requires |s.nodes| > 1 && PlaceOk(s, p) && ColorsOk(s, p) && Enabled(s, t) && p != Nowhere
    requires t.SendToken? || (t.TakeToken? && t.i != 0)
    requires Covered(s, p, x)
    ensures Covered(Apply(s, t), Moves(s, t, p), x)
  {
    hide NotBefore, Sound;
    var s' := Apply(s, t);
    if j :| 0 <= j < |s.nodes| && !Passed(p, j) && Toggled?(s, j) && s.nodes[j].g.minSend <= x {
      assert Toggled?(s', j) && s'.nodes[j].g.minSend <= s.nodes[j].g.minSend;
    }
    if t.TakeToken? {
      assert Toggled?(s', t.i);
    }
  }

  lemma OtherStepsKeepCovered(s: Sys, t: Step, p: Place, x: nat)
    requires |s.nodes| > 1 && PlaceOk(s, p) && ColorsOk(s, p) && Enabled(s, t) && p != Nowhere
    requires !t.SendToken? && !t.TakeToken?
    requires Covered(s, p, x)
    ensures Covered(Apply(s, t), Moves(s, t, p), x)
  {
    hide NotBefore, Sound;
    var s' := Apply(s, t);
    assert s'.before == s.before && s'.tokens == s.tokens && Moves(s, t, p) == p;
    assert p.Holding? && t.TakeUpdate? ==> t.i != p.i;
    hide PlaceOk, ColorsOk;
    if j :| 0 <= j < |s.nodes| && !Passed(p, j) && Toggled?(s, j) && s.nodes[j].g.minSend <= x {
      assert Toggled?(s', j) && s'.nodes[j].g.minSend <= s.nodes[j].g.minSend;
    }
  }

  lemma CoveredPersists(s: Sys, t: Step, p: Place, x: nat)
    requires |s.nodes| > 1 && PlaceOk(s, p) && ColorsOk(s, p) && Enabled(s, t) && p != Nowhere
    requires !t.TakeToken? || t.i != 0
    requires Covered(s, p, x)
    ensures Covered(Apply(s, t), Moves(s, t, p), x)
  {
    hide PlaceOk, ColorsOk, Covered, Moves, Apply;
    if t.SendToken? || t.TakeToken? {
      TokenStepKeepsCovered(s, t, p, x);
    } else {
      OtherStepsKeepCovered(s, t, p, x);
    }
  }

  /** Messages that arrive late stay late until the token has come round. */
  lemma CleanBefore(s: Sys, t: Step, p: Place)
    requires |s.nodes| > 1 && |s.late| == |s.nodes| && PlaceOk(s, p) && Enabled(s, t) && p != Nowhere
    requires !t.TakeToken? || t.i != 0
    requires Clean(Apply(s, t), Moves(s, t, p))
    ensures Clean(s, p)
  {
    hide NotBefore, Sound;
    var s' := Apply(s, t);
    forall j | 0 <= j < |s.nodes| && Gave(p, j)
      ensures s.late[j] == 0
    {
      assert s'.late[j] >= s.late[j];
    }
  }

  ghost predicate Ready(s: Sys, t: Step, p: Place) {
    && |s.nodes| > 1 && |s.late| == |s.nodes| && PlaceOk(s, p) && ColorsOk(s, p) && NetOk(s)
    && Enabled(s, t)
    && (p != Nowhere && Clean(s, p) ==> BoundOk(s, p))
  }

  /** Work, sends and arrivals at a process stay behind what covers its events. */
  lemma WorkKeepsBound(s: Sys, i: nat, pending: set<nat>, p: Place)
    requires Ready(s, Work(i, pending), p) && p != Nowhere && BoundOk(s, p)
    ensures BoundOk(Apply(s, Work(i, pending)), p)
  {
    hide Covered, PlaceOk, ColorsOk, NetOk;
    var t := Work(i, pending);
    var s' := Apply(s, t);
    CoveredStays(s, t, p);
    forall x | x in pending && (Passed(p, i) || p == Holding(i))
      ensures Passed(p, i) ==> Covered(s', p, x)
      ensures s.nodes[i].g.startedLocal && p == Holding(i) && s.nodes[i].result.Computed? ==>
                s.nodes[i].result.min <= x || Covered(s', p, x)
    {
      var y :| y in s.nodes[i].pending && y <= x;
      if Covered(s, p, y) {
        CoveredIsUpward(s', p, y, x);
      }
    }
    forall j, x | 0 <= j < |s'.nodes| && Passed(p, j) && x in s'.nodes[j].pending
      ensures Covered(s', p, x)
    {
      if j == i {
        assert x in pending;
      } else {
        assert x in s.nodes[j].pending;
        assert Covered(s, p, x);
      }
    }
  }

  lemma CoveredStays(s: Sys, t: Step, p: Place)
    requires |s.nodes| > 1 && PlaceOk(s, p) && ColorsOk(s, p) && Enabled(s, t) && p != Nowhere
    requires !t.TakeToken? || t.i != 0
    ensures forall x :: Covered(s, p, x) ==> Covered(Apply(s, t), Moves(s, t, p), x)
  {
    hide Covered, PlaceOk, ColorsOk, Apply, Moves;
    forall x | Covered(s, p, x)
      ensures Covered(Apply(s, t), Moves(s, t, p), x)
    {
      CoveredPersists(s, t, p, x);
    }
  }

  lemma SendKeepsBound(s: Sys, i: nat, j: nat, ts: nat, p: Place)
    requires Ready(s, Send(i, j, ts), p) && p != Nowhere && BoundOk(s, p)
    ensures BoundOk(Apply(s, Send(i, j, ts)), p)
  {
    hide Covered, PlaceOk, NetOk;
    var t := Send(i, j, ts);
    var s' := Apply(s, t);
    CoveredStays(s, t, p);
    if s.nodes[i].g.color != s.before {
      assert ts in {ts};
      var y :| y in s.nodes[i].pending && y <= ts;
      if Passed(p, i) {
        assert Covered(s, p, y);
        CoveredIsUpward(s', p, y, ts);
      } else {
        SenderCovers(s, i, j, ts, p);
      }
    }
    forall m | m in s'.net && m.color != s.before
      ensures Covered(s', p, m.ts)
    {
      assert m in s.net || m == Message(i, j, ts, s.nodes[i].g.color);
    }
    forall k, x | 0 <= k < |s'.nodes| && Passed(p, k) && x in s'.nodes[k].pending
      ensures Covered(s', p, x)
    {
      assert x in s.nodes[k].pending;
      assert Covered(s, p, x);
    }
  }

  lemma SenderCovers(s: Sys, i: nat, j: nat, ts: nat, p: Place)
    requires |s.nodes| > 1 && ColorsOk(s, p) && Enabled(s, Send(i, j, ts)) && Toggled?(s, i) && !Passed(p, i)
    ensures Covered(Apply(s, Send(i, j, ts)), p, ts)
  {
    hide NotBefore;
    var s' := Apply(s, Send(i, j, ts));
    assert Toggled?(s', i) && s'.nodes[i].g.minSend <= ts;
  }

  lemma ReceiveKeepsBound(s: Sys, i: nat, k: nat, p: Place)
    requires Ready(s, Receive(i, k), p) && p != Nowhere && BoundOk(s, p)
    requires Clean(Apply(s, Receive(i, k)), p)
    ensures BoundOk(Apply(s, Receive(i, k)), p)
  {
    hide Covered, PlaceOk, NetOk;
    var t := Receive(i, k);
    var s' := Apply(s, t);
    CoveredStays(s, t, p);
    assert s.net[k] in s.net;
    if Gave(p, i) {
      assert s'.late[i] == 0;
      assert s.net[k].color != s.before;
      assert Covered(s', p, s.net[k].ts);
    }
    forall j, x | 0 <= j < |s'.nodes| && Passed(p, j) && x in s'.nodes[j].pending
      ensures Covered(s', p, x)
    {
      assert x in s.nodes[j].pending || (j == i && x == s.net[k].ts);
      assert x in s.nodes[j].pending ==> Covered(s, p, x);
    }
    assert forall m :: m in s'.net ==> m in s.net;
  }

  lemma LocalKeepsBound(s: Sys, t: Step, p: Place)
    requires Ready(s, t, p) && p != Nowhere && BoundOk(s, p)
    requires t.GetReady? || t.BeginLocal? || t.EndLocal? || t.TakeUpdate?
    ensures BoundOk(Apply(s, t), Moves(s, t, p))
  {
    hide Covered, NetOk;
    CoveredStays(s, t, p);
    if t.EndLocal? {
      forall x | x in s.nodes[t.i].pending
        ensures t.min <= x || Covered(s, p, x)
      {
        if y :| y in s.nodes[t.i].got && y <= x {
          CoveredIsUpward(s, p, y, x);
        }
      }
    }
  }

  lemma BeginGlobalKeepsBound(s: Sys)
    requires Ready(s, BeginLocal(0), Nowhere) && !s.nodes[0].g.startedGlobal
    ensures BoundOk(Apply(s, BeginLocal(0)), Holding(0))
  {
    hide Covered;
    forall m | m in s.net
      ensures m.color == s.before
    {
      assert !Toggled?(s, m.sender);
    }
  }

  lemma SendTokenKeepsBound(s: Sys, i: nat, p: Place)
    requires Ready(s, SendToken(i), p) && p != Nowhere && BoundOk(s, p)
    ensures BoundOk(Apply(s, SendToken(i)), Moves(s, SendToken(i), p))
  {
    var t := SendToken(i);
    var s', p' := Apply(s, t), Moves(s, t, p);
    CoveredStays(s, t, p);
    assert p == Holding(i);
    assert forall x :: s.nodes[i].result.min <= x ==> Covered(s', p', x);
    hide Covered, NetOk, ColorsOk;
  }

  lemma TakeTokenKeepsBound(s: Sys, i: nat, p: Place)
    requires Ready(s, TakeToken(i), p) && p != Nowhere && BoundOk(s, p) && i != 0
    ensures BoundOk(Apply(s, TakeToken(i)), Moves(s, TakeToken(i), p))
  {
    CoveredStays(s, TakeToken(i), p);
    assert p == Flying(i);
    hide Covered, NetOk, ColorsOk;
  }

  /** A new circulation begins: nobody has passed the token, and the senders cover the messages. */
  lemma NextRoundKeepsBound(s: Sys, p: Place)
    requires Ready(s, TakeToken(0), p) && p != Nowhere && !Finishes(0, s.tokens[0])
    ensures BoundOk(Apply(s, TakeToken(0)), Holding(0))
  {
    assert p == Flying(0);
    var s' := Apply(s, TakeToken(0));
    forall m | m in s.net && m.color != s.before
      ensures Covered(s', Holding(0), m.ts)
    {
      assert Toggled?(s', m.sender) && s'.nodes[m.sender].g.minSend <= m.ts;
    }
  }

  lemma StepKeepsBound(s: Sys, t: Step, p: Place)
    requires Ready(s, t, p)
    ensures var s', p' := Apply(s, t), Moves(s, t, p);
            p' != Nowhere && Clean(s', p') ==> BoundOk(s', p')
  {
    hide PlaceOk, ColorsOk, NetOk, Apply, BoundOk, Clean;
    var s', p' := Apply(s, t), Moves(s, t, p);
    if p' != Nowhere && Clean(s', p') {
      MovesBetween(s, t, p);
      if t == TakeToken(0) {
        NextRoundKeepsBound(s, p);
      } else if p == Nowhere {
        BeginGlobalKeepsBound(s);
      } else {
        CleanBefore(s, t, p);
        match t
        case Work(i, pending) => WorkKeepsBound(s, i, pending, p);
        case Send(i, j, ts) => SendKeepsBound(s, i, j, ts, p);
        case Receive(i, k) => ReceiveKeepsBound(s, i, k, p);
        case SendToken(i) => SendTokenKeepsBound(s, i, p);
        case TakeToken(i) => TakeTokenKeepsBound(s, i, p);
        case _ => LocalKeepsBound(s, t, p);
      }
    }
  }

  lemma MovesBetween(s: Sys, t: Step, p: Place)
    requires |s.nodes| > 1 && PlaceOk(s, p) && Enabled(s, t)
    ensures p == Nowhere && Moves(s, t, p) != Nowhere ==> t == BeginLocal(0) && !s.nodes[0].g.startedGlobal
    ensures t.TakeToken? ==> p == Flying(t.i)
    ensures t.SendToken? ==> p == Holding(t.i)
  {
    hide NotBefore, Sound;
  }

  // ------------------------------------------------------------------------------------------
  // Theorems
  // ------------------------------------------------------------------------------------------

  /** What bounds everything keeps bounding everything, whatever the processes do. */
  lemma BoundLasts(s: Sys, t: Step, g: nat)
    requires AllAtLeast(s, g) && Enabled(s, t)
    ensures AllAtLeast(Apply(s, t), g)
  {
    hide Sound;
    if t.Receive? {
      assert s.net[t.k] in s.net;
    }
    if t.Send? {
      assert t.ts in {t.ts};
    }
  }

  /** The GVT that comes out when the initiator finishes is a lower bound. */
  lemma ResultIsBound(s: Sys)
    requires Ready(s, TakeToken(0), Flying(0)) && CountsOk(s, s.tokens[0].count) && Finishes(0, s.tokens[0])
    ensures AllAtLeast(s, Min(s.tokens[0].clock, s.tokens[0].send)) && s.tokens[0].count == 0
    ensures forall k :: 0 <= k < |s.net| ==> s.net[k].color != s.before
  {
    hide PlaceOk, NetOk, CountsOk, NotBefore, Sound;
    AllToggled(s);
    FinishKeepsCounts(s);
    BackCountIsExact(s, s.tokens[0].count);
    assert Clean(s, Flying(0));
    forall m | m in s.net
      ensures m.color != s.before
    {
      var k :| 0 <= k < |s.net| && s.net[k] == m;
    }
    var gvt := Min(s.tokens[0].clock, s.tokens[0].send);
    assert forall x :: Covered(s, Flying(0), x) ==> gvt <= x;
    forall j, x | 0 <= j < |s.nodes| && x in s.nodes[j].pending
      ensures gvt <= x
    {
      assert Passed(Flying(0), j) && BoundOk(s, Flying(0));
      assert Covered(s, Flying(0), x);
    }
  }

  lemma AllToggled(s: Sys)
    requires ColorsOk(s, Flying(0))
    ensures forall j :: 0 <= j < |s.nodes| ==> Toggled?(s, j)
  {
  }

  lemma StepKeepsPublished(s: Sys, t: Step, p: Place)
    requires Ready(s, t, p) && CountsOk(s, Carried(s, p)) && PublishedOk(s)
    ensures PublishedOk(Apply(s, t))
  {
    hide AllAtLeast, NotBefore, Sound, CountsOk, BoundOk, Clean, NetOk, ColorsOk;
    var s' := Apply(s, t);
    if t.TakeToken? && Finishes(t.i, s.tokens[0]) {
      ResultIsBound(s);
    }
    forall g | AllAtLeast(s, g)
      ensures AllAtLeast(s', g)
    {
      BoundLasts(s, t, g);
    }
  }

  lemma StepKeepsCounts(s: Sys, t: Step, p: Place)
    requires |s.nodes| > 1 && PlaceOk(s, p) && ColorsOk(s, p) && CountsOk(s, Carried(s, p)) && Enabled(s, t)
    requires PlaceOk(Apply(s, t), Moves(s, t, p))
    ensures CountsOk(Apply(s, t), Carried(Apply(s, t), Moves(s, t, p)))
  {
    hide CountsOk, NotBefore, Sound;
    var i := t.i;
    var d, s', carried := s.nodes[i], Apply(s, t), Carried(s, p);
    match t
    case Send(_, j, ts) => SendKeepsCounts(s, i, j, ts, carried);
    case Receive(_, k) => ReceiveKeepsCounts(s, i, k, carried);
    case TakeToken(_) =>
      if Finishes(i, s.tokens[0]) {
        AllToggled(s);
        FinishKeepsCounts(s);
      } else {
        CaptureKeepsCounts(s, s', i, s'.nodes[i], carried, s'.nodes[i].g.held);
      }
    case BeginLocal(_) =>
      if i == 0 && !d.g.startedGlobal {
        CaptureKeepsCounts(s, s', i, s'.nodes[i], carried, s'.nodes[i].g.held);
      } else {
        QuietChangeKeepsCounts(s, s', i, s'.nodes[i], carried);
      }
    case _ => QuietChangeKeepsCounts(s, s', i, s'.nodes[i], carried);
  }

  lemma StepKeepsInv(s: Sys, t: Step, p: Place)
    requires Inv(s, p) && Enabled(s, t)
    ensures Inv(Apply(s, t), Moves(s, t, p))
  {
    hide PlaceOk, ColorsOk, CountsOk, NetOk, BoundOk, Clean, PublishedOk, Apply;
    CountsNeedLengths(s, Carried(s, p));
    StepKeepsPlace(s, t, p);
    StepKeepsColors(s, t, p);
    StepKeepsCounts(s, t, p);
    if t.TakeToken? && Finishes(t.i, s.tokens[0]) {
      MovesBetween(s, t, p);
      ResultIsBound(s);
    }
    StepKeepsNet(s, t, p);
    StepKeepsBound(s, t, p);
    StepKeepsPublished(s, t, p);
  }

  lemma CountsNeedLengths(s: Sys, carried: int)
    requires CountsOk(s, carried)
    ensures |s.late| == |s.nodes|
  {
  }

  /** A single process has no messages; its GVT is its local minimum. */
  ghost predicate SoleOk(s: Sys) {
    && |s.nodes| == 1 && s.net == [] && s.tokens == [] && s.updates == {}
    && var d := s.nodes[0];
       && d.got == {}
       && (d.result.Computed? ==> forall x :: x in d.pending ==> d.result.min <= x)
       && (forall x :: x in d.pending ==> d.g.gvt <= x)
  }

  lemma StepKeepsSole(s: Sys, t: Step)
    requires SoleOk(s) && Enabled(s, t)
    ensures SoleOk(Apply(s, t))
  {
  }

  lemma StartIsOk(s: Sys)
    requires Starts(s) && |s.nodes| > 1
    ensures Inv(s, Nowhere)
  {
    NoneRed(s.nodes);
    AllWhite(s.net);
    hide SumCounts;
  }

  lemma {:induction false} AllWhite(net: seq<Message>)
    requires forall x :: x in net ==> x.color == WHITE
    ensures CountColor(net, WHITE) == |net| && CountColor(net, RED) == 0
  {
    if net != [] {
      assert net[0] in net && forall x :: x in net[1..] ==> x in net;
      AllWhite(net[1..]);
    }
  }

  lemma {:induction false} NoneRed(nodes: seq<Node>)
    requires forall i :: 0 <= i < |nodes| ==> nodes[i].g.red == 0
    ensures SumCounts(nodes, RED) == 0
  {
    if nodes != [] {
      NoneRed(nodes[1..]);
    }
  }

  lemma {:induction false} RunKeepsInv(steps: seq<Step>, s: Sys) returns (p: Place)
    requires Reaches(steps, s) && s.nodes != []
    ensures if |s.nodes| > 1 then Inv(s, p) else SoleOk(s)
    decreases |steps|
  {
    hide Inv, SoleOk, Starts;
    if steps == [] {
      p := Nowhere;
      if |s.nodes| > 1 {
        StartIsOk(s);
      } else {
        SoleStartIsOk(s);
      }
    } else {
      var before, t := steps[..|steps| - 1], steps[|steps| - 1];
      var r :| Reaches(before, r) && Next(r, t, s);
      LengthStays(r, t);
      var q := RunKeepsInv(before, r);
      p := Moves(r, t, q);
      if |s.nodes| > 1 {
        StepKeepsInv(r, t, q);
      } else {
        StepKeepsSole(r, t);
      }
    }
  }

  lemma LengthStays(s: Sys, t: Step)
    requires Enabled(s, t)
    ensures |Apply(s, t).nodes| == |s.nodes|
  {
  }

  lemma SoleStartIsOk(s: Sys)
    requires Starts(s) && |s.nodes| == 1
    ensures SoleOk(s)
  {
  }

  /** GVT is safe: every GVT that a process holds, or that is on its way to one, is at most the time
      of every unprocessed event of every process and of every message in transit. */
  lemma GvtIsSafe(s: Sys, i: nat, u: Update)
    requires Reachable(s) && i < |s.nodes|
    ensures AllAtLeast(s, s.nodes[i].g.gvt)
    ensures u in s.updates ==> AllAtLeast(s, u.gvt)
  {
    var steps :| Reaches(steps, s);
    var p := RunKeepsInv(steps, s);
  }

  /** When the token is back at the initiator, its count is the number of messages of the old colour
      that are still in transit or arrived after their receiver last gave its count: it is never
      negative, and the computation finishes exactly when there is none. */
  lemma TokenCountIsExact(s: Sys)
    requires Reachable(s) && |s.nodes| > 1 && Enabled(s, TakeToken(0))
    ensures s.tokens[0].count == CountColor(s.net, s.before) + SumLate(s.late)
    ensures Finishes(0, s.tokens[0]) <==> CountColor(s.net, s.before) == 0 && SumLate(s.late) == 0
  {
    hide BoundOk, NetOk, PublishedOk, CountsOk;
    var steps :| Reaches(steps, s);
    var p := RunKeepsInv(steps, s);
    MovesBetween(s, TakeToken(0), p);
    AllToggled(s);
    BackCountIsExact(s, s.tokens[0].count);
  }

  /** The program's assertion: a computation starts when all colours of the initiator agree. */
  lemma ColorsAgreeAtStart(s: Sys)
    requires Reachable(s) && |s.nodes| > 1 && Enabled(s, BeginLocal(0)) && !s.nodes[0].g.startedGlobal
    ensures s.nodes[0].g.color == s.nodes[0].g.initial
  {
    hide BoundOk, NetOk, PublishedOk, CountsOk;
    var steps :| Reaches(steps, s);
    var p := RunKeepsInv(steps, s);
    assert ColorOk(s.nodes[0].g, s.before, p, Gave(p, 0), Waiting(s.updates, 0));
  }
}
