/** The synchronous GVT manager: every process stops its workers, all wait until no message that was
    sent before the round is in transit, and GVT is the least minimum. */
module SynchronousGvt {
  import opened Events

  datatype Color = WHITE | RED

  /** `round` has no effect: for a red message, the round in which it was sent. */
  datatype Message = Message(sender: nat, receiver: nat, ts: nat, color: Color, round: nat)

  datatype Phase =
    | Open        // workers run
    | Closing     // the flag is up; workers run until each has reported
    | Stopped     // all workers wait at the barrier; the manager thread receives messages
    | Joined      // ... and has joined the sum
    | Counted     // the sum was 0
    | Closed      // GVT is known; the workers still wait

  /** sendMin is the least entry of send_min_, localMin that of local_min_ at the barrier. */
  datatype Node = Node(pending: set<nat>, phase: Phase, white: int, recvMin: nat, sendMin: nat, localMin: nat, gvt: nat)

  datatype Sys = Sys(nodes: seq<Node>, net: seq<Message>, round: nat)

  function Min(a: nat, b: nat): nat { if b < a then b else a }

  datatype Step =
    | Work(i: nat, pending: set<nat>)
    | Send(i: nat, j: nat, ts: nat)
    | Receive(i: nat, k: nat)
    | Raise(i: nat)
    | Barrier(i: nat, min: nat)
    | Join(i: nat)
    | Sum
    | Reduce
    | Reopen(i: nat)

  ghost predicate NotBefore(a: set<nat>, b: set<nat>) {
    forall x :: x in a ==> exists y :: y in b && y <= x
  }

  /** What the workers of one process guarantee at the barrier. */
  ghost predicate Sound(pending: set<nat>, localMin: nat, sendMin: nat) {
    forall x :: x in pending ==> localMin <= x || sendMin <= x
  }

  predicate All(s: Sys, p: Phase) {
    forall i :: 0 <= i < |s.nodes| ==> s.nodes[i].phase == p
  }

  function Whites(nodes: seq<Node>): int {
    if nodes == [] then 0 else nodes[0].white + Whites(nodes[1..])
  }

  /** What process i contributes to the minimum. */
  function Contribution(d: Node): nat {
    Min(d.recvMin, Min(d.localMin, d.sendMin))
  }

  function Least(nodes: seq<Node>): (r: nat)
    ensures forall i :: 0 <= i < |nodes| ==> r <= Contribution(nodes[i])
  {
    if nodes == [] then UINT_MAX else Min(Contribution(nodes[0]), Least(nodes[1..]))
  }

  ghost predicate Enabled(s: Sys, t: Step) {
    && (!t.Sum? && !t.Reduce? ==> t.i < |s.nodes|)
    && match t
       case Work(i, pending) => (s.nodes[i].phase == Open || s.nodes[i].phase == Closing) && NotBefore(pending, s.nodes[i].pending)
       case Send(i, j, ts) =>
         && (s.nodes[i].phase == Open || s.nodes[i].phase == Closing)
         && j < |s.nodes| && j != i && NotBefore({ts}, s.nodes[i].pending)
       case Receive(i, k) => (s.nodes[i].phase == Open || s.nodes[i].phase == Stopped) && k < |s.net| && s.net[k].receiver == i
       case Raise(i) => s.nodes[i].phase == Open
       case Barrier(i, min) => s.nodes[i].phase == Closing && Sound(s.nodes[i].pending, min, s.nodes[i].sendMin)
       case Join(i) => s.nodes[i].phase == Stopped
       case Sum => s.nodes != [] && All(s, Joined)
       case Reduce => s.nodes != [] && All(s, Counted)
       case Reopen(i) => s.nodes[i].phase == Closed
  }

  function Sent(s: Sys, i: nat, j: nat, ts: nat): Message
    requires i < |s.nodes|
  {
    if s.nodes[i].phase == Open then Message(i, j, ts, WHITE, 0) else Message(i, j, ts, RED, s.round + 1)
  }

  /** Its sender counts a white message, and notes the time of a red one. */
  function Noted(d: Node, ts: nat): Node {
    if d.phase == Open then d.(white := d.white + 1) else d.(sendMin := Min(ts, d.sendMin))
  }

  function Received(d: Node, x: Message): Node {
    var d' := if x.color == WHITE then d.(white := d.white - 1) else d.(recvMin := Min(d.recvMin, x.ts));
    d'.(pending := d.pending + {x.ts}, sendMin := if d.phase == Stopped then Min(x.ts, d.sendMin) else d.sendMin)
  }

  /** All processes pass a collective operation together. */
  function Together(nodes: seq<Node>, f: Node -> Node): (r: seq<Node>)
    ensures |r| == |nodes| && forall i :: 0 <= i < |nodes| ==> r[i] == f(nodes[i])
  {
    seq(|nodes|, i requires 0 <= i < |nodes| => f(nodes[i]))
  }

  function Apply(s: Sys, t: Step): Sys
    requires Enabled(s, t)
  {
    match t
    case Work(i, pending) => s.(nodes := s.nodes[i := s.nodes[i].(pending := pending)])
    case Send(i, j, ts) =>
      var d := s.nodes[i];
      s.(nodes := s.nodes[i := Noted(d, ts)],
         net := s.net + [Sent(s, i, j, ts)])
    case Receive(i, k) =>
      s.(nodes := s.nodes[i := Received(s.nodes[i], s.net[k])], net := s.net[..k] + s.net[k + 1..])
    case Raise(i) => s.(nodes := s.nodes[i := s.nodes[i].(phase := Closing)])
    case Barrier(i, min) => s.(nodes := s.nodes[i := s.nodes[i].(phase := Stopped, localMin := min)])
    case Join(i) => s.(nodes := s.nodes[i := s.nodes[i].(phase := Joined)])
    case Sum =>
      var zero := Whites(s.nodes) == 0;
      s.(nodes := Together(s.nodes, (d: Node) => d.(phase := if zero then Counted else Stopped)))
    case Reduce =>
      var g := Least(s.nodes);
      s.(nodes := Together(s.nodes, (d: Node) =>
                    d.(phase := Closed, gvt := g, recvMin := UINT_MAX, sendMin := UINT_MAX, localMin := UINT_MAX)),
         round := s.round + 1)
    case Reopen(i) => s.(nodes := s.nodes[i := s.nodes[i].(phase := Open)])
  }

  /** The messages of the initialization that are still in transit are counted. */
  ghost predicate Starts(s: Sys) {
    && (forall x :: x in s.net ==> x.color == WHITE && x.sender < |s.nodes| && x.receiver < |s.nodes|)
    && (|s.nodes| == 1 ==> s.net == [])
    && Whites(s.nodes) == |s.net|
    && forall i :: 0 <= i < |s.nodes| ==>
         s.nodes[i] == Node(s.nodes[i].pending, Open, s.nodes[i].white, UINT_MAX, UINT_MAX, UINT_MAX, 0)
  }

  /** states[k] is the system after the first k steps. */
  ghost predicate Path(steps: seq<Step>, states: seq<Sys>) {
    && |states| == |steps| + 1
    && forall k :: 0 <= k < |steps| ==> Enabled(states[k], steps[k]) && states[k + 1] == Apply(states[k], steps[k])
  }

  ghost predicate Run(steps: seq<Step>, states: seq<Sys>) {
    Path(steps, states) && Starts(states[0])
  }

  // ------------------------------------------------------------------------------------------
  // The invariant
  // ------------------------------------------------------------------------------------------

  function CountWhite(net: seq<Message>): (r: nat)
    ensures r == 0 <==> forall k :: 0 <= k < |net| ==> net[k].color == RED
  {
    if net == [] then 0 else (if net[0].color == WHITE then 1 else 0) + CountWhite(net[1..])
  }

  lemma {:induction false} CountAppend(net: seq<Message>, x: Message)
    ensures CountWhite(net + [x]) == CountWhite(net) + (if x.color == WHITE then 1 else 0)
  {
    if net == [] {
      assert [] + [x] == [x] && [x][1..] == [];
    } else {
      CountAppend(net[1..], x);
      assert (net + [x])[1..] == net[1..] + [x];
    }
  }

  lemma {:induction false} CountRemove(net: seq<Message>, k: nat)
    requires k < |net|
    ensures CountWhite(net[..k] + net[k + 1..]) == CountWhite(net) - (if net[k].color == WHITE then 1 else 0)
  {
    if k == 0 {
      assert net[..0] + net[1..] == net[1..];
    } else {
      CountRemove(net[1..], k - 1);
      assert (net[..k] + net[k + 1..])[1..] == net[1..][..k - 1] + net[1..][k..];
    }
  }

  lemma {:induction false} WhitesUpdate(nodes: seq<Node>, i: nat, d: Node)
    requires i < |nodes|
    ensures Whites(nodes[i := d]) == Whites(nodes) - nodes[i].white + d.white
  {
    if i == 0 {
      assert nodes[0 := d][1..] == nodes[1..];
    } else {
      WhitesUpdate(nodes[1..], i - 1, d);
      assert nodes[i := d][1..] == nodes[1..][i - 1 := d];
    }
  }

  lemma {:induction false} WhitesTogether(nodes: seq<Node>, others: seq<Node>)
    requires |nodes| == |others| && forall i :: 0 <= i < |nodes| ==> nodes[i].white == others[i].white
    ensures Whites(nodes) == Whites(others)
  {
    if nodes != [] {
      WhitesTogether(nodes[1..], others[1..]);
    }
  }

  /** The workers of the process wait for the round to end. */
  predicate Waits(d: Node) { d.phase == Stopped || d.phase == Joined || d.phase == Counted }

  /** A message of the current round was noted by its sender, which is in that round too. */
  ghost predicate MessageOk(s: Sys, x: Message) {
    && x.sender < |s.nodes| && x.receiver < |s.nodes|
    && (x.color == RED ==> x.round <= s.round + 1)
    && (x.color == RED && x.round == s.round + 1 ==>
          (Waits(s.nodes[x.sender]) || s.nodes[x.sender].phase == Closing) && s.nodes[x.sender].sendMin <= x.ts)
  }

  /** Minima are at most infinity, and a process whose workers are not waiting for a round to end has
      nothing to report but what it received. */
  predicate NodeOk(d: Node) {
    && d.recvMin <= UINT_MAX
    && (d.phase == Open || d.phase == Closed ==> d.sendMin == UINT_MAX == d.localMin)
  }

  ghost predicate Inv(s: Sys) {
    && Whites(s.nodes) == CountWhite(s.net)
    && (forall i :: 0 <= i < |s.nodes| ==> NodeOk(s.nodes[i]))
    && (forall x :: x in s.net ==> MessageOk(s, x))
    && (forall i :: 0 <= i < |s.nodes| && Waits(s.nodes[i]) ==>
          Sound(s.nodes[i].pending, s.nodes[i].localMin, s.nodes[i].sendMin))
    && (forall i :: 0 <= i < |s.nodes| && s.nodes[i].phase == Counted ==> All(s, Counted) && CountWhite(s.net) == 0)
  }

  lemma StepKeepsCounts(s: Sys, t: Step)
    requires Whites(s.nodes) == CountWhite(s.net) && Enabled(s, t)
    ensures Whites(Apply(s, t).nodes) == CountWhite(Apply(s, t).net)
  {
    hide Whites, CountWhite, Least, Sound, NotBefore;
    var s' := Apply(s, t);
    if t.Sum? || t.Reduce? {
      WhitesTogether(s.nodes, s'.nodes);
    } else {
      WhitesUpdate(s.nodes, t.i, s'.nodes[t.i]);
      if t.Send? {
        CountAppend(s.net, Sent(s, t.i, t.j, t.ts));
      }
      if t.Receive? {
        CountRemove(s.net, t.k);
      }
    }
  }

  lemma StepKeepsMessages(s: Sys, t: Step, x: Message)
    requires Inv(s) && Enabled(s, t) && x in Apply(s, t).net
    ensures MessageOk(Apply(s, t), x)
  {
    hide Whites, CountWhite, Least, Sound, NotBefore;
    if t.Send? && x == Sent(s, t.i, t.j, t.ts) {
    } else {
      assert x in s.net;
      assert MessageOk(s, x);
    }
  }

  lemma StepKeepsSound(s: Sys, t: Step)
    requires Inv(s) && Enabled(s, t)
    ensures var s' := Apply(s, t);
            forall i :: 0 <= i < |s'.nodes| && Waits(s'.nodes[i]) ==>
              Sound(s'.nodes[i].pending, s'.nodes[i].localMin, s'.nodes[i].sendMin)
  {
    hide Whites, CountWhite, Least, NotBefore, MessageOk;
  }

  lemma StepKeepsCounted(s: Sys, t: Step)
    requires Inv(s) && Enabled(s, t)
    ensures var s' := Apply(s, t);
            forall i :: 0 <= i < |s'.nodes| && s'.nodes[i].phase == Counted ==> All(s', Counted) && CountWhite(s'.net) == 0
  {
    hide Whites, CountWhite, Least, NotBefore, Sound, MessageOk;
  }

  lemma StepKeepsNodes(s: Sys, t: Step)
    requires Inv(s) && Enabled(s, t)
    ensures forall i :: 0 <= i < |Apply(s, t).nodes| ==> NodeOk(Apply(s, t).nodes[i])
  {
    hide Whites, CountWhite, Least, NotBefore, Sound, MessageOk;
  }

  lemma StepKeepsInv(s: Sys, t: Step)
    requires Inv(s) && Enabled(s, t)
    ensures Inv(Apply(s, t))
  {
    hide Apply;
    var s' := Apply(s, t);
    StepKeepsCounts(s, t);
    StepKeepsNodes(s, t);
    StepKeepsSound(s, t);
    StepKeepsCounted(s, t);
    forall x | x in s'.net
      ensures MessageOk(s', x)
    {
      StepKeepsMessages(s, t, x);
    }
  }

  lemma {:induction false} PathKeepsInv(steps: seq<Step>, states: seq<Sys>)
    requires Path(steps, states) && Inv(states[0])
    ensures Inv(states[|steps|])
    decreases |steps|
  {
    hide Inv, Apply;
    if steps != [] {
      var k := |steps| - 1;
      PathKeepsInv(steps[..k], states[..k + 1]);
      StepKeepsInv(states[k], steps[k]);
    }
  }

  lemma StartIsOk(s: Sys)
    requires Starts(s)
    ensures Inv(s)
  {
    AllWhite(s.net);
    hide Whites;
  }

  lemma {:induction false} AllWhite(net: seq<Message>)
    requires forall x :: x in net ==> x.color == WHITE
    ensures CountWhite(net) == |net|
  {
    if net != [] {
      assert net[0] in net && forall x :: x in net[1..] ==> x in net;
      AllWhite(net[1..]);
    }
  }

  lemma {:induction false} ZeroWhites(nodes: seq<Node>)
    requires forall i :: 0 <= i < |nodes| ==> nodes[i].white == 0
    ensures Whites(nodes) == 0
  {
    if nodes != [] {
      ZeroWhites(nodes[1..]);
    }
  }

  // ------------------------------------------------------------------------------------------
  // Theorems
  // ------------------------------------------------------------------------------------------

  /** A red message that a later round does not count. */
  predicate Stale(s: Sys, x: Message) {
    x.color == RED && x.round <= s.round
  }

  ghost predicate AllAtLeast(s: Sys, g: nat) {
    && (forall i, x :: 0 <= i < |s.nodes| && x in s.nodes[i].pending ==> g <= x)
    && (forall m :: m in s.net ==> g <= m.ts)
  }

  /** The GVT of a round bounds every unprocessed event on every process, and every message in
      transit but those that were sent red in an earlier round: it is valid exactly when it bounds
      these as well. */
  lemma GvtIsSafe(steps: seq<Step>, states: seq<Sys>)
    requires Run(steps, states) && Enabled(states[|steps|], Reduce)
    ensures var s := states[|steps|];
            && (forall i, x :: 0 <= i < |s.nodes| && x in s.nodes[i].pending ==> Least(s.nodes) <= x)
            && (forall m :: m in s.net && !Stale(s, m) ==> Least(s.nodes) <= m.ts)
            && (AllAtLeast(s, Least(s.nodes)) <==> forall m :: m in s.net && Stale(s, m) ==> Least(s.nodes) <= m.ts)
  {
    hide Inv, Enabled, Apply, Least;
    StartIsOk(states[0]);
    PathKeepsInv(steps, states);
    ReduceIsSafe(states[|steps|]);
  }

  lemma ReduceIsSafe(s: Sys)
    requires Inv(s) && Enabled(s, Reduce)
    ensures forall i, x :: 0 <= i < |s.nodes| && x in s.nodes[i].pending ==> Least(s.nodes) <= x
    ensures forall m :: m in s.net && !Stale(s, m) ==> Least(s.nodes) <= m.ts
  {
    hide Whites, CountWhite, Least;
    assert s.nodes[0].phase == Counted;
    forall m | m in s.net && !Stale(s, m)
      ensures Least(s.nodes) <= m.ts
    {
      var k :| 0 <= k < |s.net| && s.net[k] == m;
      assert MessageOk(s, m) && m.color == RED;
      assert Least(s.nodes) <= Contribution(s.nodes[m.sender]);
    }
    forall i, x | 0 <= i < |s.nodes| && x in s.nodes[i].pending
      ensures Least(s.nodes) <= x
    {
      assert Waits(s.nodes[i]);
      assert Least(s.nodes) <= Contribution(s.nodes[i]);
    }
  }

  /** Until the round ends, no message becomes stale. */
  lemma {:induction false} NoneBecomesStale(steps: seq<Step>, states: seq<Sys>, k: nat)
    requires Path(steps, states) && k <= |steps| && states[k].round == states[|steps|].round
    ensures forall m :: m in states[|steps|].net && Stale(states[|steps|], m) ==> m in states[k].net
    decreases |steps| - k
  {
    if k < |steps| {
      RoundsGrow(steps, states, k + 1);
      hide NotBefore, Sound, Whites, Least;
      NoneBecomesStale(steps, states, k + 1);
      assert Enabled(states[k], steps[k]) && states[k + 1] == Apply(states[k], steps[k]);
    }
  }

  lemma {:induction false} RoundsGrow(steps: seq<Step>, states: seq<Sys>, k: nat)
    requires Path(steps, states) && k <= |steps|
    ensures states[k].round <= states[|steps|].round
    ensures k > 0 ==> states[k - 1].round <= states[k].round
    decreases |steps| - k
  {
    hide NotBefore, Sound, Whites, Least;
    if k < |steps| {
      RoundsGrow(steps, states, k + 1);
    }
    if k > 0 {
      assert Enabled(states[k - 1], steps[k - 1]) && states[k] == Apply(states[k - 1], steps[k - 1]);
    }
  }

  /** So if at some moment of the round (its start, say) no red message of an earlier round is in
      transit, the GVT of the round is valid. */
  lemma GvtIsSafeWithoutStaleMessages(steps: seq<Step>, states: seq<Sys>, k: nat)
    requires Run(steps, states) && Enabled(states[|steps|], Reduce)
    requires k <= |steps| && states[k].round == states[|steps|].round
    requires forall m :: m in states[k].net ==> !Stale(states[k], m)
    ensures AllAtLeast(states[|steps|], Least(states[|steps|].nodes))
  {
    hide Apply, AllAtLeast;
    NoneBecomesStale(steps, states, k);
    GvtIsSafe(steps, states);
  }

  /** A single process needs no such condition. */
  lemma SoleGvtIsSafe(steps: seq<Step>, states: seq<Sys>)
    requires Run(steps, states) && Enabled(states[|steps|], Reduce) && |states[0].nodes| == 1
    ensures AllAtLeast(states[|steps|], Least(states[|steps|].nodes))
  {
    SoleHasNoMessages(steps, states);
    GvtIsSafe(steps, states);
  }

  lemma {:induction false} SoleHasNoMessages(steps: seq<Step>, states: seq<Sys>)
    requires Run(steps, states) && |states[0].nodes| == 1
    ensures states[|steps|].net == [] && |states[|steps|].nodes| == 1
    decreases |steps|
  {
    hide NotBefore, Sound, Whites, Least;
    if steps != [] {
      var k := |steps| - 1;
      SoleHasNoMessages(steps[..k], states[..k + 1]);
      assert Enabled(states[k], steps[k]) && states[k + 1] == Apply(states[k], steps[k]);
    }
  }

  // ------------------------------------------------------------------------------------------
  // The exact condition
  // ------------------------------------------------------------------------------------------

  ghost predicate Leads(s: Sys, s': Sys) {
    exists steps, states :: Path(steps, states) && states[0] == s && states[|steps|] == s'
  }

  ghost predicate Reachable(s: Sys) {
    exists start :: Starts(start) && Leads(start, s)
  }

  lemma LeadsOn(s: Sys, s': Sys, t: Step)
    requires Leads(s, s') && Enabled(s', t)
    ensures Leads(s, Apply(s', t))
  {
    hide Enabled, Apply;
    var steps, states :| Path(steps, states) && states[0] == s && states[|steps|] == s';
    var more, ends := steps + [t], states + [Apply(s', t)];
    assert Path(more, ends) && ends[0] == s && ends[|more|] == Apply(s', t);
  }

  lemma LeadsToItself(s: Sys)
    ensures Leads(s, s)
  {
    var none: seq<Step> := [];
    assert Path(none, [s]) && [s][|none|] == s;
  }

  lemma Take(s: Sys, t: Step)
    requires Reachable(s) && Enabled(s, t)
    ensures Reachable(Apply(s, t))
  {
    hide Enabled, Apply, Starts, Leads;
    var start :| Starts(start) && Leads(start, s);
    LeadsOn(start, s, t);
  }

  lemma ReachableIsOk(s: Sys)
    requires Reachable(s)
    ensures Inv(s)
  {
    hide Inv, Starts, Enabled, Apply;
    var start :| Starts(start) && Leads(start, s);
    var steps, states :| Path(steps, states) && states[0] == start && states[|steps|] == s;
    StartIsOk(start);
    PathKeepsInv(steps, states);
  }

  /** A round that is still to come in s ends in s': the processes are about to reduce. */
  ghost predicate RoundEnds(s: Sys, s': Sys) {
    Leads(s, s') && s'.round == s.round && Enabled(s', Reduce)
  }

  /** Some process has received, late, a message that is no later than m. */
  ghost predicate IsCovered(s: Sys, m: Message) {
    exists i :: 0 <= i < |s.nodes| && s.nodes[i].recvMin <= m.ts
  }

  /** Until the round ends, what was received stays noted. */
  lemma {:induction false} ReceiptsStay(steps: seq<Step>, states: seq<Sys>, k: nat, m: Message)
    requires Path(steps, states) && k <= |steps| && states[k].round == states[|steps|].round && IsCovered(states[k], m)
    ensures IsCovered(states[|steps|], m)
    decreases |steps| - k
  {
    if k < |steps| {
      RoundsGrow(steps, states, k + 1);
      assert Enabled(states[k], steps[k]) && states[k + 1] == Apply(states[k], steps[k]);
      ReceiptStays(states[k], steps[k], m);
      hide Enabled, Apply, IsCovered;
      ReceiptsStay(steps, states, k + 1, m);
    }
  }

  lemma ReceiptStays(s: Sys, t: Step, m: Message)
    requires Enabled(s, t) && IsCovered(s, m) && Apply(s, t).round <= s.round
    ensures IsCovered(Apply(s, t), m)
  {
    hide NotBefore, Sound, Whites, Least;
    var i :| 0 <= i < |s.nodes| && s.nodes[i].recvMin <= m.ts;
    assert Apply(s, t).nodes[i].recvMin <= m.ts;
  }

  lemma CoveredRoundIsSafe(s: Sys, s': Sys)
    requires Inv(s) && RoundEnds(s, s') && forall m :: m in s.net && Stale(s, m) ==> IsCovered(s, m)
    ensures AllAtLeast(s', Least(s'.nodes))
  {
    hide Inv, Enabled, Apply, Least;
    var steps, states :| Path(steps, states) && states[0] == s && states[|steps|] == s';
    PathKeepsInv(steps, states);
    ReduceIsSafe(s');
    NoneBecomesStale(steps, states, 0);
    forall m | m in s'.net && Stale(s', m)
      ensures Least(s'.nodes) <= m.ts
    {
      ReceiptsStay(steps, states, 0, m);
      var i :| 0 <= i < |s'.nodes| && s'.nodes[i].recvMin <= m.ts;
      assert Least(s'.nodes) <= Contribution(s'.nodes[i]);
    }
  }

  /** cur comes from s: the first n processes wait for the sum with nothing to report but what they had
      received in s, the others still run, and m is in transit. */
  ghost predicate OnTheWay(s: Sys, cur: Sys, m: Message, n: nat) {
    && Leads(s, cur) && Inv(cur) && m in cur.net && cur.round == s.round && |cur.nodes| == |s.nodes|
    && forall i :: 0 <= i < |s.nodes| ==>
         && cur.nodes[i].recvMin == s.nodes[i].recvMin && cur.nodes[i].sendMin == UINT_MAX == cur.nodes[i].localMin
         && cur.nodes[i].phase == if i < n then Joined else Open
  }

  lemma {:induction false} SomeWhite(net: seq<Message>) returns (k: nat)
    requires CountWhite(net) > 0
    ensures k < |net| && net[k].color == WHITE
  {
    if net[0].color == WHITE {
      k := 0;
    } else {
      k := SomeWhite(net[1..]);
      k := k + 1;
    }
  }

  /** All white messages arrive. */
  lemma {:induction false} DeliverWhites(s: Sys, cur: Sys, m: Message) returns (s': Sys)
    requires OnTheWay(s, cur, m, 0) && m.color == RED
    ensures OnTheWay(s, s', m, 0) && CountWhite(s'.net) == 0
    decreases CountWhite(cur.net)
  {
    s' := cur;
    if CountWhite(cur.net) > 0 {
      var k := SomeWhite(cur.net);
      CountRemove(cur.net, k);
      s' := DeliverWhite(s, cur, m, k);
      hide OnTheWay;
      s' := DeliverWhites(s, s', m);
    }
  }

  lemma DeliverWhite(s: Sys, cur: Sys, m: Message, k: nat) returns (s': Sys)
    requires OnTheWay(s, cur, m, 0) && m.color == RED && k < |cur.net| && cur.net[k].color == WHITE
    ensures OnTheWay(s, s', m, 0) && s'.net == cur.net[..k] + cur.net[k + 1..]
  {
    hide Leads, Whites, CountWhite;
    assert MessageOk(cur, cur.net[k]);
    var t := Receive(cur.net[k].receiver, k);
    LeadsOn(s, cur, t);
    StepKeepsInv(cur, t);
    s' := Apply(cur, t);
    assert m in s'.net by {
      var j :| 0 <= j < |cur.net| && cur.net[j] == m;
      assert if j < k then s'.net[j] == m else s'.net[j - 1] == m;
    }
  }

  /** The next process runs out of events and joins the sum. */
  lemma JoinNext(s: Sys, cur: Sys, m: Message, n: nat) returns (s': Sys)
    requires OnTheWay(s, cur, m, n) && n < |s.nodes|
    ensures OnTheWay(s, s', m, n + 1) && s'.net == cur.net
  {
    hide Leads, Inv;
    var none: set<nat> := {};
    s' := FollowOn(s, cur, Work(n, none));
    s' := FollowOn(s, s', Raise(n));
    s' := FollowOn(s, s', Barrier(n, UINT_MAX));
    s' := FollowOn(s, s', Join(n));
  }

  lemma FollowOn(s: Sys, cur: Sys, t: Step) returns (s': Sys)
    requires Leads(s, cur) && Inv(cur) && Enabled(cur, t)
    ensures Leads(s, s') && Inv(s') && s' == Apply(cur, t)
  {
    LeadsOn(s, cur, t);
    StepKeepsInv(cur, t);
    s' := Apply(cur, t);
  }

  /** A stale message that nobody covers escapes the coming round, if it is the last to arrive. */
  lemma UncoveredEscapes(s: Sys, m: Message) returns (s': Sys)
    requires Inv(s) && All(s, Open) && m in s.net && Stale(s, m) && !IsCovered(s, m)
    ensures RoundEnds(s, s') && !AllAtLeast(s', Least(s'.nodes))
  {
    LeadsToItself(s);
    assert OnTheWay(s, s, m, 0);
    s' := DeliverWhites(s, s, m);
    var n := 0;
    hide OnTheWay;
    while n < |s.nodes|
      invariant n <= |s.nodes| && OnTheWay(s, s', m, n) && CountWhite(s'.net) == 0
    {
      s' := JoinNext(s, s', m, n);
      n := n + 1;
    }
    s' := LastStep(s, s', m);
  }

  lemma LastStep(s: Sys, cur: Sys, m: Message) returns (s': Sys)
    requires OnTheWay(s, cur, m, |s.nodes|) && CountWhite(cur.net) == 0 && !IsCovered(s, m) && Inv(s)
    ensures RoundEnds(s, s') && !AllAtLeast(s', Least(s'.nodes))
  {
    hide Leads, Least;
    assert MessageOk(cur, m);
    LeadsOn(s, cur, Sum);
    s' := Apply(cur, Sum);
    assert NodeOk(s.nodes[0]) && s.nodes[0].recvMin > m.ts;
    LeastAbove(s'.nodes, m.ts);
  }

  lemma {:induction false} LeastAbove(nodes: seq<Node>, x: nat)
    requires x < UINT_MAX && forall i :: 0 <= i < |nodes| ==> x < Contribution(nodes[i])
    ensures x < Least(nodes)
  {
    if nodes != [] {
      LeastAbove(nodes[1..], x);
    }
  }

  /** When no round is under way, the coming one is sure to give a valid GVT exactly if every stale
      message in transit is covered by what some process has received. */
  lemma SafeExactlyWhenCovered(s: Sys)
    requires Reachable(s) && All(s, Open)
    ensures (forall s' :: RoundEnds(s, s') ==> AllAtLeast(s', Least(s'.nodes)))
       <==> (forall m :: m in s.net && Stale(s, m) ==> IsCovered(s, m))
  {
    ReachableIsOk(s);
    hide RoundEnds, AllAtLeast, Inv, Least, IsCovered, Stale;
    if forall m :: m in s.net && Stale(s, m) ==> IsCovered(s, m) {
      forall s' | RoundEnds(s, s')
        ensures AllAtLeast(s', Least(s'.nodes))
      {
        CoveredRoundIsSafe(s, s');
      }
    } else {
      var m :| m in s.net && Stale(s, m) && !IsCovered(s, m);
      var s' := UncoveredEscapes(s, m);
    }
  }

  // ------------------------------------------------------------------------------------------
  // A run that violates it
  // ------------------------------------------------------------------------------------------

  /** A round of two processes without new messages, from the raising of the flags to the sum. */
  lemma Round(s: Sys, a: nat, b: nat) returns (s': Sys)
    requires Reachable(s) && |s.nodes| == 2 && s.nodes[0].white == 0 == s.nodes[1].white
    requires s.nodes[0].phase == Closing && s.nodes[1].phase == Closing
    requires s.nodes[0].pending == {a} && s.nodes[1].pending == {b}
    ensures Reachable(s') && Enabled(s', Reduce)
    ensures s' == s.(nodes := [s.nodes[0].(phase := Counted, localMin := a), s.nodes[1].(phase := Counted, localMin := b)])
  {
    hide Reachable, Whites;
    Take(s, Barrier(0, a));
    s' := Apply(s, Barrier(0, a));
    Take(s', Barrier(1, b));
    s' := Apply(s', Barrier(1, b));
    Take(s', Join(0));
    s' := Apply(s', Join(0));
    Take(s', Join(1));
    s' := Apply(s', Join(1));
    ZeroWhites(s'.nodes);
    Take(s', Sum);
    s' := Apply(s', Sum);
  }

  lemma Reclose(s: Sys) returns (s': Sys)
    requires Reachable(s) && |s.nodes| == 2 && Enabled(s, Reduce)
    ensures Reachable(s') && s'.net == s.net && s'.round == s.round + 1 && |s'.nodes| == 2
    ensures forall i :: 0 <= i < 2 ==>
              s'.nodes[i] == Node(s.nodes[i].pending, Closing, s.nodes[i].white, UINT_MAX, UINT_MAX, UINT_MAX, Least(s.nodes))
  {
    hide Reachable, Least;
    Take(s, Reduce);
    s' := Apply(s, Reduce);
    Take(s', Reopen(0));
    s' := Apply(s', Reopen(0));
    Take(s', Reopen(1));
    s' := Apply(s', Reopen(1));
    Take(s', Raise(0));
    s' := Apply(s', Raise(0));
    Take(s', Raise(1));
    s' := Apply(s', Raise(1));
  }

  lemma BothClosing() returns (s: Sys)
    ensures Reachable(s) && |s.nodes| == 2 && s.round == 0 && s.net == []
    ensures s.nodes[0] == Node({1}, Closing, 0, UINT_MAX, UINT_MAX, UINT_MAX, 0)
    ensures s.nodes[1] == Node({10}, Closing, 0, UINT_MAX, UINT_MAX, UINT_MAX, 0)
  {
    var idle := Node({}, Open, 0, UINT_MAX, UINT_MAX, UINT_MAX, 0);
    s := Sys([idle.(pending := {1}), idle.(pending := {10})], [], 0);
    ZeroWhites(s.nodes);
    LeadsToItself(s);
    hide Reachable;
    Take(s, Raise(0));
    s := Apply(s, Raise(0));
    Take(s, Raise(1));
    s := Apply(s, Raise(1));
  }

  /** Process 0 sends an event for time 5 while the first round closes, and goes on to time 20. */
  lemma SendWhileClosing() returns (s: Sys)
    ensures Reachable(s) && |s.nodes| == 2 && s.round == 0 && s.net == [Message(0, 1, 5, RED, 1)]
    ensures s.nodes[0] == Node({20}, Closing, 0, UINT_MAX, 5, UINT_MAX, 0)
    ensures s.nodes[1] == Node({10}, Closing, 0, UINT_MAX, UINT_MAX, UINT_MAX, 0)
  {
    hide Reachable;
    s := BothClosing();
    assert 1 in s.nodes[0].pending;
    Take(s, Send(0, 1, 5));
    s := Apply(s, Send(0, 1, 5));
    Take(s, Work(0, {20}));
    s := Apply(s, Work(0, {20}));
  }

  /** A message sent red that stays in transit for a whole further round escapes that round's GVT:
      the second round finds only events for times 20 and 10. */
  lemma StaleMessageEscapes() returns (s: Sys)
    ensures Reachable(s) && Enabled(s, Reduce) && !AllAtLeast(s, Least(s.nodes))
  {
    hide Reachable, Whites, Least, Apply;
    s := SendWhileClosing();
    s := Round(s, 20, 10);
    s := Reclose(s);
    s := Round(s, 20, 10);
    assert Message(0, 1, 5, RED, 1) in s.net;
    LeastOfTwo(s.nodes);
  }

  lemma LeastOfTwo(nodes: seq<Node>)
    requires |nodes| == 2
    ensures Least(nodes) == Min(Contribution(nodes[0]), Min(Contribution(nodes[1]), UINT_MAX))
  {
    var rest := nodes[1..];
    assert rest[0] == nodes[1] && rest[1..] == [];
    assert Least(rest) == Min(Contribution(rest[0]), Least(rest[1..]));
  }

  // ------------------------------------------------------------------------------------------
  // The other side
  // ------------------------------------------------------------------------------------------

  /** What is reported, sent red, or received red or at the barrier is not before the given time. */
  predicate NotEarlier(s: Sys, t: Step, low: nat) {
    match t
    case Send(i, _, ts) => i < |s.nodes| && s.nodes[i].phase != Open ==> low <= ts
    case Receive(i, k) =>
      i < |s.nodes| && k < |s.net| && (s.net[k].color == RED || s.nodes[i].phase == Stopped) ==> low <= s.net[k].ts
    case Barrier(_, min) => low <= min
    case _ => true
  }

  predicate MinimaFrom(s: Sys, low: nat) {
    forall i :: 0 <= i < |s.nodes| ==>
      low <= s.nodes[i].recvMin && low <= s.nodes[i].sendMin && low <= s.nodes[i].localMin
  }

  lemma StepKeepsMinima(s: Sys, t: Step, low: nat)
    requires Enabled(s, t) && low <= UINT_MAX
    requires t == Reduce || (MinimaFrom(s, low) && NotEarlier(s, t, low))
    ensures MinimaFrom(Apply(s, t), low)
  {
    hide Whites, Least, Sound, NotBefore;
  }

  lemma {:induction false} MinimaAlong(steps: seq<Step>, states: seq<Sys>, low: nat)
    requires Path(steps, states) && low <= UINT_MAX
    requires Starts(states[0]) || (steps != [] && steps[0] == Reduce)
    requires forall k :: 0 <= k < |steps| ==> NotEarlier(states[k], steps[k], low)
    ensures MinimaFrom(states[|steps|], low)
    decreases |steps|
  {
    if steps != [] {
      hide Apply, Enabled, NotEarlier, MinimaFrom;
      var n := |steps| - 1;
      if n > 0 || Starts(states[0]) {
        MinimaAlong(steps[..n], states[..n + 1], low);
      }
      StepKeepsMinima(states[n], steps[n], low);
    }
  }

  /** GVT is not too low either: it is at or after any time that nothing which the processes reported,
      sent red, or received red or at the barrier, since the previous round or the start, is before. */
  lemma GvtIsNotTooLow(steps: seq<Step>, states: seq<Sys>, low: nat)
    requires Path(steps, states) && low <= UINT_MAX && Enabled(states[|steps|], Reduce)
    requires Starts(states[0]) || (steps != [] && steps[0] == Reduce)
    requires forall k :: 0 <= k < |steps| ==> NotEarlier(states[k], steps[k], low)
    ensures forall i :: 0 <= i < |states[|steps|].nodes| ==> low <= Apply(states[|steps|], Reduce).nodes[i].gvt
  {
    MinimaAlong(steps, states, low);
    LeastIsFrom(states[|steps|].nodes, low);
    hide Starts, Least;
  }

  lemma {:induction false} LeastIsFrom(nodes: seq<Node>, low: nat)
    requires low <= UINT_MAX
    requires forall i :: 0 <= i < |nodes| ==> low <= nodes[i].recvMin && low <= nodes[i].sendMin && low <= nodes[i].localMin
    ensures low <= Least(nodes)
  {
    if nodes != [] {
      LeastIsFrom(nodes[1..], low);
    }
  }
}
