/** Termination detection: every process counts its active worker threads, and a token that only
    passive processes pass on circulates among the processes. */
module Termination {

  datatype State = ACTIVE | PASSIVE

  datatype Token = Token(receiver: nat, state: State, initiator: nat, count: int)

  /** A TimeWarpTerminationManager.  `handling` says that the master thread is inside
      receiveTerminationToken, past the sending of the token but before the last assignment. */
  datatype Node = Node(
    threads: seq<State>,    // state_by_thread_
    active: int,            // active_thread_count_
    state: State,
    sticky: State,
    isMaster: bool,
    msgCount: int,
    outbox: seq<Token>,     // inserted messages that have not left the process
    handling: bool)

  /** `tokens` are in transit between processes.  `born` records the processes as they were when the
      current token was created by its initiator; it has no effect. */
  datatype Sys = Sys(nodes: seq<Node>, tokens: seq<Token>, born: seq<Node>)

  // ------------------------------------------------------------------------------------------
  // One process
  // ------------------------------------------------------------------------------------------

  function WithPassive(d: Node, t: nat): Node
    requires t < |d.threads|
  {
    if d.threads[t] == PASSIVE then d
    else d.(threads := d.threads[t := PASSIVE], active := d.active - 1,
            state := if d.active - 1 == 0 then PASSIVE else d.state)
  }

  function WithActive(d: Node, t: nat): Node
    requires t < |d.threads|
  {
    if d.threads[t] == ACTIVE then d
    else d.(threads := d.threads[t := ACTIVE], active := d.active + 1, state := ACTIVE, sticky := ACTIVE)
  }

  /** sendTerminationToken of process i among n */
  function SendToken(d: Node, i: nat, n: nat, state: State, initiator: nat, count: int): Node {
    if !d.isMaster then d
    else d.(isMaster := false, msgCount := 0,
            outbox := d.outbox + [Token(Successor(i, n), state, initiator, d.msgCount + count)])
  }

  function Successor(i: nat, n: nat): nat { if i + 1 >= n then 0 else i + 1 }

  /** The token says that the simulation is over. */
  predicate MustTerminate(d: Node, k: Token) {
    d.sticky == PASSIVE && k.receiver == k.initiator && k.state == PASSIVE && k.count == 0
  }

  /** receiveTerminationToken, up to its last assignment */
  function Receive(d: Node, i: nat, n: nat, k: Token): Node {
    var d' := d.(isMaster := true, handling := true);
    if d.sticky == PASSIVE && k.receiver != k.initiator then SendToken(d', i, n, k.state, k.initiator, k.count)
    else d'
  }

  function FinishReceive(d: Node): Node {
    d.(sticky := d.state, handling := false)
  }

  function StartNode(i: nat, workers: nat): Node {
    Node(seq(workers, t => ACTIVE), workers, ACTIVE, ACTIVE, i == 0, 0, [], false)
  }

  // ------------------------------------------------------------------------------------------
  // All processes
  // ------------------------------------------------------------------------------------------

  datatype Step =
    | ThreadPassive(i: nat, t: nat)
    | ThreadActive(i: nat, t: nat)
    | UpdateMsgCount(i: nat, delta: int)
    | Initiate(i: nat)        // the main loop found the process passive, maybe a while ago
    | ReceiveToken(i: nat)
    | Finish(i: nat)
    | Flush(i: nat)           // the communication manager sends what was inserted

  predicate Enabled(s: Sys, t: Step) {
    t.i < |s.nodes| &&
    var d := s.nodes[t.i];
    match t
    case ThreadPassive(_, t) => t < |d.threads|
    case ThreadActive(_, t) => t < |d.threads|
    case UpdateMsgCount(_, _) => true
    case Initiate(_) => !d.handling
    case ReceiveToken(_) => !d.handling && s.tokens != [] && s.tokens[0].receiver == t.i
    case Finish(_) => d.handling
    case Flush(_) => !d.handling
  }

  function Apply(s: Sys, t: Step): Sys
    requires Enabled(s, t)
  {
    var i := t.i;
    var d := s.nodes[i];
    match t
    case ThreadPassive(_, t) => s.(nodes := s.nodes[i := WithPassive(d, t)])
    case ThreadActive(_, t) => s.(nodes := s.nodes[i := WithActive(d, t)])
    case UpdateMsgCount(_, delta) => s.(nodes := s.nodes[i := d.(msgCount := d.msgCount + delta)])
    case Initiate(_) =>
      s.(nodes := s.nodes[i := SendToken(d, i, |s.nodes|, PASSIVE, i, 0)],
         born := if d.isMaster then s.nodes else s.born)
    case ReceiveToken(_) =>
      s.(nodes := s.nodes[i := Receive(d, i, |s.nodes|, s.tokens[0])], tokens := s.tokens[1..])
    case Finish(_) => s.(nodes := s.nodes[i := FinishReceive(d)])
    case Flush(_) => s.(nodes := s.nodes[i := d.(outbox := [])], tokens := s.tokens + d.outbox)
  }

  function Start(workers: seq<nat>): Sys {
    var nodes := seq(|workers|, i requires 0 <= i < |workers| => StartNode(i, workers[i]));
    Sys(nodes, [], nodes)
  }

  /** states[k] is the system after the first k steps. */
  ghost predicate Run(workers: seq<nat>, steps: seq<Step>, states: seq<Sys>) {
    && |states| == |steps| + 1
    && states[0] == Start(workers)
    && forall k :: 0 <= k < |steps| ==> Enabled(states[k], steps[k]) && states[k + 1] == Apply(states[k], steps[k])
  }

  // ------------------------------------------------------------------------------------------
  // The invariant
  // ------------------------------------------------------------------------------------------

  function CountActive(threads: seq<State>): (c: nat)
    ensures c == 0 <==> forall t :: 0 <= t < |threads| ==> threads[t] == PASSIVE
  {
    if threads == [] then 0 else (if threads[0] == ACTIVE then 1 else 0) + CountActive(threads[1..])
  }

  lemma {:induction false} CountAfterUpdate(threads: seq<State>, t: nat, x: State)
    requires t < |threads|
    ensures CountActive(threads[t := x]) ==
            CountActive(threads) + (if x == ACTIVE then 1 else 0) - (if threads[t] == ACTIVE then 1 else 0)
  {
    if t == 0 {
      assert threads[0 := x][1..] == threads[1..];
    } else {
      CountAfterUpdate(threads[1..], t - 1, x);
      assert threads[t := x][1..] == threads[1..][t - 1 := x];
    }
  }

  ghost predicate NodeOk(d: Node) {
    && d.active == CountActive(d.threads)
    && (d.state == PASSIVE ==> d.active == 0)
    && (d.threads != [] && d.active == 0 ==> d.state == PASSIVE)
    && (d.sticky == PASSIVE ==> d.state == PASSIVE)
  }

  /** Where the token is; a master holds it. */
  datatype Place = Held(i: nat) | Leaving(i: nat) | Flying

  ghost predicate At(s: Sys, p: Place) {
    && (forall j :: 0 <= j < |s.nodes| ==>
          && s.nodes[j].isMaster == (p == Held(j))
          && (p != Leaving(j) ==> s.nodes[j].outbox == [])
          && (s.nodes[j].handling ==> p == Held(j) || p == Leaving(j)))
    && match p
       case Held(i) => i < |s.nodes| && s.tokens == []
       case Leaving(i) => i < |s.nodes| && s.tokens == [] && |s.nodes[i].outbox| == 1
                          && s.nodes[i].outbox[0].receiver == Successor(i, |s.nodes|)
       case Flying => |s.tokens| == 1
  }

  ghost function TokenOf(s: Sys, p: Place): Token
    requires At(s, p) && !p.Held?
  {
    if p.Flying? then s.tokens[0] else s.nodes[p.i].outbox[0]
  }

  /** How far process j is from the initiator, in the direction of the token. */
  function Distance(a: nat, j: nat, n: nat): int {
    if j > a then j - a - 1 else j + n - a - 1
  }

  /** Processes that the token has passed were passive when it was created; one that it has yet to
      reach was, if it has not been active since. */
  ghost predicate TokenOk(s: Sys, k: Token) {
    && k.receiver < |s.nodes| && k.initiator < |s.nodes| == |s.born|
    && (forall j :: 0 <= j < |s.nodes| ==> NodeOk(s.born[j]))
    && (forall j :: 0 <= j < |s.nodes| ==>
          (Distance(k.initiator, j, |s.nodes|) < Distance(k.initiator, k.receiver, |s.nodes|)
           || s.nodes[j].sticky == PASSIVE) ==> s.born[j].state == PASSIVE)
  }

  ghost predicate InvAt(s: Sys, p: Place) {
    && (forall j :: 0 <= j < |s.nodes| ==> NodeOk(s.nodes[j]))
    && At(s, p)
    && (!p.Held? ==> TokenOk(s, TokenOf(s, p)))
    && (p.Leaving? && s.nodes[p.i].handling ==> TokenOf(s, p).initiator != p.i)
  }

  /** Where the token is after a step. */
  ghost function Moves(s: Sys, t: Step, p: Place): Place
    requires Enabled(s, t)
  {
    match t
    case Initiate(i) => if p == Held(i) then Leaving(i) else p
    case ReceiveToken(i) => if Receive(s.nodes[i], i, |s.nodes|, s.tokens[0]).isMaster then Held(i) else Leaving(i)
    case Flush(i) => if p == Leaving(i) then Flying else p
    case _ => p
  }

  lemma ThreadsKeepNodeOk(d: Node, t: nat)
    requires NodeOk(d) && t < |d.threads|
    ensures NodeOk(WithPassive(d, t)) && NodeOk(WithActive(d, t))
  {
    CountAfterUpdate(d.threads, t, PASSIVE);
    CountAfterUpdate(d.threads, t, ACTIVE);
    assert d.threads[t] == ACTIVE ==> CountActive(d.threads) > 0;
  }

  lemma StepKeepsNodesOk(s: Sys, t: Step)
    requires Enabled(s, t) && forall j :: 0 <= j < |s.nodes| ==> NodeOk(s.nodes[j])
    ensures forall j :: 0 <= j < |s.nodes| ==> NodeOk(Apply(s, t).nodes[j])
  {
    hide CountActive;
    if t.ThreadPassive? || t.ThreadActive? {
      ThreadsKeepNodeOk(s.nodes[t.i], t.t);
    }
  }

  /** Thread accounting, message counts and the end of the handler do not touch the token. */
  lemma QuietStepsKeepPlace(s: Sys, t: Step, p: Place)
    requires At(s, p) && Enabled(s, t) && !t.Initiate? && !t.ReceiveToken? && !t.Flush?
    ensures At(Apply(s, t), p)
  {
  }

  lemma ReceiveMovesToken(s: Sys, i: nat, p: Place)
    requires At(s, p) && Enabled(s, ReceiveToken(i))
    ensures At(Apply(s, ReceiveToken(i)), Moves(s, ReceiveToken(i), p))
  {
  }

  lemma SendingMovesToken(s: Sys, t: Step, p: Place)
    requires At(s, p) && Enabled(s, t) && (t.Initiate? || t.Flush?)
    ensures At(Apply(s, t), Moves(s, t, p))
  {
    if t.Flush? {
      assert [] + s.nodes[t.i].outbox == s.nodes[t.i].outbox;
      assert s.tokens + [] == s.tokens;
    }
  }

  lemma StepMovesToken(s: Sys, t: Step, p: Place)
    requires At(s, p) && Enabled(s, t)
    ensures At(Apply(s, t), Moves(s, t, p))
  {
    hide At, Apply, Receive;
    if t.ReceiveToken? {
      ReceiveMovesToken(s, t.i, p);
    } else if t.Initiate? || t.Flush? {
      SendingMovesToken(s, t, p);
    } else {
      QuietStepsKeepPlace(s, t, p);
    }
  }

  /** A new token is the initiator's, and it is born now. */
  lemma InitiateCreatesToken(s: Sys, i: nat)
    requires InvAt(s, Held(i)) && Enabled(s, Initiate(i)) && At(Apply(s, Initiate(i)), Leaving(i))
    ensures var s' := Apply(s, Initiate(i));
            && TokenOk(s', TokenOf(s', Leaving(i))) && !s'.nodes[i].handling
            && s'.born == s.nodes && TokenOf(s', Leaving(i)).initiator == i
  {
  }

  /** A process that passes the token on was passive when it was created. */
  lemma ReceiveKeepsToken(s: Sys, i: nat)
    requires InvAt(s, Flying) && Enabled(s, ReceiveToken(i)) && Moves(s, ReceiveToken(i), Flying) == Leaving(i)
    requires At(Apply(s, ReceiveToken(i)), Leaving(i))
    ensures var s' := Apply(s, ReceiveToken(i));
            && TokenOk(s', TokenOf(s', Leaving(i))) && TokenOf(s', Leaving(i)).initiator != i
            && s'.born == s.born && TokenOf(s', Leaving(i)).initiator == TokenOf(s, Flying).initiator
  {
    var s' := Apply(s, ReceiveToken(i));
    var k, n := s.tokens[0], |s.nodes|;
    assert TokenOf(s', Leaving(i)) == Token(Successor(i, n), k.state, k.initiator, s.nodes[i].msgCount + k.count);
    forall j | 0 <= j < n && Distance(k.initiator, j, n) < Distance(k.initiator, Successor(i, n), n)
      ensures s.born[j].state == PASSIVE
    {
      assert j == i || Distance(k.initiator, j, n) < Distance(k.initiator, i, n);
    }
  }

  /** Any other step leaves the token as it is ... */
  lemma TokenStays(s: Sys, t: Step, p: Place)
    requires InvAt(s, p) && !p.Held? && Enabled(s, t) && !t.ReceiveToken? && At(Apply(s, t), Moves(s, t, p))
    ensures var s' := Apply(s, t);
            && !Moves(s, t, p).Held? && TokenOf(s', Moves(s, t, p)) == TokenOf(s, p)
            && s'.born == s.born && |s'.nodes| == |s.nodes|
            && (Moves(s, t, p).Leaving? && s'.nodes[Moves(s, t, p).i].handling ==> TokenOf(s, p).initiator != p.i)
  {
    hide NodeOk, TokenOk;
  }

  /** ... and lets only a process that it has passed become sticky passive. */
  lemma StickyStays(s: Sys, t: Step, p: Place, j: nat)
    requires InvAt(s, p) && !p.Held? && Enabled(s, t) && !t.ReceiveToken? && j < |s.nodes|
    ensures j < |Apply(s, t).nodes|
    ensures Apply(s, t).nodes[j].sticky == PASSIVE ==>
              || s.nodes[j].sticky == PASSIVE
              || Distance(TokenOf(s, p).initiator, j, |s.nodes|)
                 < Distance(TokenOf(s, p).initiator, TokenOf(s, p).receiver, |s.nodes|)
  {
    hide NodeOk;
  }

  lemma OtherStepsKeepToken(s: Sys, t: Step, p: Place)
    requires InvAt(s, p) && !p.Held? && Enabled(s, t) && !t.ReceiveToken? && At(Apply(s, t), Moves(s, t, p))
    ensures TokenOk(Apply(s, t), TokenOf(s, p))
  {
    hide NodeOk, Distance, Apply, Moves, At;
    TokenStays(s, t, p);
    forall j | 0 <= j < |s.nodes|
      ensures Apply(s, t).nodes[j].sticky == PASSIVE ==> s.born[j].state == PASSIVE
    {
      StickyStays(s, t, p, j);
    }
  }

  lemma StepKeepsInv(s: Sys, t: Step, p: Place)
    requires InvAt(s, p) && Enabled(s, t)
    ensures InvAt(Apply(s, t), Moves(s, t, p))
    ensures var p' := Moves(s, t, p);
            !p'.Held? ==>
              if p.Held? then t == Initiate(TokenOf(Apply(s, t), p').initiator) && Apply(s, t).born == s.nodes
              else TokenOf(Apply(s, t), p').initiator == TokenOf(s, p).initiator && Apply(s, t).born == s.born
  {
    hide NodeOk, At, TokenOk, Apply;
    StepKeepsNodesOk(s, t);
    StepMovesToken(s, t, p);
    LengthStays(s, t);
    MovesFrom(s, t, p);
    if t.Initiate? && p == Held(t.i) {
      InitiateCreatesToken(s, t.i);
    } else if t.ReceiveToken? {
      if Moves(s, t, p).Leaving? {
        ReceiveKeepsToken(s, t.i);
      }
    } else if !p.Held? {
      TokenStays(s, t, p);
      OtherStepsKeepToken(s, t, p);
    }
  }

  lemma LengthStays(s: Sys, t: Step)
    requires Enabled(s, t)
    ensures |Apply(s, t).nodes| == |s.nodes|
  {
  }

  lemma MovesFrom(s: Sys, t: Step, p: Place)
    requires At(s, p) && Enabled(s, t)
    ensures t.ReceiveToken? ==> p.Flying? && (Moves(s, t, p) == Held(t.i) || Moves(s, t, p) == Leaving(t.i))
    ensures !t.ReceiveToken? && Moves(s, t, p).Leaving? ==> p == Moves(s, t, p) || (t.Initiate? && p == Held(t.i))
  {
  }

  lemma {:induction false} RunKeepsInv(workers: seq<nat>, steps: seq<Step>, states: seq<Sys>) returns (p: Place)
    requires Run(workers, steps, states) && workers != []
    ensures InvAt(states[|steps|], p)
    decreases |steps|
  {
    if steps == [] {
      p := Held(0);
      forall i | 0 <= i < |workers|
        ensures NodeOk(StartNode(i, workers[i]))
      {
        AllActive(workers[i]);
      }
    } else {
      var k := |steps| - 1;
      var q := RunKeepsInv(workers, steps[..k], states[..k + 1]);
      StepKeepsInv(states[k], steps[k], q);
      p := Moves(states[k], steps[k], q);
    }
  }

  lemma {:induction false} AllActive(n: nat)
    ensures CountActive(seq(n, t => ACTIVE)) == n
  {
    if n > 0 {
      AllActive(n - 1);
      assert seq(n, t => ACTIVE)[1..] == seq(n - 1, t => ACTIVE);
    }
  }

  // ------------------------------------------------------------------------------------------
  // Theorems
  // ------------------------------------------------------------------------------------------

  ghost predicate OnlyMaster(s: Sys, i: nat) {
    i < |s.nodes| && forall j :: 0 <= j < |s.nodes| ==> (s.nodes[j].isMaster <==> j == i)
  }

  ghost predicate NoMaster(s: Sys) {
    forall j :: 0 <= j < |s.nodes| ==> !s.nodes[j].isMaster
  }

  /** No process but i, if there is such a process, has a token to send. */
  ghost predicate OnlyOutbox(s: Sys, i: nat) {
    forall j :: 0 <= j < |s.nodes| && j != i ==> s.nodes[j].outbox == []
  }

  /** At every moment there is exactly one master and no token, or exactly one token, inside a
      process or between two, and no master. */
  lemma OneMasterOrOneToken(workers: seq<nat>, steps: seq<Step>, states: seq<Sys>)
    requires Run(workers, steps, states) && workers != []
    ensures var s := states[|steps|];
            || (exists i: nat :: OnlyMaster(s, i) && OnlyOutbox(s, |s.nodes|) && s.tokens == [])
            || (NoMaster(s) && OnlyOutbox(s, |s.nodes|) && |s.tokens| == 1)
            || (NoMaster(s) && s.tokens == [] &&
                (exists i: nat :: OnlyOutbox(s, i) && i < |s.nodes| && |s.nodes[i].outbox| == 1))
  {
    var p := RunKeepsInv(workers, steps, states);
    var s := states[|steps|];
    match p
    case Held(i) => assert OnlyMaster(s, i);
    case Leaving(i) => assert OnlyOutbox(s, i);
    case Flying =>
  }

  /** The record of the birth of a token is true. */
  lemma {:induction false} BornIsPast(workers: seq<nat>, steps: seq<Step>, states: seq<Sys>, p: Place) returns (b: nat)
    requires Run(workers, steps, states) && workers != []
    requires InvAt(states[|steps|], p) && !p.Held?
    ensures b < |steps| && steps[b] == Initiate(TokenOf(states[|steps|], p).initiator)
    ensures states[b].nodes == states[|steps|].born
    decreases |steps|
  {
    if steps == [] {
      StartHasNoToken(workers, p);
      assert false;
    } else {
      hide InvAt, At, Apply, Moves;
      var k := |steps| - 1;
      var q := RunKeepsInv(workers, steps[..k], states[..k + 1]);
      StepKeepsInv(states[k], steps[k], q);
      PlaceIsUnique(states[k + 1], p, Moves(states[k], steps[k], q));
      if q.Held? {
        b := k;
      } else {
        b := BornIsPast(workers, steps[..k], states[..k + 1], q);
      }
    }
  }

  lemma StartHasNoToken(workers: seq<nat>, p: Place)
    requires workers != [] && InvAt(Start(workers), p)
    ensures p.Held?
  {
    assert Start(workers).nodes[0].isMaster;
  }

  lemma PlaceIsUnique(s: Sys, p: Place, q: Place)
    requires InvAt(s, p) && InvAt(s, q)
    ensures p == q
  {
    if p.Held? {
      assert s.nodes[p.i].isMaster;
    }
    if q.Held? {
      assert s.nodes[q.i].isMaster;
    }
  }

  /** Whenever a process calls sendTerminator, all worker threads of all processes were passive at
      one instant: when that process itself created the token that has now come back to it. */
  lemma TerminationIsSafe(workers: seq<nat>, steps: seq<Step>, states: seq<Sys>, i: nat) returns (b: nat)
    requires Run(workers, steps, states) && workers != []
    requires var s := states[|steps|]; Enabled(s, ReceiveToken(i)) && MustTerminate(s.nodes[i], s.tokens[0])
    ensures b < |steps| && steps[b] == Initiate(i)
    ensures forall j, t :: 0 <= j < |states[b].nodes| && 0 <= t < |states[b].nodes[j].threads| ==>
              states[b].nodes[j].threads[t] == PASSIVE
  {
    hide CountActive;
    var p := RunKeepsInv(workers, steps, states);
    b := BornIsPast(workers, steps, states, p);
    var s := states[|steps|];
    forall j | 0 <= j < |s.nodes|
      ensures s.born[j].state == PASSIVE && forall t :: 0 <= t < |s.born[j].threads| ==> s.born[j].threads[t] == PASSIVE
    {
      assert j != i ==> Distance(i, j, |s.nodes|) < Distance(i, i, |s.nodes|);
    }
  }

  // ------------------------------------------------------------------------------------------
  // The manager in the program's own form
  // ------------------------------------------------------------------------------------------

  class TimeWarpTerminationManager {
    const id: nat
    const numProcesses: nat
    const stateByThread: array<State>
    var activeThreadCount: int
    var state: State
    var stickyState: State
    var msgCount: int
    var isMaster: bool
    var inserted: seq<Token>        // messages given to the communication manager
    ghost var handling: bool

    ghost function Abs(): Node
      reads this, stateByThread
    {
      Node(stateByThread[..], activeThreadCount, state, stickyState, isMaster, msgCount, inserted, handling)
    }

    constructor (id: nat, numProcesses: nat, numWorkerThreads: nat)
      ensures this.id == id && this.numProcesses == numProcesses && fresh(stateByThread)
      ensures Abs() == StartNode(id, numWorkerThreads)
    {
      this.id, this.numProcesses := id, numProcesses;
      stateByThread := new State[numWorkerThreads](t => ACTIVE);
      activeThreadCount := numWorkerThreads;
      state, stickyState, msgCount, inserted, handling := ACTIVE, ACTIVE, 0, [], false;
      isMaster := id == 0;
      new;
      assert stateByThread[..] == seq(numWorkerThreads, t => ACTIVE);
    }

    method UpdateMsgCount(delta: int)
      modifies `msgCount
      ensures Abs() == old(Abs()).(msgCount := old(msgCount) + delta)
    {
      msgCount := msgCount + delta;
    }

    method SetThreadPassive(threadId: nat)
      requires threadId < stateByThread.Length
      modifies this, stateByThread
      ensures Abs() == WithPassive(old(Abs()), threadId)
    {
      if stateByThread[threadId] != PASSIVE {
        stateByThread[threadId] := PASSIVE;
        activeThreadCount := activeThreadCount - 1;
        if activeThreadCount == 0 {
          state := PASSIVE;
        }
      }
    }

    method SetThreadActive(threadId: nat)
      requires threadId < stateByThread.Length
      modifies this, stateByThread
      ensures Abs() == WithActive(old(Abs()), threadId)
    {
      if stateByThread[threadId] != ACTIVE {
        stateByThread[threadId] := ACTIVE;
        activeThreadCount := activeThreadCount + 1;
        state := ACTIVE;
        stickyState := ACTIVE;
      }
    }

    method SendTerminationToken(tokenState: State, initiator: nat, count: int) returns (sentIt: bool)
      modifies this
      ensures sentIt == old(isMaster)
      ensures Abs() == SendToken(old(Abs()), id, numProcesses, tokenState, initiator, count)
    {
      if !isMaster {
        return false;
      }
      isMaster := false;
      inserted := inserted + [Token(Successor(id, numProcesses), tokenState, initiator, msgCount + count)];
      msgCount := 0;
      return true;
    }

    /** The handler without its last assignment; the result says that sendTerminator was called. */
    method ReceiveTerminationToken(msg: Token) returns (terminate: bool)
      modifies this
      ensures Abs() == Receive(old(Abs()), id, numProcesses, msg)
      ensures terminate == MustTerminate(old(Abs()), msg)
      ensures terminate <==>
                old(stickyState) == PASSIVE && msg.receiver == msg.initiator && msg.state == PASSIVE && msg.count == 0
      ensures isMaster <==> !(old(stickyState) == PASSIVE && msg.receiver != msg.initiator)
      ensures inserted == old(inserted) + if isMaster then [] else
                [Token(Successor(id, numProcesses), msg.state, msg.initiator, old(msgCount) + msg.count)]
      ensures msgCount == (if isMaster then old(msgCount) else 0) && unchanged(`stickyState)
    {
      handling := true;
      isMaster := true;
      terminate := false;
      if stickyState == PASSIVE && msg.receiver == msg.initiator {
        if msg.state == PASSIVE && msg.count == 0 {
          terminate := true;
        }
      } else if stickyState == PASSIVE {
        var _ := SendTerminationToken(msg.state, msg.initiator, msg.count);
      }
    }

    method SetStickyState()
      modifies this
      ensures Abs() == FinishReceive(old(Abs()))
    {
      stickyState := state;
      handling := false;
    }
  }
}
