/** The other side of the asynchronous GVT: that a computation does not announce less than it has to. */
module MatternBounds {
  import opened Events
  import opened Mattern

  /** states[k] is the system after the first k steps. */
  ghost predicate Run(steps: seq<Step>, states: seq<Sys>) {
    && |states| == |steps| + 1 && Starts(states[0])
    && forall k :: 0 <= k < |steps| ==> Next(states[k], steps[k], states[k + 1])
  }

  /** Step k begins a computation of the GVT. */
  predicate Begins(steps: seq<Step>, states: seq<Sys>, k: nat)
    requires k < |steps| == |states| - 1
  {
    steps[k] == BeginLocal(0) && states[k].nodes != [] && !states[k].nodes[0].g.startedGlobal
  }

  /** Step k puts update u on its way. */
  predicate Announced(states: seq<Sys>, k: nat, u: Update) {
    k + 1 < |states| && u in states[k + 1].updates && u !in states[k].updates
  }

  ghost predicate Announces(states: seq<Sys>, k: nat) {
    exists u :: Announced(states, k, u)
  }

  /** From step b on and before step e, every local minimum reported and every event message sent or
      received is at or after the given time. */
  ghost predicate NothingEarlier(steps: seq<Step>, states: seq<Sys>, b: nat, e: nat, low: nat)
    requires e <= |steps| == |states| - 1
  {
    forall k :: b <= k < e ==> NotEarlier(states[k], steps[k], low)
  }

  predicate NotEarlier(s: Sys, t: Step, low: nat) {
    match t
    case EndLocal(_, min) => low <= min
    case Send(_, _, ts) => low <= ts
    case Receive(_, k) => k < |s.net| ==> low <= s.net[k].ts
    case _ => true
  }

  /** The accumulated minima that the processes other than the initiator were constructed with. */
  predicate ClocksFrom(s: Sys, low: nat) {
    forall j :: 0 < j < |s.nodes| ==> low <= s.nodes[j].g.clock
  }

  // ------------------------------------------------------------------------------------------
  // Nothing too low gets into the token
  // ------------------------------------------------------------------------------------------

  /** What a process will start its accumulated minimum from. */
  ghost predicate ClocksOk(s: Sys, low: nat) {
    forall j :: 0 < j < |s.nodes| && s.nodes[j].g.color == s.before && !Waiting(s.updates, j) ==>
      low <= s.nodes[j].g.clock
  }

  predicate NodeFrom(g: Manager, isInitiator: bool, low: nat) {
    low <= g.minSend && low <= g.minRecv && (isInitiator || low <= g.clock)
  }

  /** All that a computation in progress has collected. */
  ghost predicate From(s: Sys, p: Place, low: nat) {
    && (forall j :: 0 <= j < |s.nodes| && Toggled?(s, j) ==> NodeFrom(s.nodes[j].g, j == 0, low))
    && (forall j :: 0 <= j < |s.nodes| && s.nodes[j].g.startedLocal && s.nodes[j].result.Computed? ==>
          low <= s.nodes[j].result.min)
    && (p.Flying? && s.tokens != [] ==> low <= s.tokens[0].clock && low <= s.tokens[0].send)
  }

  lemma StepKeepsClocks(s: Sys, t: Step, p: Place, low: nat)
    requires |s.nodes| > 1 && PlaceOk(s, p) && ColorsOk(s, p) && Enabled(s, t) && low <= UINT_MAX
    requires ClocksOk(s, low) || (t.TakeToken? && Finishes(t.i, s.tokens[0]))
    ensures ClocksOk(Apply(s, t), low)
  {
    hide NotBefore, Sound, PlaceOk;
    if t.TakeToken? && Finishes(t.i, s.tokens[0]) {
      AnnouncedToAll(s);
    } else if t.TakeUpdate? {
      OthersWait(s, t.i, t.gvt);
    }
  }

  lemma AnnouncedToAll(s: Sys)
    requires Enabled(s, TakeToken(0)) && Finishes(0, s.tokens[0])
    ensures forall j :: 0 <= j < |s.nodes| ==> Waiting(Apply(s, TakeToken(0)).updates, j)
  {
    hide NotBefore, Sound;
    forall j | 0 <= j < |s.nodes|
      ensures Waiting(Apply(s, TakeToken(0)).updates, j)
    {
      assert Update(j, Min(s.tokens[0].clock, s.tokens[0].send)) in Apply(s, TakeToken(0)).updates;
    }
  }

  lemma OthersWait(s: Sys, i: nat, gvt: nat)
    ensures forall j :: j != i && Waiting(s.updates, j) ==> Waiting(s.updates - {Update(i, gvt)}, j)
  {
    forall j | j != i && Waiting(s.updates, j)
      ensures Waiting(s.updates - {Update(i, gvt)}, j)
    {
      var u :| u in s.updates && u.receiver == j;
      assert u in s.updates - {Update(i, gvt)};
    }
  }

  lemma BeginIsFrom(s: Sys, low: nat)
    requires |s.nodes| > 1 && PlaceOk(s, Nowhere) && ColorsOk(s, Nowhere) && low <= UINT_MAX
    requires Enabled(s, BeginLocal(0)) && !s.nodes[0].g.startedGlobal
    ensures From(Apply(s, BeginLocal(0)), Holding(0), low)
  {
  }

  lemma TokenStepKeepsFrom(s: Sys, t: Step, p: Place, low: nat)
    requires |s.nodes| > 1 && PlaceOk(s, p) && ColorsOk(s, p) && Enabled(s, t) && low <= UINT_MAX
    requires From(s, p, low) && ClocksOk(s, low) && p != Nowhere
    requires t.SendToken? || (t.TakeToken? && !Finishes(t.i, s.tokens[0]))
    ensures From(Apply(s, t), Moves(s, t, p), low)
  {
    hide NotBefore, Sound;
    if t.TakeToken? {
      assert !Waiting(s.updates, t.i);
    }
  }

  /** What process i has collected after a step is from the given time on, if it counts. */
  ghost predicate NodeStillFrom(s: Sys, i: nat, d: Node, low: nat) {
    && (d.g.color != s.before ==> NodeFrom(d.g, i == 0, low))
    && (d.g.startedLocal && d.result.Computed? ==> low <= d.result.min)
  }

  lemma ChangeKeepsFrom(s: Sys, s': Sys, i: nat, p: Place, low: nat)
    requires From(s, p, low) && i < |s.nodes| == |s'.nodes| && s'.nodes == s.nodes[i := s'.nodes[i]]
    requires s'.before == s.before && s'.tokens == s.tokens && NodeStillFrom(s, i, s'.nodes[i], low)
    ensures From(s', p, low)
  {
    hide NodeFrom;
  }

  lemma OtherStepKeepsFrom(s: Sys, t: Step, p: Place, low: nat)
    requires |s.nodes| > 1 && PlaceOk(s, p) && ColorsOk(s, p) && Enabled(s, t) && low <= UINT_MAX
    requires From(s, p, low) && p != Nowhere && NotEarlier(s, t, low)
    requires !t.SendToken? && !t.TakeToken? && !t.TakeUpdate?
    ensures From(Apply(s, t), Moves(s, t, p), low)
  {
    assert Moves(s, t, p) == p;
    hide NotBefore, Sound, PlaceOk, ColorsOk;
    assert NodeStillFrom(s, t.i, s.nodes[t.i], low) by {
      assert Toggled?(s, t.i) <==> s.nodes[t.i].g.color != s.before;
    }
    hide From;
    StepOfNode(s, t, low);
    ChangeKeepsFrom(s, Apply(s, t), t.i, p, low);
  }

  lemma StepOfNode(s: Sys, t: Step, low: nat)
    requires Enabled(s, t) && low <= UINT_MAX && NotEarlier(s, t, low) && NodeStillFrom(s, t.i, s.nodes[t.i], low)
    requires !t.SendToken? && !t.TakeToken? && !t.TakeUpdate?
    requires t == BeginLocal(0) ==> s.nodes[0].g.startedGlobal
    ensures var s' := Apply(s, t);
            && |s'.nodes| == |s.nodes| && s'.nodes == s.nodes[t.i := s'.nodes[t.i]] && s'.before == s.before && s'.tokens == s.tokens
            && NodeStillFrom(s, t.i, s'.nodes[t.i], low)
  {
    hide NotBefore, Sound;
  }

  /** An update reaches only a process that the token has not reached yet. */
  lemma UpdateKeepsFrom(s: Sys, i: nat, gvt: nat, p: Place, low: nat)
    requires |s.nodes| > 1 && PlaceOk(s, p) && ColorsOk(s, p) && Enabled(s, TakeUpdate(i, gvt))
    requires From(s, p, low) && p != Nowhere
    ensures From(Apply(s, TakeUpdate(i, gvt)), p, low)
  {
    assert Waiting(s.updates, i);
    assert !Toggled?(s, i);
    hide PlaceOk, ColorsOk, Waiting;
  }

  /** While no other computation begins. */
  lemma StepKeepsFrom(s: Sys, t: Step, p: Place, low: nat)
    requires |s.nodes| > 1 && PlaceOk(s, p) && ColorsOk(s, p) && Enabled(s, t) && low <= UINT_MAX
    requires p == Nowhere || (From(s, p, low) && ClocksOk(s, low))
    requires NotEarlier(s, t, low) && (t == BeginLocal(0) ==> s.nodes[0].g.startedGlobal)
    ensures var p' := Moves(s, t, p); p' == Nowhere || (p != Nowhere && From(Apply(s, t), p', low))
  {
    hide From, ColorsOk, ClocksOk, Apply, NotEarlier;
    if p == Nowhere {
      MovesBetween(s, t, p);
    } else if t.TakeToken? && Finishes(t.i, s.tokens[0]) {
    } else if t.SendToken? || t.TakeToken? {
      TokenStepKeepsFrom(s, t, p, low);
    } else if t.TakeUpdate? {
      UpdateKeepsFrom(s, t.i, t.gvt, p, low);
    } else {
      OtherStepKeepsFrom(s, t, p, low);
    }
  }

  // ------------------------------------------------------------------------------------------
  // What a process was constructed with gets into the first token
  // ------------------------------------------------------------------------------------------

  /** As long as nothing was announced, no process has lost what it was constructed with, and the
      token has it from those that it has passed. */
  ghost predicate StillThere(s: Sys, p: Place, j: nat, clock: nat) {
    && s.updates == {} && 0 < j < |s.nodes| && s.nodes[j].g.clock <= clock
    && (Passed(p, j) && p.Flying? && s.tokens != [] ==> s.tokens[0].clock <= clock)
    && (Passed(p, j) && p.Holding? && p.i < |s.nodes| ==> s.nodes[p.i].g.clock <= clock)
  }

  lemma StepKeepsIt(s: Sys, t: Step, p: Place, j: nat, clock: nat)
    requires |s.nodes| > 1 && PlaceOk(s, p) && Enabled(s, t) && StillThere(s, p, j, clock)
    requires !(t.TakeToken? && Finishes(t.i, s.tokens[0]))
    ensures StillThere(Apply(s, t), Moves(s, t, p), j, clock)
  {
    hide NotBefore, Sound;
  }

  // ------------------------------------------------------------------------------------------
  // Along a run
  // ------------------------------------------------------------------------------------------

  lemma {:induction false} RunIsReachable(steps: seq<Step>, states: seq<Sys>)
    requires Run(steps, states)
    ensures Reaches(steps, states[|steps|])
    decreases |steps|
  {
    hide Starts, Next;
    if steps != [] {
      var n := |steps| - 1;
      assert Next(states[n], steps[n], states[n + 1]);
      RunIsReachable(steps[..n], states[..n + 1]);
    }
  }

  /** Where the token is in every state of the run. */
  ghost predicate PlacesOf(steps: seq<Step>, states: seq<Sys>, ps: seq<Place>) {
    && |ps| == |states| == |steps| + 1 && ps[0] == Nowhere
    && (forall k :: 0 <= k < |ps| ==> Inv(states[k], ps[k]))
    && (forall k :: 0 <= k < |steps| ==> steps[k].i < |states[k].nodes| && ps[k + 1] == Moves(states[k], steps[k], ps[k]))
  }

  lemma {:induction false} RunHasPlaces(steps: seq<Step>, states: seq<Sys>) returns (ps: seq<Place>)
    requires Run(steps, states) && |states[0].nodes| > 1
    ensures PlacesOf(steps, states, ps)
    decreases |steps|
  {
    hide Inv, Starts, Apply;
    if steps == [] {
      StartIsOk(states[0]);
      ps := [Nowhere];
    } else {
      var n := |steps| - 1;
      var before := RunHasPlaces(steps[..n], states[..n + 1]);
      assert Next(states[n], steps[n], states[n + 1]);
      assert Inv(states[..n + 1][n], before[n]);
      StepKeepsInv(states[n], steps[n], before[n]);
      ps := before + [Moves(states[n], steps[n], before[n])];
      forall k | 0 <= k < n
        ensures steps[k].i < |states[k].nodes| && ps[k + 1] == Moves(states[k], steps[k], ps[k])
      {
        assert steps[..n][k] == steps[k] && states[..n + 1][k] == states[k];
      }
    }
  }

  lemma InvParts(s: Sys, p: Place)
    requires Inv(s, p)
    ensures |s.nodes| > 1 && PlaceOk(s, p) && ColorsOk(s, p)
  {
  }

  /** Only the initiator announces, when it finishes. */
  lemma AnnouncingStep(s: Sys, t: Step, u: Update)
    requires Enabled(s, t) && u in Apply(s, t).updates && u !in s.updates
    ensures t == TakeToken(0) && Finishes(0, s.tokens[0]) && u.gvt == Min(s.tokens[0].clock, s.tokens[0].send)
  {
    hide NotBefore, Sound;
  }

  /** Once nothing is in progress, nothing is until a computation begins. */
  lemma {:induction false} NowhereStays(steps: seq<Step>, states: seq<Sys>, ps: seq<Place>, k: nat, e: nat)
    requires Run(steps, states) && PlacesOf(steps, states, ps) && k <= e <= |steps| && ps[k] == Nowhere
    requires forall i :: k <= i < e ==> !Begins(steps, states, i)
    ensures ps[e] == Nowhere
    decreases e - k
  {
    hide Inv, Starts, Moves;
    if k < e {
      assert Next(states[k], steps[k], states[k + 1]);
      InvParts(states[k], ps[k]);
      assert !Begins(steps, states, k);
      MovesBetween(states[k], steps[k], Nowhere);
      NowhereStays(steps, states, ps, k + 1, e);
    }
  }

  /** A process starts its minimum from no less than the given time if it was constructed so, or if
      a computation has ended before. */
  lemma {:induction false} ClocksAlong(steps: seq<Step>, states: seq<Sys>, ps: seq<Place>, k: nat, low: nat)
    requires Run(steps, states) && PlacesOf(steps, states, ps) && k <= |steps| && low <= UINT_MAX
    requires ClocksFrom(states[0], low) || exists a :: 0 <= a < k && Announces(states, a)
    ensures ClocksOk(states[k], low)
    decreases k
  {
    hide Inv, Starts, PlaceOk, ColorsOk, Apply, Moves;
    if k > 0 {
      var s, t := states[k - 1], steps[k - 1];
      assert Next(s, t, states[k]);
      InvParts(s, ps[k - 1]);
      if Announces(states, k - 1) {
        var u :| Announced(states, k - 1, u);
        AnnouncingStep(s, t, u);
      } else {
        hide Announces;
        if !ClocksFrom(states[0], low) {
          var a :| 0 <= a < k && Announces(states, a);
          assert a < k - 1;
        }
        ClocksAlong(steps, states, ps, k - 1, low);
      }
      StepKeepsClocks(s, t, ps[k - 1], low);
    }
  }

  lemma {:induction false} FromAlong(steps: seq<Step>, states: seq<Sys>, ps: seq<Place>, b: nat, e: nat, low: nat)
    requires Run(steps, states) && PlacesOf(steps, states, ps) && b < e <= |steps| && low <= UINT_MAX
    requires Begins(steps, states, b) && forall k :: b < k < e ==> !Begins(steps, states, k)
    requires NothingEarlier(steps, states, b, e, low)
    requires ClocksFrom(states[0], low) || exists a :: 0 <= a < b && Announces(states, a)
    ensures ps[e] == Nowhere || From(states[e], ps[e], low)
    decreases e
  {
    hide Inv, Starts, Apply, From, NotEarlier, Announces, Finishes;
    var s, t := states[e - 1], steps[e - 1];
    assert Next(s, t, states[e]);
    InvParts(s, ps[e - 1]);
    if b == e - 1 {
      BeginsNowhere(s, ps[b]);
      BeginIsFrom(s, low);
    } else {
      assert !Begins(steps, states, e - 1);
      hide PlaceOk, ColorsOk, Moves;
      FromAlong(steps, states, ps, b, e - 1, low);
      ClocksAlong(steps, states, ps, e - 1, low);
      StepKeepsFrom(s, t, ps[e - 1], low);
    }
  }

  lemma BeginsNowhere(s: Sys, p: Place)
    requires |s.nodes| > 1 && PlaceOk(s, p) && !s.nodes[0].g.startedGlobal
    ensures p == Nowhere
  {
  }

  lemma {:induction false} StillThereAlong(steps: seq<Step>, states: seq<Sys>, ps: seq<Place>, k: nat, j: nat)
    requires Run(steps, states) && PlacesOf(steps, states, ps) && k <= |steps| && 0 < j < |states[0].nodes|
    requires forall a :: 0 <= a < k ==> !Announces(states, a)
    ensures StillThere(states[k], ps[k], j, states[0].nodes[j].g.clock)
    decreases k
  {
    hide Inv, Apply;
    if k > 0 {
      var s, t, p := states[k - 1], steps[k - 1], ps[k - 1];
      assert Next(s, t, states[k]);
      StillThereAlong(steps, states, ps, k - 1, j);
      InvParts(s, p);
      hide StillThere, Moves, PlaceOk, ColorsOk;
      if t.TakeToken? && Finishes(t.i, s.tokens[0]) {
        NewIsAnnounced(states, k - 1, j, states[0].nodes[j].g.clock, p);
        assert false;
      }
      StepKeepsIt(s, t, p, j, states[0].nodes[j].g.clock);
    }
  }

  lemma NewIsAnnounced(states: seq<Sys>, k: nat, j: nat, clock: nat, p: Place)
    requires k + 1 < |states| && StillThere(states[k], p, j, clock) && Enabled(states[k], TakeToken(0))
    requires Finishes(0, states[k].tokens[0]) && states[k + 1] == Apply(states[k], TakeToken(0))
    ensures Announces(states, k)
  {
    var s := states[k];
    assert Announced(states, k, Update(0, Min(s.tokens[0].clock, s.tokens[0].send)));
  }

  // ------------------------------------------------------------------------------------------
  // Theorems
  // ------------------------------------------------------------------------------------------

  /** An announcement ends a computation that began before. */
  lemma AnnouncementHasBegin(steps: seq<Step>, states: seq<Sys>, e: nat, u: Update) returns (b: nat)
    requires Run(steps, states) && |states[0].nodes| > 1 && e < |steps| && Announced(states, e, u)
    ensures b < e && Begins(steps, states, b) && forall k :: b < k < e ==> !Begins(steps, states, k)
  {
    var ps := RunHasPlaces(steps, states);
    AnnouncedFromToken(steps, states, ps, e, u);
    b := LastBegin(steps, states, ps, e);
  }

  lemma {:induction false} LastBegin(steps: seq<Step>, states: seq<Sys>, ps: seq<Place>, e: nat) returns (b: nat)
    requires Run(steps, states) && PlacesOf(steps, states, ps) && e <= |steps| && ps[e] != Nowhere
    ensures b < e && Begins(steps, states, b) && forall k :: b < k < e ==> !Begins(steps, states, k)
    decreases e
  {
    hide Inv, Starts, Apply, Moves;
    if e == 0 {
      assert false;
    } else {
      assert Next(states[e - 1], steps[e - 1], states[e]);
      InvParts(states[e - 1], ps[e - 1]);
      if Begins(steps, states, e - 1) {
        b := e - 1;
      } else {
        MovesBetween(states[e - 1], steps[e - 1], ps[e - 1]);
        b := LastBegin(steps, states, ps, e - 1);
      }
    }
  }

  /** Let an update be announced in step e, by the computation that began in step b, and let all
      local minima reported and all event messages sent and received meanwhile be at or after some
      time.  Then the GVT announced is at or after it as well, exactly if a computation has ended
      before, or the other processes were constructed with accumulated minima (global_min_clock_,
      which the program leaves uninitialized) at or after that time. */
  lemma GvtIsNotTooLow(steps: seq<Step>, states: seq<Sys>, b: nat, e: nat, u: Update, low: nat)
    requires Run(steps, states) && |states[0].nodes| > 1 && b < e < |steps| && low <= UINT_MAX
    requires Begins(steps, states, b) && forall k :: b < k < e ==> !Begins(steps, states, k)
    requires Announced(states, e, u) && NothingEarlier(steps, states, b, e, low)
    ensures low <= u.gvt <==> ClocksFrom(states[0], low) || exists a :: 0 <= a < b && Announces(states, a)
  {
    assert |states| == |steps| + 1;
    hide *;
    var ps := RunHasPlaces(steps, states);
    AnnouncedFromToken(steps, states, ps, e, u);
    LowerOfTwo(states[e], low);
    if ClocksFrom(states[0], low) || exists a :: 0 <= a < b && Announces(states, a) {
      FromAlong(steps, states, ps, b, e, low);
    } else {
      TooLowAtFirst(steps, states, ps, b, e, low);
    }
  }

  lemma LowerOfTwo(s: Sys, low: nat)
    requires |s.tokens| == 1
    ensures From(s, Flying(0), low) ==> low <= Min(s.tokens[0].clock, s.tokens[0].send)
    ensures s.tokens[0].clock < low ==> Min(s.tokens[0].clock, s.tokens[0].send) < low
  {
  }

  lemma AnnouncedFromToken(steps: seq<Step>, states: seq<Sys>, ps: seq<Place>, e: nat, u: Update)
    requires Run(steps, states) && PlacesOf(steps, states, ps) && e < |steps| && Announced(states, e, u)
    ensures ps[e] == Flying(0) && |states[e].nodes| > 1 && |states[e].tokens| == 1
    ensures u.gvt == Min(states[e].tokens[0].clock, states[e].tokens[0].send)
  {
    hide Inv, Starts, ColorsOk, Apply;
    assert Next(states[e], steps[e], states[e + 1]);
    AnnouncingStep(states[e], steps[e], u);
    InvParts(states[e], ps[e]);
    MovesBetween(states[e], steps[e], ps[e]);
  }

  lemma TooLowAtFirst(steps: seq<Step>, states: seq<Sys>, ps: seq<Place>, b: nat, e: nat, low: nat)
    requires Run(steps, states) && PlacesOf(steps, states, ps) && b < e <= |steps|
    requires ps[e] == Flying(0) && |states[e].tokens| == 1 && |states[e].nodes| > 1
    requires Begins(steps, states, b) && forall k :: b < k < e ==> !Begins(steps, states, k)
    requires !ClocksFrom(states[0], low) && forall a :: 0 <= a < b ==> !Announces(states, a)
    ensures states[e].tokens[0].clock < low
  {
    hide Inv, Starts, StillThere, Announced;
    var j :| 0 < j < |states[0].nodes| && states[0].nodes[j].g.clock < low;
    forall a | 0 <= a < e
      ensures !Announces(states, a)
    {
      if b <= a && Announces(states, a) {
        NowhereAfter(steps, states, ps, a, b, e);
      }
    }
    StillThereAlong(steps, states, ps, e, j);
    TokenHasIt(states[e], j, states[0].nodes[j].g.clock);
  }

  lemma TokenHasIt(s: Sys, j: nat, clock: nat)
    requires |s.nodes| > 1 && StillThere(s, Flying(0), j, clock) && s.tokens != []
    ensures s.tokens[0].clock <= clock
  {
  }

  lemma NowhereAfter(steps: seq<Step>, states: seq<Sys>, ps: seq<Place>, a: nat, b: nat, e: nat)
    requires Run(steps, states) && PlacesOf(steps, states, ps) && b <= a < e <= |steps| && Announces(states, a)
    requires Begins(steps, states, b) && forall k :: b < k < e ==> !Begins(steps, states, k)
    ensures ps[e] == Nowhere
  {
    hide Inv, Starts, Apply;
    assert Next(states[a], steps[a], states[a + 1]);
    var v :| Announced(states, a, v);
    AnnouncingStep(states[a], steps[a], v);
    NowhereStays(steps, states, ps, a + 1, e);
  }

  // ------------------------------------------------------------------------------------------
  // A first GVT that is too low
  // ------------------------------------------------------------------------------------------

  function ManagerOf(color: Color, clock: nat, state: GvtState, startedLocal: bool, startedGlobal: bool): Manager {
    Manager(color, WHITE, 0, 0, UINT_MAX, UINT_MAX, clock, 0, state, startedLocal, startedGlobal, 0)
  }

  function Host(color: Color, clock: nat, state: GvtState, startedLocal: bool, startedGlobal: bool, result: Result): Node {
    Node(ManagerOf(color, clock, state, startedLocal, startedGlobal), {100}, {}, result)
  }

  /** Two processes with one event for time 100 each; the second one was constructed with 5. */
  function Stage(k: nat): Sys {
    Sys([FirstHost(k), SecondHost(k)], [],
        if k == 4 then [Token(1, 100, UINT_MAX, 0)] else if k == 8 then [Token(0, 5, UINT_MAX, 0)] else [], {}, WHITE, [0, 0])
  }

  function FirstHost(k: nat): Node {
    if k == 0 then Host(WHITE, UINT_MAX, IDLE, false, false, NotYet)
    else if k == 1 then Host(WHITE, UINT_MAX, LOCAL, false, false, NotYet)
    else if k == 2 then Host(RED, UINT_MAX, LOCAL, true, true, NotYet)
    else if k == 3 then Host(RED, UINT_MAX, LOCAL, true, true, Computed(100))
    else Host(RED, UINT_MAX, GLOBAL, false, true, NotYet)
  }

  function SecondHost(k: nat): Node {
    if k <= 4 then Host(WHITE, 5, IDLE, false, false, NotYet)
    else if k == 5 then Host(RED, 5, LOCAL, false, false, NotYet)
    else if k == 6 then Host(RED, 5, LOCAL, true, false, NotYet)
    else if k == 7 then Host(RED, 5, LOCAL, true, false, Computed(100))
    else Host(RED, 5, GLOBAL, false, false, NotYet)
  }

  function Move(k: nat): Step {
    if k == 0 then GetReady(0) else if k == 1 then BeginLocal(0) else if k == 2 then EndLocal(0, 100)
    else if k == 3 then SendToken(0) else if k == 4 then TakeToken(1) else if k == 5 then BeginLocal(1)
    else if k == 6 then EndLocal(1, 100) else if k == 7 then SendToken(1) else TakeToken(0)
  }

  lemma StageStarts()
    ensures Starts(Stage(0))
  {
    var nodes := Stage(0).nodes;
    assert nodes[1..] == [nodes[1]] && [nodes[1]][1..] == [];
    assert SumCounts([nodes[1]], WHITE) == 0;
  }

  /** What one step does to a system of two processes that looks like these. */
  ghost predicate Pair(s: Sys) { |s.nodes| == 2 && s.late == [0, 0] && s.updates == {} }

  function With(s: Sys, i: nat, d: Node): Sys
    requires |s.nodes| == 2 && i < 2
  {
    s.(nodes := if i == 0 then [d, s.nodes[1]] else [s.nodes[0], d])
  }

  lemma ReadyMoves(s: Sys)
    requires Pair(s) && s.nodes[0].g.state == IDLE
    ensures Next(s, GetReady(0), With(s, 0, s.nodes[0].(g := s.nodes[0].g.(state := LOCAL))))
  {
    assert forall d :: s.nodes[0 := d] == [d, s.nodes[1]];
  }

  lemma BeginMoves(s: Sys, i: nat)
    requires Pair(s) && i < 2 && s.nodes[i].g.state == LOCAL && !s.nodes[i].g.startedLocal
    ensures Next(s, BeginLocal(i), With(s, i, s.nodes[i].(g := Begin(s.nodes[i].g, i), got := {}, result := NotYet)))
  {
    hide Begin;
    assert forall d :: s.nodes[i := d] == With(s, i, d).nodes;
    assert s.late[0 := 0] == s.late;
  }

  lemma EndMoves(s: Sys, i: nat)
    requires Pair(s) && i < 2 && s.nodes[i].g.state == LOCAL && s.nodes[i].g.startedLocal
    requires s.nodes[i].result == NotYet && s.nodes[i].pending == {100}
    ensures Next(s, EndLocal(i, 100), With(s, i, s.nodes[i].(result := Computed(100))))
  {
    assert forall d :: s.nodes[i := d] == With(s, i, d).nodes;
  }

  lemma SendMoves(s: Sys, i: nat)
    requires Pair(s) && i < 2 && s.tokens == [] && s.nodes[i].g.state == LOCAL && s.nodes[i].g.startedLocal
    requires s.nodes[i].result == Computed(100)
    ensures var d := s.nodes[i];
            Next(s, SendToken(i), With(s, i, d.(g := Ended(d.g, i, 2, 100), result := NotYet)).(tokens := [NewToken(d.g, i, 2, 100)]))
  {
    hide Ended, NewToken;
    var d := s.nodes[i].(g := Ended(s.nodes[i].g, i, 2, 100), result := NotYet);
    assert s.nodes[i := d] == With(s, i, d).nodes;
    assert [] + [NewToken(s.nodes[i].g, i, 2, 100)] == [NewToken(s.nodes[i].g, i, 2, 100)];
  }

  lemma TakeMoves(s: Sys, k: Token)
    requires Pair(s) && s.tokens == [k] && k.receiver == 1
    ensures Next(s, TakeToken(1), With(s, 1, s.nodes[1].(g := ReceiveToken(s.nodes[1].g, 1, k))).(tokens := []))
  {
    hide ReceiveToken;
    var d := s.nodes[1].(g := ReceiveToken(s.nodes[1].g, 1, k));
    assert s.nodes[1 := d] == [s.nodes[0], d] && s.tokens[1..] == [] && s.late[1 := 0] == s.late;
  }

  lemma ManagersBegin(clock: nat)
    ensures Begin(ManagerOf(WHITE, clock, LOCAL, false, false), 0) == ManagerOf(RED, clock, LOCAL, true, true)
    ensures Begin(ManagerOf(RED, clock, LOCAL, false, false), 1) == ManagerOf(RED, clock, LOCAL, true, false)
  {
  }

  lemma ManagersEnd(clock: nat, startedGlobal: bool, id: nat, min: nat)
    requires id < 2 && min <= UINT_MAX && if id == 0 then clock == UINT_MAX else clock <= min
    ensures var g := ManagerOf(RED, clock, LOCAL, true, startedGlobal);
            && Ended(g, id, 2, min) == ManagerOf(RED, clock, GLOBAL, false, startedGlobal)
            && NewToken(g, id, 2, min) == Token(1 - id, if id == 0 then min else clock, UINT_MAX, 0)
  {
  }

  lemma ManagerTakes(clock: nat, min: nat)
    requires clock <= min
    ensures ReceiveToken(ManagerOf(WHITE, clock, IDLE, false, false), 1, Token(1, min, UINT_MAX, 0)) ==
            ManagerOf(RED, clock, LOCAL, false, false)
  {
  }

  lemma HostsAre()
    ensures FirstHost(1).g == ManagerOf(WHITE, UINT_MAX, LOCAL, false, false)
    ensures FirstHost(3).g == ManagerOf(RED, UINT_MAX, LOCAL, true, true)
    ensures SecondHost(4).g == ManagerOf(WHITE, 5, IDLE, false, false)
    ensures SecondHost(5).g == ManagerOf(RED, 5, LOCAL, false, false)
    ensures SecondHost(7).g == ManagerOf(RED, 5, LOCAL, true, false)
  {
    hide ManagerOf;
  }

  lemma HostsFollow()
    ensures FirstHost(1).(g := ManagerOf(RED, UINT_MAX, LOCAL, true, true), got := {}, result := NotYet) == FirstHost(2)
    ensures FirstHost(3).(g := ManagerOf(RED, UINT_MAX, GLOBAL, false, true), result := NotYet) == FirstHost(4)
    ensures SecondHost(4).(g := ManagerOf(RED, 5, LOCAL, false, false)) == SecondHost(5)
    ensures SecondHost(5).(g := ManagerOf(RED, 5, LOCAL, true, false), got := {}, result := NotYet) == SecondHost(6)
    ensures SecondHost(7).(g := ManagerOf(RED, 5, GLOBAL, false, false), result := NotYet) == SecondHost(8)
  {
    hide ManagerOf;
  }

  lemma FirstHostMoves()
    ensures FirstHost(1).(g := Begin(FirstHost(1).g, 0), got := {}, result := NotYet) == FirstHost(2)
    ensures FirstHost(3).(g := Ended(FirstHost(3).g, 0, 2, 100), result := NotYet) == FirstHost(4)
    ensures NewToken(FirstHost(3).g, 0, 2, 100) == Token(1, 100, UINT_MAX, 0)
  {
    HostsAre();
    HostsFollow();
    ManagersBegin(UINT_MAX);
    ManagersEnd(UINT_MAX, true, 0, 100);
    hide *;
  }

  lemma SecondHostMoves()
    ensures SecondHost(4).(g := ReceiveToken(SecondHost(4).g, 1, Token(1, 100, UINT_MAX, 0))) == SecondHost(5)
    ensures SecondHost(5).(g := Begin(SecondHost(5).g, 1), got := {}, result := NotYet) == SecondHost(6)
    ensures SecondHost(7).(g := Ended(SecondHost(7).g, 1, 2, 100), result := NotYet) == SecondHost(8)
    ensures NewToken(SecondHost(7).g, 1, 2, 100) == Token(0, 5, UINT_MAX, 0)
  {
    HostsAre();
    HostsFollow();
    ManagerTakes(5, 100);
    ManagersBegin(5);
    ManagersEnd(5, false, 1, 100);
    hide *;
  }

  lemma FirstMoves(k: nat)
    requires k < 4
    ensures Next(Stage(k), Move(k), Stage(k + 1))
  {
    FirstHostMoves();
    hide Next, Begin, Ended, NewToken;
    if k == 0 {
      ReadyMoves(Stage(0));
    } else if k == 1 {
      BeginMoves(Stage(1), 0);
    } else if k == 2 {
      EndMoves(Stage(2), 0);
    } else {
      SendMoves(Stage(3), 0);
    }
  }

  lemma SecondMoves(k: nat)
    requires 4 <= k < 8
    ensures Next(Stage(k), Move(k), Stage(k + 1))
  {
    SecondHostMoves();
    hide Next, Begin, Ended, NewToken, ReceiveToken;
    if k == 4 {
      TakeMoves(Stage(4), Token(1, 100, UINT_MAX, 0));
    } else if k == 5 {
      BeginMoves(Stage(5), 1);
    } else if k == 6 {
      EndMoves(Stage(6), 1);
    } else {
      SendMoves(Stage(7), 1);
    }
  }

  lemma NothingIsEarlier(k: nat)
    requires k <= 8
    ensures NotEarlier(Stage(k), Move(k), 100)
  {
  }

  lemma LastMove()
    ensures Enabled(Stage(8), TakeToken(0)) && Update(0, 5) in Apply(Stage(8), TakeToken(0)).updates && Stage(8).updates == {}
  {
  }

  /** The first computation, up to its last step. */
  lemma {:induction false} FirstRound(k: nat) returns (steps: seq<Step>, states: seq<Sys>)
    requires k <= 8
    ensures Run(steps, states) && |steps| == k && states[k] == Stage(k) && states[0] == Stage(0)
    ensures NothingEarlier(steps, states, 0, k, 100)
  {
    hide Starts, Next, Stage, Move, NotEarlier;
    if k == 0 {
      StageStarts();
      steps, states := [], [Stage(0)];
    } else {
      steps, states := FirstRound(k - 1);
      if k - 1 < 4 {
        FirstMoves(k - 1);
      } else {
        SecondMoves(k - 1);
      }
      NothingIsEarlier(k - 1);
      steps, states := steps + [Move(k - 1)], states + [Stage(k)];
    }
  }

  /** A run of two processes in which all that is reported is for time 100, and the first GVT is 5. */
  lemma FirstGvtIsTooLow() returns (steps: seq<Step>, states: seq<Sys>)
    ensures Run(steps, states) && |steps| == 9 && |states[0].nodes| == 2 && NothingEarlier(steps, states, 0, 9, 100)
    ensures Announced(states, 8, Update(0, 5))
  {
    hide Starts, Next, NotEarlier;
    steps, states := FirstRound(8);
    LastMove();
    hide Stage, Move;
    steps, states := steps + [TakeToken(0)], states + [Apply(Stage(8), TakeToken(0))];
    LastIsNext(Stage(8));
    assert |Stage(0).nodes| == 2;
  }

  lemma LastIsNext(s: Sys)
    requires Enabled(s, TakeToken(0))
    ensures Next(s, TakeToken(0), Apply(s, TakeToken(0))) && NotEarlier(s, TakeToken(0), 100)
  {
    hide Enabled, Apply;
  }

  /** With a single process the GVT taken over is the local minimum last reported. */
  lemma {:induction false} SoleGvtIsReported(steps: seq<Step>, states: seq<Sys>, e: nat) returns (k: nat)
    requires Run(steps, states) && |states[0].nodes| == 1 && e < |steps| && steps[e] == SendToken(0)
    ensures k < e && |states[e + 1].nodes| == 1 && steps[k] == EndLocal(0, states[e + 1].nodes[0].g.gvt)
    ensures forall i :: k < i < e ==> !steps[i].EndLocal?
  {
    hide Starts;
    assert Next(states[e], steps[e], states[e + 1]);
    k := ResultIsReported(steps, states, e);
  }

  lemma {:induction false} ResultIsReported(steps: seq<Step>, states: seq<Sys>, e: nat) returns (k: nat)
    requires Run(steps, states) && |states[0].nodes| == 1 && e <= |steps|
    ensures |states[e].nodes| == 1
    ensures states[e].nodes[0].result.Computed? ==>
              && k < e && steps[k] == EndLocal(0, states[e].nodes[0].result.min)
              && forall i :: k < i < e ==> !steps[i].EndLocal?
    decreases e
  {
    if e == 0 {
      k := 0;
    } else {
      hide Starts, NotBefore, Sound;
      assert Next(states[e - 1], steps[e - 1], states[e]);
      k := ResultIsReported(steps, states, e - 1);
      if steps[e - 1].EndLocal? {
        k := e - 1;
      }
    }
  }
}
