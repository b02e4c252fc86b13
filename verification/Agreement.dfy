/** Time Warp agrees with the sequential dispatcher: when nothing is left to do, every LP has
    processed the same events in the same order and ended in the same state. */
module Agreement {
  import opened Events
  import opened Simulation
  import opened Queues
  import opened Kernel
  import opened KernelInvariant
  import opened KernelBooks
  import opened KernelSteps
  import Ledgers
  import Sequential

  /** No LP has an unprocessed event and no event message is in transit. */
  ghost predicate Quiescent(s: Sys) {
    && Booted(s)
    && (forall i :: 0 <= i < |s.lps| ==> s.lps[i].input == [])
    && s.net == {}
  }

  function PositionOf(q: seq<Event>, x: Event): (k: nat)
    ensures k <= |q|
    ensures x in q ==> k < |q| && q[k] == x
  {
    if q == [] || q[0] == x then 0 else
      assert x in q ==> x in q[1..];
      1 + PositionOf(q[1..], x)
  }

  /** Rollbacks use up generations.  Renumbered, an event's generation is its position among the
      sends that its sender still stands by. */
  function Renumbered(s: Sys, x: Event): Event {
    if 1 <= x.body.sender <= |s.lps| then
      x.(gen := PositionOf(EventsOf(Outputs(s.lps[x.body.sender - 1])), x))
    else x
  }

  function RenumberedHistory(s: Sys, h: seq<Event>): (r: seq<Event>)
    ensures |r| == |h| && forall k :: 0 <= k < |h| ==> r[k] == Renumbered(s, h[k])
  {
    seq(|h|, k requires 0 <= k < |h| => Renumbered(s, h[k]))
  }

  function Histories(s: Sys): (r: seq<seq<Event>>)
    ensures |r| == |s.lps| && forall i :: 0 <= i < |s.lps| ==> r[i] == RenumberedHistory(s, History(s.lps[i]))
  {
    seq(|s.lps|, i requires 0 <= i < |s.lps| => RenumberedHistory(s, History(s.lps[i])))
  }

  /** A live event: its sender stands by it. */
  ghost predicate Live(s: Sys, x: Event) {
    1 <= x.body.sender <= |s.lps| && x in EventsOf(Outputs(s.lps[x.body.sender - 1]))
  }

  /** Renumbering keeps the order of any two live events: it is a change of names only. */
  lemma RenumberingKeepsOrder(m: Model, s: Sys, x: Event, y: Event)
    requires WellFormed(m) && Reachable(m, s) && Live(s, x) && Live(s, y)
    ensures Less(x, y) <==> Less(Renumbered(s, x), Renumbered(s, y))
    ensures Renumbered(s, x).body == x.body && Renumbered(s, x).pos == x.pos
    ensures Renumbered(s, x) == Renumbered(s, y) ==> x == y
  {
    ReachableHasInv(m, s);
    RenumberingIsMonotone(m, s, x, y);
  }

  lemma RenumberingIsMonotone(m: Model, s: Sys, x: Event, y: Event)
    requires WellFormed(m) && Inv(m, s) && Live(s, x) && Live(s, y)
    ensures Less(x, y) <==> Less(Renumbered(s, x), Renumbered(s, y))
    ensures Renumbered(s, x) == Renumbered(s, y) ==> x == y
  {
    hide PositionOf, Inv, LocalOk, InvButBalance, Placed, CollectedOk, Numbered;
    if x.body.sender == y.body.sender {
      var j := x.body.sender - 1;
      var q := EventsOf(Outputs(s.lps[j]));
      InvAt(m, s, j);
      OutputsAreNumbered(m, j, s.lps[j]);
      NumberedOrder(s.lps[j].sent, q, PositionOf(q, x), PositionOf(q, y));
    }
  }

  lemma OutputsAreNumbered(m: Model, i: nat, lp: LP)
    requires LocalOk(m, i, lp)
    ensures Numbered(lp.sent, EventsOf(Outputs(lp))) && SentHereOk(m, i, lp.generation, lp.sent)
  {
  }

  lemma NumberedOrder(sent: seq<Event>, q: seq<Event>, a: nat, b: nat)
    requires Numbered(sent, q) && a < |q| && b < |q|
    ensures q[a].gen < q[b].gen <==> a < b
    ensures q[a] == q[b] <==> a == b
  {
  }

  /** When the system is quiescent, the processed events are exactly the live ones. */
  lemma ProcessedIsLive(m: Model, s: Sys, i: nat, x: Event)
    requires WellFormed(m) && Inv(m, s) && Quiescent(s) && i < m.n
    ensures x in History(s.lps[i]) <==> Live(s, x) && x.body.recv == i
    ensures x in History(s.lps[i]) ==> x.pos
  {
    var L := LedgerOf(s);
    InvHasBasis(m, s);
    QuiescentLedger(m, s);
    LiveIsInLedger(m, s, x);
    ProcessedIsInLedger(m, s, i, x);
    if Ledgers.Known(L, x) && x.pos {
      assert Ledgers.Accounted(m.node, L, x);
    }
  }

  lemma QuiescentLedger(m: Model, s: Sys)
    requires WellFormed(m) && Inv(m, s) && Quiescent(s)
    ensures var L := LedgerOf(s); L.input == {} && L.net == {} && L.antis == {}
    ensures forall i :: 0 <= i < m.n ==> s.lps[i].job.Idle?
  {
    forall i | 0 <= i < m.n
      ensures s.lps[i].job.Idle?
    {
      InvAt(m, s, i);
    }
    assert forall i :: 0 <= i < m.n ==> AntiLists(s)[i] == [] && InputLists(s)[i] == [];
  }

  lemma LiveIsInLedger(m: Model, s: Sys, x: Event)
    requires Inv(m, s) && Placed(m, s)
    ensures Live(s, x) <==> x in LedgerOf(s).live
  {
    hide LocalOk, SchedulingOk, FloorOk, Ledgers.Balanced;
    if Live(s, x) {
      assert x in LiveLists(s)[x.body.sender - 1];
    }
    if x in LedgerOf(s).live {
      var k :| 0 <= k < |s.lps| && x in LiveLists(s)[k];
      assert PlacedAt(k, s.lps[k]);
    }
  }

  lemma ProcessedIsInLedger(m: Model, s: Sys, i: nat, x: Event)
    requires Inv(m, s) && Placed(m, s) && i < m.n
    ensures x in History(s.lps[i]) <==> x in LedgerOf(s).history && x.body.recv == i
  {
    hide LocalOk, SchedulingOk, FloorOk, Ledgers.Balanced;
    assert PlacedAt(i, s.lps[i]);
    if x in History(s.lps[i]) {
      assert x in HistoryLists(s)[i];
    }
    if x in LedgerOf(s).history {
      var k :| 0 <= k < |s.lps| && x in HistoryLists(s)[k];
      assert PlacedAt(k, s.lps[k]);
    }
  }

  /** An idle LP stands by exactly the sends of its renumbered history. */
  lemma LiveIsSent(m: Model, s: Sys, j: nat)
    requires WellFormed(m) && Inv(m, s) && j < m.n && s.lps[j].job.Idle?
    ensures var q := EventsOf(Outputs(s.lps[j]));
            var sends := SendsOf(m, j, Histories(s)[j]);
            && |q| == |sends| && (forall k :: 0 <= k < |q| ==> q[k].body == sends[k].body && q[k].pos)
            && (forall k :: 0 <= k < |q| ==> q[k].body.sender == j + 1 && PositionOf(q, q[k]) == k)
    ensures s.lps[j].state == StateOf(m, j, Histories(s)[j])
  {
    hide SavedOk, StateOf, SendsOf, PositionOf, HistoryOk, AntisOk, MsgsOk, InputOk, JobOk, CommittedOk;
    var lp := s.lps[j];
    var h := History(lp);
    var q := EventsOf(Outputs(lp));
    InvAt(m, s, j);
    assert Made(Outputs(lp)) + [] == Made(Outputs(lp));
    ReplayIgnoresGenerations(m, j, h, RenumberedHistory(s, h));
    NumberedIsHere(m, j, lp, q);
    forall k | 0 <= k < |q|
      ensures PositionOf(q, q[k]) == k && q[k].body.sender == j + 1 && q[k].pos
    {
      assert q[k] in q;
      NumberedOrder(lp.sent, q, PositionOf(q, q[k]), k);
    }
  }

  /** Renumbered, a quiescent Time Warp run is a complete simulation. */
  lemma QuiescentIsComplete(m: Model, s: Sys)
    requires WellFormed(m) && Inv(m, s) && Quiescent(s)
    ensures Complete(m, Histories(s))
  {
    var H := Histories(s);
    QuiescentLedger(m, s);
    forall i | 0 <= i < m.n
      ensures Ascending(H[i])
    {
      HistoryStaysAscending(m, s, i);
    }
    forall i: nat, e: Event | i < m.n
      ensures e in H[i] <==> e.body.recv == i && IsSent(m, H, e)
    {
      if e in H[i] {
        ProcessedIsSent(m, s, i, e);
      }
      if e.body.recv == i && IsSent(m, H, e) {
        SentIsProcessed(m, s, i, e);
      }
    }
  }

  lemma HistoryStaysAscending(m: Model, s: Sys, i: nat)
    requires WellFormed(m) && Inv(m, s) && Quiescent(s) && i < m.n
    ensures Ascending(Histories(s)[i])
  {
    hide PositionOf, LedgerOf, Inv, Quiescent, Renumbered, Live;
    InvLength(m, s);
    var h := History(s.lps[i]);
    HistoryIsAscending(m, s, i);
    forall a, b | 0 <= a < b < |h|
      ensures Less(Renumbered(s, h[a]), Renumbered(s, h[b]))
    {
      ProcessedIsLive(m, s, i, h[a]);
      ProcessedIsLive(m, s, i, h[b]);
      RenumberingIsMonotone(m, s, h[a], h[b]);
    }
  }

  lemma HistoryIsAscending(m: Model, s: Sys, i: nat)
    requires Inv(m, s) && i < m.n
    ensures Ascending(History(s.lps[i]))
  {
    assert LocalOk(m, i, s.lps[i]);
  }

  lemma ProcessedIsSent(m: Model, s: Sys, i: nat, e: Event)
    requires WellFormed(m) && Inv(m, s) && Quiescent(s) && i < m.n && e in Histories(s)[i]
    ensures e.body.recv == i && IsSent(m, Histories(s), e)
  {
    hide PositionOf, SendsOf, Inv, Quiescent;
    InvLength(m, s);
    QuiescentLedger(m, s);
    var h := History(s.lps[i]);
    var k :| 0 <= k < |h| && e == Renumbered(s, h[k]);
    ProcessedIsLive(m, s, i, h[k]);
    var j := h[k].body.sender - 1;
    var q := EventsOf(Outputs(s.lps[j]));
    assert q[PositionOf(q, h[k])] == h[k];
    LiveIsSent(m, s, j);
  }

  lemma SentIsProcessed(m: Model, s: Sys, i: nat, e: Event)
    requires WellFormed(m) && Inv(m, s) && Quiescent(s) && i < m.n && e.body.recv == i
    requires IsSent(m, Histories(s), e)
    ensures e in Histories(s)[i]
  {
    hide PositionOf, SendsOf, Inv, Quiescent;
    InvLength(m, s);
    QuiescentLedger(m, s);
    var j := e.body.sender - 1;
    var q := EventsOf(Outputs(s.lps[j]));
    LiveIsSent(m, s, j);
    var x := q[e.gen];
    assert x in q && Renumbered(s, x) == e;
    ProcessedIsLive(m, s, i, x);
    var h := History(s.lps[i]);
    var k :| 0 <= k < |h| && h[k] == x;
    assert Histories(s)[i][k] == e;
  }

  /** Main theorem.  Let H be the histories that the sequential dispatcher leaves behind (they are
      complete, by the contract of StartSimulation).  In every reachable quiescent state of Time
      Warp, under any interleaving, any assignment of LPs to processes and queues, any saving period
      and any valid GVT, each LP has processed exactly H's events in H's order, up to the renumbering
      of generations, and is in the state that H leads to. */
  lemma TimeWarpAgreesWithSequential(m: Model, s: Sys, H: seq<seq<Event>>)
    requires WellFormed(m) && Reachable(m, s) && Quiescent(s)
    requires Complete(m, H)
    ensures Histories(s) == H
    ensures |s.lps| == m.n && forall i :: 0 <= i < m.n ==> s.lps[i].state == StateOf(m, i, H[i])
  {
    ReachableHasInv(m, s);
    QuiescentIsComplete(m, s);
    CompleteIsUnique(m, Histories(s), H);
    QuiescentLedger(m, s);
    forall i | 0 <= i < m.n
      ensures s.lps[i].state == StateOf(m, i, H[i])
    {
      LiveIsSent(m, s, i);
    }
  }

  /** The same, as a method that runs the sequential dispatcher. */
  method CompareWithSequential(m: Model, ghost s: Sys) returns (d: Sequential.SequentialEventDispatcher)
    requires WellFormed(m) && Reachable(m, s) && Quiescent(s)
    ensures Histories(s) == d.history
    ensures |d.states| == |s.lps| == m.n && forall i :: 0 <= i < m.n ==> s.lps[i].state == d.states[i]
  {
    d := new Sequential.SequentialEventDispatcher(m);
    var _ := d.StartSimulation();
    TimeWarpAgreesWithSequential(m, s, d.history);
  }
}
