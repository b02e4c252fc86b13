/** Every step of the kernel keeps the whole invariant; so it holds in every reachable state. */
module KernelSteps {
  import opened Events
  import opened Simulation
  import opened Queues
  import opened Kernel
  import opened KernelInvariant
  import opened KernelScheduling
  import opened KernelBooks
  import opened KernelLocal
  import Ledgers

  ghost predicate LocalsOk(m: Model, s: Sys) {
    |s.lps| == m.n && forall i :: 0 <= i < m.n ==> LocalOk(m, i, s.lps[i])
  }

  /** The invariant, but for the balance of the ledger. */
  ghost predicate InvButBalance(m: Model, s: Sys) {
    LocalsOk(m, s) && SchedulingOk(m, s) && FloorOk(m, s) && Basis(m, s)
  }

  lemma InvHasBasis(m: Model, s: Sys)
    requires WellFormed(m) && Inv(m, s)
    ensures InvButBalance(m, s) && Placed(m, s)
  {
    hide SavedStatesOk, StateOk, OutputsOk, Numbered, HistoryOk, CommittedOk, AntisOk, MsgsOk;
    InvIsPlaced(m, s);
    var L := LedgerOf(s);
    forall i, x | 0 <= i < m.n && x in s.lps[i].input
      ensures Ledgers.Known(L, x) && x.body.recv == i
    {
      assert x in InputLists(s)[i];
      assert x in L.input;
      assert LocalOk(m, i, s.lps[i]);
    }
    forall i | 0 <= i < m.n
      ensures Sorted(s.lps[i].input) && (s.lps[i].job.Busy? ==> s.lps[i].job.event in s.lps[i].input)
    {
      assert LocalOk(m, i, s.lps[i]);
    }
  }

  /** What a step of LP i relies on. */
  lemma InvAt(m: Model, s: Sys, i: nat)
    requires WellFormed(m) && Inv(m, s) && i < |s.lps|
    ensures |s.lps| == m.n && LocalOk(m, i, s.lps[i]) && CollectedOk(s.lps[i], s.floor) && Placed(m, s)
    ensures InvButBalance(m, s) && (s.lps[i].job.Booting? <==> s.lps[i].states == [])
    ensures s.lps[i].job.Busy? ==> s.lps[i].job.event in s.lps[i].input && s.lps[i].states != []
  {
    hide SavedOk, StateOk, OutputsOk, Numbered, HistoryOk, CommittedOk, AntisOk, MsgsOk, InputOk, SentHereOk;
    InvHasBasis(m, s);
  }

  /** What is known about an unprocessed event. */
  lemma Unprocessed(m: Model, s: Sys, i: nat, x: Event)
    requires WellFormed(m) && Inv(m, s) && i < m.n && x in s.lps[i].input
    ensures x in LedgerOf(s).input && Ledgers.Known(LedgerOf(s), x) && x.body.sender > 0 && x.body.recv == i
    ensures x.body.ts >= s.floor && x.body.ts <= m.maxTime
    ensures Ahead(s.lps[i], x)
    ensures forall y :: y in History(s.lps[i]) ==> !SameKey(x, y) && (x.pos ==> !SameId(x, y))
  {
    InvHasBasis(m, s);
    assert x in InputLists(s)[i];
    forall y | y in History(s.lps[i])
      ensures !SameKey(x, y) && (x.pos ==> !SameId(x, y))
    {
      NotTwice(m, s, i, x, y);
    }
    KnownIsInTime(m, s, x);
    UnprocessedIsAhead(m, s, i, x);
  }

  lemma NotTwice(m: Model, s: Sys, i: nat, x: Event, y: Event)
    requires Inv(m, s) && i < m.n && x in s.lps[i].input && y in History(s.lps[i])
    ensures !SameKey(x, y) && (x.pos ==> !SameId(x, y))
  {
    hide LocalOk, SchedulingOk, FloorOk;
    var L := LedgerOf(s);
    assert x in InputLists(s)[i] && y in HistoryLists(s)[i];
    assert x in L.input && y in L.history;
    Ledgers.KnownByKey(L, x, y);
    assert Ledgers.Accounted(m.node, L, y);
  }

  lemma KnownIsInTime(m: Model, s: Sys, x: Event)
    requires LocalsOk(m, s) && Ledgers.Known(LedgerOf(s), x)
    ensures x.body.ts <= m.maxTime && x.body.recv < m.n
  {
    hide SavedStatesOk, StateOk, OutputsOk, Numbered, HistoryOk, CommittedOk, AntisOk, MsgsOk, InputOk, JobOk;
    var j := x.body.sender - 1;
    assert LocalOk(m, j, s.lps[j]);
    assert LedgerOf(s).sent[j] == s.lps[j].sent;
    assert SentItemOk(m, j, x.gen, s.lps[j].sent[x.gen]);
  }

  lemma UnprocessedIsAhead(m: Model, s: Sys, i: nat, x: Event)
    requires LocalsOk(m, s) && FloorOk(m, s) && i < m.n && x in s.lps[i].input && x.body.sender > 0
    ensures Ahead(s.lps[i], x)
  {
    hide SavedStatesOk, StateOk, OutputsOk, Numbered, HistoryOk, AntisOk, MsgsOk, InputOk, JobOk, SentHereOk;
    var lp := s.lps[i];
    assert LocalOk(m, i, lp) && CollectedOk(lp, s.floor);
    assert x.body.ts >= s.floor;
  }

  // ------------------------------------------------------------------------------------------
  // Steps that move no event
  // ------------------------------------------------------------------------------------------

  ghost predicate SameSchedule(a: LP, b: LP) {
    && a.input == b.input && a.scheduled == b.scheduled && a.queue == b.queue
    && (a.job.Busy? <==> b.job.Busy?) && (a.job.Busy? ==> a.job.event == b.job.event)
  }

  lemma SameScheduleIsOk(m: Model, s: Sys, i: nat, lp: LP)
    requires |s.lps| == m.n && i < m.n && SchedulingOk(m, s) && SameSchedule(s.lps[i], lp)
    ensures SchedulingOk(m, s.(lps := s.lps[i := lp]))
  {
    hide Sorted;
    var t := s.(lps := s.lps[i := lp]);
    assert forall q :: QueueOf(t, q) == QueueOf(s, q);
    forall q, x | x in QueueOf(t, q)
      ensures QueuedOk(m, t, q, x)
    {
      assert QueuedOk(m, s, q, x);
    }
    forall k | 0 <= k < m.n
      ensures ScheduledOk(t.lps[k]) && t.lps[k].queue < m.schedulers
    {
      assert ScheduledOk(s.lps[k]);
    }
  }

  lemma SameFloorIsOk(m: Model, s: Sys, i: nat, lp: LP)
    requires FloorOk(m, s) && i < |s.lps| && lp.input == s.lps[i].input
    requires CollectedOk(lp, s.floor) && (lp.job.Booting? ==> s.lps[i].job.Booting?)
    ensures FloorOk(m, s.(lps := s.lps[i := lp]))
  {
    var t := s.(lps := s.lps[i := lp]);
    assert forall k :: 0 <= k < |s.lps| ==> t.lps[k].input == s.lps[k].input;
    assert Booted(s) ==> Booted(t);
  }

  lemma PrivateKeepsInv(m: Model, s: Sys, i: nat, lp: LP)
    requires Inv(m, s) && i < m.n && Placed(m, s)
    requires SameEvents(s.lps[i], lp) && SameSchedule(s.lps[i], lp)
    requires LocalOk(m, i, lp) && CollectedOk(lp, s.floor) && (lp.job.Booting? ==> s.lps[i].job.Booting?)
    ensures Inv(m, s.(lps := s.lps[i := lp]))
  {
    hide LocalOk, SchedulingOk, FloorOk, Ledgers.Balanced, PlacedAt, LedgerOf;
    LedgerOfPrivate(m, s, i, lp);
    SameScheduleIsOk(m, s, i, lp);
    SameFloorIsOk(m, s, i, lp);
  }

  lemma CheckKeepsInv(m: Model, s: Sys, i: nat)
    requires WellFormed(m) && Inv(m, s) && Enabled(m, s, Check(i))
    ensures Inv(m, Apply(m, s, Check(i)))
  {
    var lp := s.lps[i];
    InvHasBasis(m, s);
    if !NeedsRollback(lp, lp.job.event) {
      NoRollbackKeepsInv(m, s, i);
    } else {
      RollbackKeepsInv(m, s, i);
    }
  }

  lemma NoRollbackKeepsInv(m: Model, s: Sys, i: nat)
    requires WellFormed(m) && Inv(m, s) && Enabled(m, s, Check(i)) && !NeedsRollback(s.lps[i], s.lps[i].job.event)
    ensures Inv(m, Apply(m, s, Check(i)))
  {
    hide Inv, InvButBalance, LocalOk, SchedulingOk, FloorOk, Basis, Placed, LedgerOf, Ledgers.Known, Ledgers.Balanced,
         Ahead, Less, SameId, SameKey;
    var lp := s.lps[i];
    InvAt(m, s, i);
    Unprocessed(m, s, i, lp.job.event);
    NoRollbackKeepsLocal(m, i, lp);
    PrivateKeepsInv(m, s, i, lp.(job := lp.job.(stage := Ready)));
  }

  lemma FloorHas(m: Model, s: Sys, i: nat)
    requires FloorOk(m, s) && i < |s.lps|
    ensures CollectedOk(s.lps[i], s.floor)
  {
  }

  lemma CoastKeepsInv(m: Model, s: Sys, i: nat)
    requires WellFormed(m) && Inv(m, s) && Enabled(m, s, Coast(i))
    ensures Inv(m, Apply(m, s, Coast(i)))
  {
    hide Inv, InvButBalance, LocalOk, SchedulingOk, FloorOk, Basis, Placed, LedgerOf, Ledgers.Known, Ledgers.Balanced,
         Ahead, Less, SameId, SameKey;
    hide CoastForward, UpTo;
    InvAt(m, s, i);
    CoastKeepsLocal(m, i, s.lps[i]);
    PrivateKeepsInv(m, s, i, Apply(m, s, Coast(i)).lps[i]);
  }

  lemma ReceiveKeepsInv(m: Model, s: Sys, i: nat)
    requires WellFormed(m) && Inv(m, s) && Enabled(m, s, Receive(i))
    ensures Inv(m, Apply(m, s, Receive(i)))
  {
    hide Inv, InvButBalance, LocalOk, SchedulingOk, FloorOk, Basis, Placed, LedgerOf, Ledgers.Known, Ledgers.Balanced,
         Ahead, Less, SameId, SameKey;
    var lp := s.lps[i];
    InvAt(m, s, i);
    Unprocessed(m, s, i, lp.job.event);
    ReceiveKeepsLocal(m, i, lp);
    PrivateKeepsInv(m, s, i, Apply(m, s, Receive(i)).lps[i]);
  }

  lemma CollectKeepsInv(m: Model, s: Sys, i: nat, g: nat)
    requires WellFormed(m) && Inv(m, s) && Enabled(m, s, Collect(i, g))
    ensures Inv(m, Apply(m, s, Collect(i, g)))
  {
    hide Inv, InvButBalance, LocalOk, SchedulingOk, FloorOk, Basis, Placed, LedgerOf, Ledgers.Known, Ledgers.Balanced,
         Ahead, Less, SameId, SameKey;
    hide Collected;
    var lp := s.lps[i];
    InvAt(m, s, i);
    Unprocessed(m, s, i, lp.job.event);
    CollectedOkAt(lp, s.floor);
    CollectKeepsLocal(m, i, lp, g);
    CollectedStaysOk(lp, g, s.floor);
    PrivateKeepsInv(m, s, i, Collected(lp, g));
  }

  lemma CollectedOkAt(lp: LP, floor: nat)
    requires CollectedOk(lp, floor)
    ensures CollectedOk(lp, lp.lastCollect)
  {
  }

  lemma CollectedStaysOk(lp: LP, g: nat, floor: nat)
    requires lp.job.Busy? && CollectedOk(lp, floor) && g <= floor && lp.states != []
    requires g > lp.lastCollect && Collected(lp, g).states != [] ==>
               Collected(lp, g).states[0] == lp.states[0] || Collected(lp, g).states[0].event.body.ts < g
    ensures CollectedOk(Collected(lp, g), floor)
    ensures var lp' := Collected(lp, g);
            && lp'.job == lp.job.(stage := Closing) && lp'.scheduled == lp.scheduled && lp'.queue == lp.queue
  {
    hide KeptStates, CollectStates, OutputsCollected, EventsCollected;
  }

  // ------------------------------------------------------------------------------------------
  // Steps that post an event
  // ------------------------------------------------------------------------------------------

  lemma InsertKeepsRest(m: Model, t: Sys, r: nat, e: Event)
    requires InvButBalance(m, t) && r < m.n && e.body.recv == r
    requires Ledgers.Known(LedgerOf(t), e) && e !in t.lps[r].input && e.body.ts >= t.floor
    ensures InvButBalance(m, InsertEvent(m, t, r, e))
  {
    hide InvButBalance, LocalOk, SchedulingOk, Basis, Ledgers.Known, LedgerOf, LocalsOk, Sorted, InsertEvent, FloorOk;
    RestHas(m, t);
    InsertKeepsScheduling(m, t, r, e);
    InsertKeepsLocals(m, t, r, e);
    InsertKeepsBasis(m, t, r, e);
    InsertKeepsFloor(m, t, r, e);
    RestFrom(m, InsertEvent(m, t, r, e));
  }

  lemma RestHas(m: Model, t: Sys)
    requires InvButBalance(m, t)
    ensures |t.lps| == m.n && LocalsOk(m, t) && SchedulingOk(m, t) && FloorOk(m, t) && Basis(m, t)
  {
  }

  lemma RestFrom(m: Model, t: Sys)
    requires LocalsOk(m, t) && SchedulingOk(m, t) && FloorOk(m, t) && Basis(m, t)
    ensures InvButBalance(m, t)
  {
  }

  lemma InsertKeepsFloor(m: Model, t: Sys, r: nat, e: Event)
    requires FloorOk(m, t) && r < |t.lps| && e.body.ts >= t.floor
    ensures FloorOk(m, InsertEvent(m, t, r, e))
  {
    hide InsertEvent;
    var s' := InsertEvent(m, t, r, e);
    InsertEventEffect(m, t, r, e);
    assert forall k :: 0 <= k < |t.lps| ==>
             s'.lps[k].job == t.lps[k].job && s'.lps[k].states == t.lps[k].states && s'.lps[k].lastCollect == t.lps[k].lastCollect;
    assert Booted(s') <==> Booted(t);
    assert forall k, x :: 0 <= k < |t.lps| && x in s'.lps[k].input ==> x in t.lps[k].input || x == e;
    assert forall k :: 0 <= k < |t.lps| ==> CollectedOk(t.lps[k], t.floor);
  }

  lemma InsertKeepsLocals(m: Model, t: Sys, r: nat, e: Event)
    requires LocalsOk(m, t) && Basis(m, t) && r < m.n && e.body.recv == r
    requires Ledgers.Known(LedgerOf(t), e) && e !in t.lps[r].input
    ensures LocalsOk(m, InsertEvent(m, t, r, e))
  {
    hide InsertEvent, LocalOk, Ledgers.Known, SameKey;
    var s' := InsertEvent(m, t, r, e);
    KnownKeysDiffer(m, t, r, e);
    InsertEventEffect(m, t, r, e);
    hide Basis, LedgerOf;
    ArrivalKeepsLocal(m, r, t.lps[r], e, s'.lps[r].scheduled);
  }

  lemma KnownKeysDiffer(m: Model, t: Sys, r: nat, e: Event)
    requires Basis(m, t) && r < m.n && Ledgers.Known(LedgerOf(t), e) && e !in t.lps[r].input
    ensures forall x :: x in t.lps[r].input ==> !SameKey(x, e)
  {
    forall x | x in t.lps[r].input
      ensures !SameKey(x, e)
    {
      Ledgers.KnownByKey(LedgerOf(t), x, e);
    }
  }

  lemma SameSentSameOk(a: Ledgers.Ledger, b: Ledgers.Ledger)
    requires a.sent == b.sent && Ledgers.SentOk(b)
    ensures Ledgers.SentOk(a)
  {
  }

  lemma InsertKeepsBasis(m: Model, t: Sys, r: nat, e: Event)
    requires LocalsOk(m, t) && Basis(m, t) && r < m.n && e.body.recv == r
    requires Ledgers.Known(LedgerOf(t), e) && e !in t.lps[r].input
    ensures Basis(m, InsertEvent(m, t, r, e))
  {
    hide InsertEvent, LocalOk, LocalsOk, Sorted, Ledgers.Known, SameKey, Insert, Ledgers.SentOk;
    var s' := InsertEvent(m, t, r, e);
    KnownKeysDiffer(m, t, r, e);
    InsertEventEffect(m, t, r, e);
    InsertKeepsSorted(t.lps[r].input, e);
    assert forall k :: 0 <= k < m.n ==> s'.lps[k].sent == t.lps[k].sent && s'.lps[k].job == t.lps[k].job;
    assert SentLists(s') == SentLists(t);
    SameSentSameKnown(LedgerOf(s'), LedgerOf(t));
    SameSentSameOk(LedgerOf(s'), LedgerOf(t));
  }

  lemma PostKeepsRest(m: Model, t: Sys, from: nat, e: Event)
    requires InvButBalance(m, t) && e.body.recv < m.n
    requires Ledgers.Known(LedgerOf(t), e) && e !in t.lps[e.body.recv].input && e.body.ts >= t.floor
    ensures InvButBalance(m, Post(m, t, from, e))
  {
    if m.node(e.body.recv) == m.node(from) {
      InsertKeepsRest(m, t, e.body.recv, e);
    } else {
      NetGainKeepsRest(m, t, e);
    }
  }

  lemma NetGainKeepsRest(m: Model, t: Sys, e: Event)
    requires InvButBalance(m, t) && e.body.ts >= t.floor
    ensures InvButBalance(m, t.(net := t.net + {e}))
  {
    hide LocalOk, SchedulingOk, Sorted, Ledgers.Known, CollectedOk;
    var s' := t.(net := t.net + {e});
    assert SentLists(s') == SentLists(t);
    SameSentSameKnown(LedgerOf(s'), LedgerOf(t));
    SameSentSameOk(LedgerOf(s'), LedgerOf(t));
    SchedulingIgnoresNet(m, t, s');
  }

  lemma SameSentSameKnown(a: Ledgers.Ledger, b: Ledgers.Ledger)
    requires a.sent == b.sent
    ensures forall x :: Ledgers.Known(a, x) <==> Ledgers.Known(b, x)
  {
  }

  lemma SchedulingIgnoresNet(m: Model, s: Sys, t: Sys)
    requires SchedulingOk(m, s) && t.lps == s.lps && t.queues == s.queues
    ensures SchedulingOk(m, t)
  {
    hide Sorted;
    assert forall q :: QueueOf(t, q) == QueueOf(s, q);
    forall q, x | x in QueueOf(t, q)
      ensures QueuedOk(m, t, q, x)
    {
      assert QueuedOk(m, s, q, x);
    }
  }

  lemma InvFrom(m: Model, s: Sys)
    requires InvButBalance(m, s) && Ledgers.Balanced(m.node, LedgerOf(s))
    ensures Inv(m, s)
  {
  }

  /** A change of LP i that prepares a post: queues as before, sends perhaps one more. */
  lemma PreparedKeepsRest(m: Model, s: Sys, i: nat, lp: LP)
    requires InvButBalance(m, s) && i < m.n && LocalOk(m, i, lp)
    requires SameSchedule(s.lps[i], lp) && s.lps[i].sent <= lp.sent
    requires CollectedOk(lp, s.floor) && (lp.job.Booting? ==> s.lps[i].job.Booting?)
    ensures InvButBalance(m, s.(lps := s.lps[i := lp]))
  {
    var t := s.(lps := s.lps[i := lp]);
    SameScheduleIsOk(m, s, i, lp);
    SameFloorIsOk(m, s, i, lp);
    PreparedKeepsBasis(m, s, i, lp);
    hide LocalOk, SchedulingOk, FloorOk, Basis;
  }

  lemma PreparedKeepsBasis(m: Model, s: Sys, i: nat, lp: LP)
    requires Basis(m, s) && i < m.n && SentHereOk(m, i, lp.generation, lp.sent)
    requires SameSchedule(s.lps[i], lp) && s.lps[i].sent <= lp.sent
    ensures Basis(m, s.(lps := s.lps[i := lp]))
  {
    hide Sorted;
    var t := s.(lps := s.lps[i := lp]);
    var L, L' := LedgerOf(s), LedgerOf(t);
    assert L'.sent == L.sent[i := lp.sent];
    assert L.sent[i] == s.lps[i].sent;
    forall x | Ledgers.Known(L, x)
      ensures Ledgers.Known(L', x)
    {
    }
    forall j, g | 0 <= j < |L'.sent| && 0 <= g < |L'.sent[j]|
      ensures L'.sent[j][g].pos && L'.sent[j][g].gen == g && L'.sent[j][g].body.sender == j + 1
    {
      if j == i {
        assert SentItemOk(m, i, g, lp.sent[g]);
      } else {
        assert L'.sent[j] == L.sent[j];
      }
    }
    assert forall k :: 0 <= k < m.n ==> t.lps[k].input == s.lps[k].input;
  }

  lemma SendAntiKeepsInv(m: Model, s: Sys, i: nat)
    requires WellFormed(m) && Inv(m, s) && Enabled(m, s, SendAnti(i))
    ensures Inv(m, Apply(m, s, SendAnti(i)))
  {
    hide Inv, InvButBalance, LocalOk, SchedulingOk, FloorOk, Basis, Placed, LedgerOf, Ledgers.Known, Ledgers.Balanced,
         Ahead, Less, SameId, SameKey;
    var lp := s.lps[i];
    var antis := Antis(lp.job);
    var x := antis[0];
    var lp' := lp.(job := lp.job.(stage := Cancelling(antis[1..], lp.job.stage.restored)));
    var t := s.(lps := s.lps[i := lp']);
    InvAt(m, s, i);
    Unprocessed(m, s, i, lp.job.event);
    AntisAreHere(m, i, lp);
    SendAntiKeepsLocal(m, i, lp);
    PreparedKeepsRest(m, s, i, lp');
    LedgerOfSendAnti(m, s, i);
    InvIsBalanced(m, s);
    Ledgers.SendAntiBalances(m.node, LedgerOf(s), x);
    AntiIsNew(m, s, i, x, t);
    PostKeepsRest(m, t, i, NegOf(x));
    InvFrom(m, Apply(m, s, SendAnti(i)));
  }

  lemma AntisAreHere(m: Model, i: nat, lp: LP)
    requires LocalOk(m, i, lp) && Antis(lp.job) != []
    ensures Numbered(lp.sent, Antis(lp.job))
    ensures var x := Antis(lp.job)[0];
            x.body.sender == i + 1 && x.body.recv < m.n && x.body.ts <= m.maxTime && x.body.ts > lp.job.event.body.ts
  {
    NumberedIsHere(m, i, lp, Antis(lp.job));
    assert Antis(lp.job)[0] in Antis(lp.job);
  }

  lemma InvIsBalanced(m: Model, s: Sys)
    requires Inv(m, s)
    ensures Ledgers.Balanced(m.node, LedgerOf(s)) && |LedgerOf(s).sent| == m.n
  {
  }

  lemma AntiIsNew(m: Model, s: Sys, i: nat, x: Event, t: Sys)
    requires |s.lps| == m.n == |t.lps| && x.body.recv < m.n
    requires Ledgers.Known(LedgerOf(s), NegOf(x)) && NegOf(x) !in LedgerOf(s).input
    requires forall k :: 0 <= k < m.n ==> t.lps[k].sent == s.lps[k].sent && t.lps[k].input == s.lps[k].input
    ensures Ledgers.Known(LedgerOf(t), NegOf(x)) && NegOf(x) !in t.lps[x.body.recv].input
  {
    assert SentLists(t) == SentLists(s);
    SameSentSameKnown(LedgerOf(s), LedgerOf(t));
    assert InputLists(s)[x.body.recv] == t.lps[x.body.recv].input;
  }

  /** The step that handles the next new event, while the LP boots or after it processed. */
  lemma SendKeepsInv(m: Model, s: Sys, i: nat, input: Event, msgs: seq<Msg>, rest: Job)
    requires WellFormed(m) && Inv(m, s) && i < |s.lps| && msgs != [] && msgs[0].recv < m.n
    requires HandlesNext(s.lps[i].job, input, msgs, rest)
    ensures Inv(m, SendOne(m, s, i, input, msgs[0], rest))
  {
    hide Inv, InvButBalance, LocalOk, SchedulingOk, FloorOk, Basis, Placed, LedgerOf, Ledgers.Known, Ledgers.Balanced,
         Ahead, Less, SameId, SameKey;
    InvLength(m, s);
    var lp := s.lps[i];
    InvAt(m, s, i);
    if msgs[0].ts > m.maxTime {
      DropKeepsLocal(m, i, lp, input, msgs, rest);
      PrivateKeepsInv(m, s, i, lp.(job := rest));
    } else {
      RecordKeepsInv(m, s, i, input, msgs, rest);
    }
  }

  lemma RecordKeepsInv(m: Model, s: Sys, i: nat, input: Event, msgs: seq<Msg>, rest: Job)
    requires WellFormed(m) && Inv(m, s) && i < m.n && msgs != [] && msgs[0].recv < m.n && msgs[0].ts <= m.maxTime
    requires HandlesNext(s.lps[i].job, input, msgs, rest)
    ensures Inv(m, SendOne(m, s, i, input, msgs[0], rest))
  {
    hide Inv, InvButBalance, LocalOk, SchedulingOk, FloorOk, Basis, Placed, LedgerOf, Ledgers.Known, Ledgers.Balanced,
         WellFormed, HandlesNext, CollectedOk;
    InvLength(m, s);
    var lp := s.lps[i];
    var e := NewEvent(i, lp, input, msgs[0]);
    var lp' := Recorded(lp.(job := rest), input, e);
    var t := s.(lps := s.lps[i := lp']);
    InvAt(m, s, i);
    RestHas(m, s);
    InvIsBalanced(m, s);
    NextHasNoAntis(s.lps[i].job, input, msgs, rest);
    SendIsNotBeforeFloor(m, s, i, input, msgs, rest);
    RecordKeepsLocal(m, i, lp, input, msgs, rest);
    NextNumberIsFresh(m, s, i);
    RecordedIsCollectedOk(lp, lp', s.floor);
    PreparedKeepsRest(m, s, i, lp');
    LedgerOfSendOne(m, s, i, input, msgs[0], rest);
    Ledgers.SendBalances(m.node, LedgerOf(s), i, e);
    BalancedIsKnown(m.node, LedgerOf(s));
    NewEventIsNew(m, s, i, lp', e, t);
    PostKeepsRest(m, t, i, e);
    InvFrom(m, SendOne(m, s, i, input, msgs[0], rest));
  }

  lemma NextHasNoAntis(job: Job, input: Event, msgs: seq<Msg>, rest: Job)
    requires HandlesNext(job, input, msgs, rest)
    ensures Antis(job) == [] == Antis(rest) && (rest.Booting? <==> job.Booting?)
    ensures (rest.Busy? <==> job.Busy?) && (job.Busy? ==> rest.event == job.event)
  {
  }

  lemma RecordedIsCollectedOk(lp: LP, lp': LP, floor: nat)
    requires CollectedOk(lp, floor) && lp'.states == lp.states && lp'.lastCollect == lp.lastCollect
    ensures CollectedOk(lp', floor)
  {
  }

  lemma BalancedIsKnown(node: nat -> nat, L: Ledgers.Ledger)
    requires Ledgers.Balanced(node, L)
    ensures Ledgers.AllKnown(L)
  {
  }

  lemma NextNumberIsFresh(m: Model, s: Sys, i: nat)
    requires LocalsOk(m, s) && i < m.n
    ensures s.lps[i].generation == |LedgerOf(s).sent[i]| && i < |LedgerOf(s).sent| && LedgerOf(s).sent[i] == s.lps[i].sent
  {
    assert LocalOk(m, i, s.lps[i]);
  }

  lemma SendIsNotBeforeFloor(m: Model, s: Sys, i: nat, input: Event, msgs: seq<Msg>, rest: Job)
    requires WellFormed(m) && Inv(m, s) && i < m.n && msgs != []
    requires HandlesNext(s.lps[i].job, input, msgs, rest)
    ensures msgs[0].ts >= s.floor
  {
    var lp := s.lps[i];
    assert LocalOk(m, i, lp);
    if lp.job.Booting? {
      assert !Booted(s);
    } else {
      Unprocessed(m, s, i, lp.job.event);
    }
  }

  lemma NewEventIsNew(m: Model, s: Sys, i: nat, lp: LP, e: Event, t: Sys)
    requires |s.lps| == m.n && i < m.n && e.body.recv < m.n && Placed(m, s)
    requires t == s.(lps := s.lps[i := lp]) && lp.input == s.lps[i].input && lp.sent == s.lps[i].sent + [e]
    requires e.pos && e.gen == |s.lps[i].sent| && e.body.sender == i + 1
    requires !Ledgers.Known(LedgerOf(s), e) && Ledgers.AllKnown(LedgerOf(s))
    ensures Ledgers.Known(LedgerOf(t), e) && e !in t.lps[e.body.recv].input
  {
    var r := e.body.recv;
    assert t.lps[r].input == s.lps[r].input == InputLists(s)[r];
    assert LedgerOf(t).sent[i] == lp.sent;
    assert e !in LedgerOf(s).input;
  }

  lemma BootKeepsInv(m: Model, s: Sys, i: nat)
    requires WellFormed(m) && Inv(m, s) && Enabled(m, s, Boot(i))
    ensures Inv(m, Apply(m, s, Boot(i)))
  {
    hide Inv, InvButBalance, LocalOk, SchedulingOk, FloorOk, Basis, Placed, LedgerOf, Ledgers.Known, Ledgers.Balanced,
         Ahead, Less, SameId, SameKey;
    var lp := s.lps[i];
    var msgs := lp.job.msgs;
    InvAt(m, s, i);
    if msgs == [] {
      BootedKeepsLocal(m, i, lp);
      PrivateKeepsInv(m, s, i, Apply(m, s, Boot(i)).lps[i]);
    } else if msgs[0].recv < m.n {
      SendKeepsInv(m, s, i, INITIAL, msgs, Booting(msgs[1..]));
    }
  }

  lemma SendNextKeepsInv(m: Model, s: Sys, i: nat)
    requires WellFormed(m) && Inv(m, s) && Enabled(m, s, SendNext(i))
    ensures Inv(m, Apply(m, s, SendNext(i)))
  {
    var job := s.lps[i].job;
    SendKeepsInv(m, s, i, job.event, job.stage.msgs, job.(stage := Sending(job.stage.msgs[1..])));
  }

  lemma DeliverKeepsInv(m: Model, s: Sys, e: Event)
    requires WellFormed(m) && Inv(m, s) && Enabled(m, s, Deliver(e))
    ensures Inv(m, Apply(m, s, Deliver(e)))
  {
    var t := s.(net := s.net - {e});
    assert Apply(m, s, Deliver(e)) == InsertEvent(m, t, e.body.recv, e);
    hide *;
    InvHasBasis(m, s);
    LedgerOfDeliver(m, s, e);
    DeliveredBalances(m, s, e);
    MayBeInserted(m, s, t, e);
    InsertKeepsRest(m, t, e.body.recv, e);
    InvFrom(m, Apply(m, s, Deliver(e)));
  }

  lemma DeliveredBalances(m: Model, s: Sys, e: Event)
    requires Inv(m, s) && Placed(m, s) && Enabled(m, s, Deliver(e))
    requires LedgerOf(Apply(m, s, Deliver(e))) == Ledgers.Deliver(LedgerOf(s), e)
    ensures Ledgers.Balanced(m.node, LedgerOf(Apply(m, s, Deliver(e))))
  {
    hide LocalOk, SchedulingOk, FloorOk, Apply, Ledgers.Balanced, Placed;
    Ledgers.DeliverBalances(m.node, LedgerOf(s), e);
  }

  lemma MayBeInserted(m: Model, s: Sys, t: Sys, e: Event)
    requires WellFormed(m) && Inv(m, s) && InvButBalance(m, s) && Enabled(m, s, Deliver(e)) && t == s.(net := s.net - {e})
    ensures e.body.recv < m.n && e.body.recv < |t.lps| && InvButBalance(m, t)
    ensures Ledgers.Known(LedgerOf(t), e) && e !in t.lps[e.body.recv].input && e.body.ts >= t.floor
  {
    Ledgers.DeliverBalances(m.node, LedgerOf(s), e);
    assert InputLists(s)[e.body.recv] == t.lps[e.body.recv].input;
    NetKeepsRest(m, s, t);
    SameSentSameKnown(LedgerOf(t), LedgerOf(s));
    hide SchedulingOk, Basis, LocalOk;
  }

  lemma NetKeepsRest(m: Model, s: Sys, t: Sys)
    requires InvButBalance(m, s) && t == s.(net := t.net) && t.net <= s.net
    ensures InvButBalance(m, t) && SentLists(t) == SentLists(s)
  {
    hide LocalOk, Ledgers.Known, Sorted;
    SchedulingIgnoresNet(m, s, t);
    SameSentSameKnown(LedgerOf(t), LedgerOf(s));
  }

  // ------------------------------------------------------------------------------------------
  // Rollback
  // ------------------------------------------------------------------------------------------

  lemma RollbackKeepsInv(m: Model, s: Sys, i: nat)
    requires WellFormed(m) && Inv(m, s) && Enabled(m, s, Check(i)) && NeedsRollback(s.lps[i], s.lps[i].job.event)
    ensures Inv(m, Apply(m, s, Check(i)))
  {
    hide Inv, InvButBalance, LocalOk, SchedulingOk, FloorOk, Basis, Placed, LedgerOf, Ledgers.Known, Ledgers.Balanced,
         WellFormed, RolledBack, RollPoint, OutputPoint, Less, NeedsRollback, Ahead, SameKey, SameId;
    InvLength(m, s);
    var lp := s.lps[i];
    var e := lp.job.event;
    InvAt(m, s, i);
    RestHas(m, s);
    InvIsBalanced(m, s);
    BalancedIsKnown(m.node, LedgerOf(s));
    Unprocessed(m, s, i, e);
    forall x, y | x in lp.input && y in History(lp)
      ensures !SameKey(x, y)
    {
      NotTwice(m, s, i, x, y);
    }
    RollbackKeepsLocal(m, i, lp);
    var moved := set x | x in lp.processed[RollPoint(lp.processed, e)..];
    var taken := set x | x in EventsOf(lp.outputs[OutputPoint(lp.outputs, e)..]);
    TakenIsOrdered(m, i, lp);
    LedgerOfRollback(m, s, i, moved, taken);
    Ledgers.RollBalances(m.node, LedgerOf(s), moved, taken);
    RollbackKeepsRest(m, s, i);
    InvFrom(m, Apply(m, s, Check(i)));
  }

  lemma TakenIsOrdered(m: Model, i: nat, lp: LP)
    requires LocalOk(m, i, lp) && lp.job.Busy? && lp.job.stage.Taken?
    ensures Antis(lp.job) == [] && Ascending(History(lp)) && Numbered(lp.sent, EventsOf(Outputs(lp)))
  {
  }

  lemma RollbackKeepsRest(m: Model, s: Sys, i: nat)
    requires InvButBalance(m, s) && i < m.n && s.lps[i].job.Busy?
    requires LocalOk(m, i, RolledBack(s.lps[i], s.lps[i].job.event))
    requires s.lps[i].job.event.body.ts >= s.floor && Ahead(s.lps[i], s.lps[i].job.event) && s.lps[i].states != []
    requires Ledgers.AllKnown(LedgerOf(s))
    ensures InvButBalance(m, s.(lps := s.lps[i := RolledBack(s.lps[i], s.lps[i].job.event)]))
  {
    hide RolledBack, LocalOk, SchedulingOk, Ledgers.Known, LedgerOf, Ahead, FloorOk, Basis;
    var lp := s.lps[i];
    var e := lp.job.event;
    var lp' := RolledBack(lp, e);
    RolledBackKeeps(lp, e);
    RolledBackIsNotBeforeFloor(lp, e);
    BusyKeepsScheduling(m, s, i, lp');
    UndoneIsKnown(m, s, i, lp');
    LocalHasInput(m, i, lp');
    RollbackKeepsBasis(m, s, i, lp');
    RollbackKeepsFloor(m, s, i, lp');
  }

  lemma RolledBackKeeps(lp: LP, e: Event)
    requires lp.job.Busy?
    ensures var lp' := RolledBack(lp, e);
            && lp'.sent == lp.sent && lp'.lastCollect == lp.lastCollect && lp'.scheduled == lp.scheduled
            && lp'.queue == lp.queue && lp'.job.Busy? && lp'.job.event == lp.job.event
  {
    hide RollPoint, OutputPoint, RestoreStates, InsertAll;
  }

  lemma LocalHasInput(m: Model, i: nat, lp: LP)
    requires LocalOk(m, i, lp)
    ensures InputOk(i, lp.input) && (lp.job.Busy? ==> lp.job.event in lp.input)
  {
  }

  lemma RolledBackIsNotBeforeFloor(lp: LP, e: Event)
    requires lp.job.Busy?
    ensures var lp' := RolledBack(lp, e);
            && (forall x :: x in lp'.input ==> x in lp.input || (x in History(lp) && x.body.ts >= e.body.ts))
            && (forall x :: x in lp.input ==> x in lp'.input)
            && lp'.states <= lp.states
  {
    hide RollPoint, OutputPoint, RestoreStates, InsertAll;
    var c := RollPoint(lp.processed, e);
    forall x | x in lp.processed[c..]
      ensures x in History(lp) && x.body.ts >= e.body.ts
    {
      var k :| 0 <= k < |lp.processed[c..]| && lp.processed[c..][k] == x;
      assert x == lp.processed[c + k];
    }
  }

  lemma UndoneIsKnown(m: Model, s: Sys, i: nat, lp: LP)
    requires |s.lps| == m.n && i < m.n && Ledgers.AllKnown(LedgerOf(s))
    requires forall x :: x in lp.input ==> x in s.lps[i].input || x in History(s.lps[i])
    ensures forall x :: x in lp.input ==> Ledgers.Known(LedgerOf(s), x)
  {
    forall x | x in lp.input
      ensures Ledgers.Known(LedgerOf(s), x)
    {
      if x in s.lps[i].input {
        assert x in InputLists(s)[i];
        assert x in LedgerOf(s).input;
      } else {
        assert x in HistoryLists(s)[i];
        assert x in LedgerOf(s).history;
      }
    }
  }

  lemma RollbackKeepsBasis(m: Model, s: Sys, i: nat, lp: LP)
    requires Basis(m, s) && i < m.n && InputOk(i, lp.input) && lp.sent == s.lps[i].sent
    requires forall x :: x in lp.input ==> Ledgers.Known(LedgerOf(s), x)
    requires lp.job.Busy? && lp.job.event in lp.input
    ensures Basis(m, s.(lps := s.lps[i := lp]))
  {
    var t := s.(lps := s.lps[i := lp]);
    assert SentLists(t) == SentLists(s);
    hide Sorted, Ledgers.Known;
    SameSentSameKnown(LedgerOf(t), LedgerOf(s));
  }

  lemma RollbackKeepsFloor(m: Model, s: Sys, i: nat, lp: LP)
    requires FloorOk(m, s) && i < |s.lps| && s.lps[i].job.Busy? && lp.job.Busy? && lp.lastCollect == s.lps[i].lastCollect
    requires forall x :: x in lp.input ==> x in s.lps[i].input || x.body.ts >= s.floor
    requires lp.states <= s.lps[i].states
    ensures FloorOk(m, s.(lps := s.lps[i := lp]))
  {
    var t := s.(lps := s.lps[i := lp]);
    assert CollectedOk(s.lps[i], s.floor);
    assert Booted(s) ==> Booted(t);
  }

  lemma BusyKeepsScheduling(m: Model, s: Sys, i: nat, lp: LP)
    requires |s.lps| == m.n && i < m.n && SchedulingOk(m, s)
    requires s.lps[i].job.Busy? && lp.job.Busy? && lp.job.event == s.lps[i].job.event
    requires lp.scheduled == s.lps[i].scheduled && lp.queue == s.lps[i].queue
    ensures SchedulingOk(m, s.(lps := s.lps[i := lp]))
  {
    hide Sorted;
    var t := s.(lps := s.lps[i := lp]);
    assert forall q :: QueueOf(t, q) == QueueOf(s, q);
    forall q, x | x in QueueOf(t, q)
      ensures QueuedOk(m, t, q, x)
    {
      assert QueuedOk(m, s, q, x);
    }
    forall k | 0 <= k < m.n
      ensures ScheduledOk(t.lps[k]) && t.lps[k].queue < m.schedulers
    {
      assert ScheduledOk(s.lps[k]);
    }
  }

  // ------------------------------------------------------------------------------------------
  // Steps that take or let go of an LP
  // ------------------------------------------------------------------------------------------

  lemma GetEventKeepsInv(m: Model, s: Sys, w: Worker)
    requires WellFormed(m) && Inv(m, s) && Enabled(m, s, GetEvent(w))
    ensures Inv(m, Apply(m, s, GetEvent(w)))
  {
    hide Inv, InvButBalance, LocalOk, SchedulingOk, FloorOk, Basis, LedgerOf, Ledgers.Known, Ledgers.Balanced, Placed;
    var e := QueueOf(s, QueueId(w.node, w.thread % NonZero(m.schedulers)))[0];
    var r := e.body.recv;
    InvLength(m, s);
    InvAt(m, s, r);
    RestHas(m, s);
    GetEventTakesIdle(m, s, w);
    GetEventKeepsScheduling(m, s, w);
    TakeKeepsLocal(m, r, s.lps[r], w, e);
    TakenKeepsInv(m, s, r, s.lps[r].(job := Busy(w, e, Taken)), Apply(m, s, GetEvent(w)));
  }

  lemma InvLength(m: Model, s: Sys)
    requires Inv(m, s)
    ensures |s.lps| == m.n
  {
  }

  lemma TakenKeepsInv(m: Model, s: Sys, r: nat, lp: LP, s': Sys)
    requires Inv(m, s) && Placed(m, s) && r < m.n && LocalOk(m, r, lp)
    requires lp == s.lps[r].(job := lp.job) && s.lps[r].job.Idle? && lp.job.Busy? && lp.job.stage.Taken?
    requires s'.lps == s.lps[r := lp] && s'.net == s.net && s'.floor == s.floor && SchedulingOk(m, s')
    ensures Inv(m, s')
  {
    hide LocalOk, SchedulingOk, Ledgers.Balanced, Placed, LedgerOf, FloorOk;
    var t := s.(lps := s.lps[r := lp]);
    FloorHas(m, s, r);
    LedgerOfPrivate(m, s, r, lp);
    SameLpsSameLedger(s', t);
    SameFloorIsOk(m, s, r, lp);
    FloorIgnoresQueues(m, t, s');
  }

  lemma FloorIgnoresQueues(m: Model, s: Sys, t: Sys)
    requires FloorOk(m, s) && t.lps == s.lps && t.net == s.net && t.floor == s.floor
    ensures FloorOk(m, t)
  {
  }

  /** What cancelling and finishing have in common: LP i's input only loses events. */
  lemma ReleaseKeepsInv(m: Model, s: Sys, i: nat, lp: LP)
    requires Inv(m, s) && InvButBalance(m, s) && i < m.n && s.lps[i].job.Busy? && Antis(lp.job) == []
    requires forall sch :: LocalOk(m, i, lp.(job := Idle, scheduled := sch))
    requires forall x :: x in lp.input ==> x in s.lps[i].input
    requires lp.sent == s.lps[i].sent && lp.queue < m.schedulers && lp.states == s.lps[i].states
    requires lp.lastCollect == s.lps[i].lastCollect && lp.job == s.lps[i].job
    requires Ledgers.Balanced(m.node, LedgerOf(s.(lps := s.lps[i := lp])))
    ensures Inv(m, Release(m, s.(lps := s.lps[i := lp]), i))
  {
    LocalHasInput(m, i, lp.(job := Idle, scheduled := None));
    hide LocalOk, SchedulingOk, FloorOk, Ledgers.Balanced, LedgerOf, Sorted, Basis;
    var t := s.(lps := s.lps[i := lp]);
    var s' := Release(m, t, i);
    LedgerOfRelease(m, t, i);
    ReleaseKeepsScheduled(m, s, i, lp);
    ReleaseKeepsFloor(m, s, i, lp);
    forall k | 0 <= k < m.n
      ensures LocalOk(m, k, s'.lps[k])
    {
      if k == i {
        assert s'.lps[i] == lp.(job := Idle, scheduled := s'.lps[i].scheduled);
      } else {
        assert s'.lps[k] == s.lps[k];
      }
    }
  }

  lemma ReleaseKeepsFloor(m: Model, s: Sys, i: nat, lp: LP)
    requires FloorOk(m, s) && i < |s.lps| && s.lps[i].job.Busy?
    requires forall x :: x in lp.input ==> x in s.lps[i].input
    requires lp.lastCollect == s.lps[i].lastCollect && lp.states == s.lps[i].states
    ensures FloorOk(m, Release(m, s.(lps := s.lps[i := lp]), i))
  {
    var s' := Release(m, s.(lps := s.lps[i := lp]), i);
    assert CollectedOk(s.lps[i], s.floor);
    assert forall k :: 0 <= k < |s.lps| && k != i ==> s'.lps[k] == s.lps[k];
    assert Booted(s) ==> Booted(s');
  }

  lemma ReleaseKeepsScheduled(m: Model, s: Sys, i: nat, lp: LP)
    requires InvButBalance(m, s) && i < m.n && s.lps[i].job.Busy? && lp.queue < m.schedulers
    requires forall x :: x in lp.input ==> x in s.lps[i].input
    requires Sorted(lp.input) && lp.sent == s.lps[i].sent
    ensures SchedulingOk(m, Release(m, s.(lps := s.lps[i := lp]), i))
  {
    hide LocalOk, FloorOk, Sorted, Ledgers.Known;
    var t := s.(lps := s.lps[i := lp]);
    EntriesAreOwn(m, s, i);
    assert forall q :: QueueOf(t, q) == QueueOf(s, q);
    forall p, x | x in QueueOf(t, p)
      ensures x.body.recv != i && QueuedOk(m, t, p, x)
    {
      assert x.body.recv != i;
      assert QueuedOk(m, s, p, x);
    }
    var b := t.(lps := t.lps[i := t.lps[i].(job := Idle)]);
    assert SentLists(b) == SentLists(s);
    SameSentSameKnown(LedgerOf(b), LedgerOf(s));
    ReleaseKeepsScheduling(m, t, i);
  }

  lemma CancelKeepsInv(m: Model, s: Sys, i: nat)
    requires WellFormed(m) && Inv(m, s) && Enabled(m, s, Cancel(i))
    ensures Inv(m, Apply(m, s, Cancel(i)))
  {
    var lp := s.lps[i];
    var neg := lp.job.event;
    InvHasBasis(m, s);
    var x := TwinIsQueued(m, s, i);
    var lp' := lp.(input := CancelIn(lp.input, neg));
    assert LocalOk(m, i, lp);
    CancelRemovesTwins(lp.input, neg, x);
    forall sch: Option<Event>
      ensures LocalOk(m, i, lp'.(job := Idle, scheduled := sch))
    {
      CancelKeepsLocal(m, i, lp, x, sch);
    }
    LedgerOfCancel(m, s, i, x);
    Ledgers.AnnihilateBalances(m.node, LedgerOf(s), x);
    assert ScheduledOk(lp) && lp.queue < m.schedulers;
    ReleaseKeepsInv(m, s, i, lp');
  }

  /** The positive twin of a negative event in hand waits in the input queue. */
  lemma TwinIsQueued(m: Model, s: Sys, i: nat) returns (x: Event)
    requires WellFormed(m) && Inv(m, s) && Enabled(m, s, Cancel(i))
    ensures x.pos && s.lps[i].job.event == NegOf(x) && x in s.lps[i].input
    ensures x in LedgerOf(s).input && NegOf(x) in LedgerOf(s).input
  {
    hide Inv, LocalOk, LedgerOf, Ledgers.Known, Ledgers.Balanced, Placed, PlacedAt, WellFormed, Ahead, Less, SameId, SameKey;
    InvLength(m, s);
    var lp := s.lps[i];
    var neg := lp.job.event;
    InvAt(m, s, i);
    InvIsBalanced(m, s);
    Unprocessed(m, s, i, neg);
    Ledgers.TwinIsAtReceiver(m.node, LedgerOf(s), neg);
    KnownNegative(LedgerOf(s), neg);
    x := LedgerOf(s).sent[neg.body.sender - 1][neg.gen];
    PlacedHere(m, s, i);
    LedgerOfChange(m, s, i, lp);
    EntriesOf(s, i, x);
    TwinIsNotProcessed(m, i, lp, x);
  }

  lemma KnownNegative(L: Ledgers.Ledger, x: Event)
    requires Ledgers.Known(L, x)
    ensures 1 <= x.body.sender <= |L.sent| && x.gen < |L.sent[x.body.sender - 1]|
  {
  }

  lemma PlacedHere(m: Model, s: Sys, i: nat)
    requires Placed(m, s) && i < m.n
    ensures PlacedAt(i, s.lps[i])
  {
  }

  lemma EntriesOf(s: Sys, i: nat, x: Event)
    requires i < |s.lps| && LedgerHas(s, i) && x.body.recv == i
    ensures x in LedgerOf(s).input <==> x in s.lps[i].input
    ensures x in LedgerOf(s).history <==> x in History(s.lps[i])
  {
    hide LedgerOf;
  }

  /** Nothing in the history is the twin of the negative event in hand. */
  lemma TwinIsNotProcessed(m: Model, i: nat, lp: LP, x: Event)
    requires LocalOk(m, i, lp) && lp.job.Busy? && lp.job.stage.Ready? && lp.job.event == NegOf(x)
    ensures x !in History(lp)
  {
    hide SavedStatesOk, StateOk, OutputsOk, Numbered, AntisOk, MsgsOk, InputOk, SentHereOk;
  }

  lemma LedgerOfCancel(m: Model, s: Sys, i: nat, x: Event)
    requires Placed(m, s) && i < m.n && s.lps[i].job.Busy? && Sorted(s.lps[i].input)
    requires x.pos && s.lps[i].job.event == NegOf(x) && x in s.lps[i].input && NegOf(x) in s.lps[i].input
    ensures var lp' := s.lps[i].(input := CancelIn(s.lps[i].input, NegOf(x)));
            LedgerOf(s.(lps := s.lps[i := lp'])) == Ledgers.Annihilate(LedgerOf(s), x)
  {
    hide Sorted, CanCancel, CancelIn, Find, Less;
    var lp := s.lps[i];
    var lp' := lp.(input := CancelIn(lp.input, NegOf(x)));
    CancelRemovesTwins(lp.input, NegOf(x), x);
    assert PlacedAt(i, lp);
    LedgerOfChange(m, s, i, lp');
    LedgerOfSameParts(m, s, i, lp');
  }

  lemma ReplenishKeepsInv(m: Model, s: Sys, i: nat)
    requires WellFormed(m) && Inv(m, s) && Enabled(m, s, Replenish(i))
    ensures Inv(m, Apply(m, s, Replenish(i)))
  {
    hide Inv, InvButBalance, LocalOk, SchedulingOk, FloorOk, Basis, LedgerOf, Ledgers.Known, Ledgers.Balanced, Placed,
         Finished, Erase, Release, Ahead, Less, WellFormed;
    var lp := s.lps[i];
    var e := lp.job.event;
    var lp' := Finished(m, lp);
    InvAt(m, s, i);
    InvHasBasis(m, s);
    RestHas(m, s);
    HolderIsScheduled(m, s, i);
    FinishedParts(m, lp);
    forall sch: Option<Event>
      ensures LocalOk(m, i, lp'.(job := Idle, scheduled := sch))
    {
      FinishKeepsLocal(m, i, lp, sch);
    }
    FinishKeepsLocal(m, i, lp, None);
    LedgerOfFinish(m, s, i);
    Unprocessed(m, s, i, e);
    ClosingIsPositive(m, i, lp);
    InvIsBalanced(m, s);
    Ledgers.ProcessBalances(m.node, LedgerOf(s), e);
    FinishedLoses(m, lp);
    ReleaseKeepsInv(m, s, i, lp');
  }

  lemma ClosingIsPositive(m: Model, i: nat, lp: LP)
    requires LocalOk(m, i, lp) && lp.job.Busy? && lp.job.stage.Closing?
    ensures lp.job.event.pos
  {
  }

  lemma FinishedLoses(m: Model, lp: LP)
    requires lp.job.Busy?
    ensures forall x :: x in Finished(m, lp).input ==> x in lp.input
  {
    hide Erase;
  }

  lemma HolderIsScheduled(m: Model, s: Sys, i: nat)
    requires SchedulingOk(m, s) && i < |s.lps|
    ensures ScheduledOk(s.lps[i]) && s.lps[i].queue < m.schedulers
  {
  }

  lemma FinishedParts(m: Model, lp: LP)
    requires lp.job.Busy?
    ensures var lp' := Finished(m, lp);
            && lp'.sent == lp.sent && lp'.outputs == lp.outputs && lp'.committedOut == lp.committedOut
            && lp'.job == lp.job && lp'.states == lp.states && lp'.lastCollect == lp.lastCollect
    ensures lp.queue < m.schedulers ==> Finished(m, lp).queue < m.schedulers
  {
    hide Erase;
  }

  lemma LedgerOfFinish(m: Model, s: Sys, i: nat)
    requires Placed(m, s) && i < m.n && s.lps[i].job.Busy? && s.lps[i].job.event.body.recv == i
    requires var lp := s.lps[i];
             && History(Finished(m, lp)) == History(lp) + [lp.job.event]
             && (forall x :: x in Finished(m, lp).input <==> x in lp.input && x != lp.job.event)
    ensures LedgerOf(s.(lps := s.lps[i := Finished(m, s.lps[i])])) == Ledgers.Process(LedgerOf(s), s.lps[i].job.event)
  {
    hide Erase, Finished, Less;
    var lp := s.lps[i];
    var lp' := Finished(m, lp);
    FinishedParts(m, lp);
    assert PlacedAt(i, lp);
    assert forall x :: x in History(lp') <==> x in History(lp) || x == lp.job.event;
    LedgerOfChange(m, s, i, lp');
    LedgerOfSameParts(m, s, i, lp');
  }

  lemma AdvanceKeepsInv(m: Model, s: Sys, g: nat)
    requires Inv(m, s) && Enabled(m, s, Advance(g))
    ensures Inv(m, Apply(m, s, Advance(g)))
  {
    hide LocalOk, Ledgers.Balanced;
    var s' := Apply(m, s, Advance(g));
    SameLpsSameLedger(s', s);
    SchedulingIgnoresNet(m, s, s');
    assert forall i :: 0 <= i < |s.lps| ==> CollectedOk(s.lps[i], s.floor) && CollectedOk(s'.lps[i], s'.floor);
  }

  // ------------------------------------------------------------------------------------------
  // All runs
  // ------------------------------------------------------------------------------------------

  lemma StepKeepsInv(m: Model, s: Sys, t: Step, s': Sys)
    requires WellFormed(m) && Inv(m, s) && Next(m, s, t, s')
    ensures Inv(m, s')
  {
    hide Inv, Apply, Enabled;
    match t {
      case Boot(i) => BootKeepsInv(m, s, i);
      case GetEvent(w) => GetEventKeepsInv(m, s, w);
      case Check(i) => CheckKeepsInv(m, s, i);
      case SendAnti(i) => SendAntiKeepsInv(m, s, i);
      case Coast(i) => CoastKeepsInv(m, s, i);
      case Cancel(i) => CancelKeepsInv(m, s, i);
      case Receive(i) => ReceiveKeepsInv(m, s, i);
      case SendNext(i) => SendNextKeepsInv(m, s, i);
      case Collect(i, g) => CollectKeepsInv(m, s, i, g);
      case Replenish(i) => ReplenishKeepsInv(m, s, i);
      case Deliver(e) => DeliverKeepsInv(m, s, e);
      case Advance(g) => AdvanceKeepsInv(m, s, g);
    }
  }

  lemma StartIsLocal(m: Model, i: nat)
    requires WellFormed(m) && i < m.n
    ensures LocalOk(m, i, StartLP(m, i))
  {
    hide SavedOk;
    var lp := StartLP(m, i);
    assert History(lp) == [] && Outputs(lp) == [];
    assert Made([]) + Unsent(m, i, lp.job) == SendsOf(m, i, []);
  }

  lemma StartIsOk(m: Model)
    requires WellFormed(m)
    ensures Inv(m, Start(m))
  {
    hide LocalOk, Ledgers.Balanced, StartLP;
    var s := Start(m);
    forall i | 0 <= i < m.n
      ensures LocalOk(m, i, s.lps[i])
    {
      StartIsLocal(m, i);
    }
    StartIsBalanced(m);
    StartIsIdle(m);
  }

  lemma StartIsIdle(m: Model)
    requires WellFormed(m)
    ensures SchedulingOk(m, Start(m)) && FloorOk(m, Start(m))
  {
    var s := Start(m);
    assert forall i :: 0 <= i < m.n ==> s.lps[i] == StartLP(m, i);
  }

  lemma StartIsBalanced(m: Model)
    ensures Ledgers.Balanced(m.node, LedgerOf(Start(m)))
  {
    hide Ledgers.Accounted;
    var s := Start(m);
    var L := LedgerOf(s);
    forall i | 0 <= i < m.n
      ensures L.sent[i] == [] && InputLists(s)[i] == [] && HistoryLists(s)[i] == []
      ensures LiveLists(s)[i] == [] && AntiLists(s)[i] == []
    {
      assert s.lps[i] == StartLP(m, i);
    }
  }

  lemma {:induction false} RunKeepsInv(m: Model, steps: seq<Step>, s: Sys)
    requires WellFormed(m) && Reaches(m, steps, s)
    ensures Inv(m, s)
    decreases |steps|
  {
    if steps == [] {
      StartIsOk(m);
    } else {
      var before, last := steps[..|steps| - 1], steps[|steps| - 1];
      var r :| Reaches(m, before, r) && Next(m, r, last, s);
      RunKeepsInv(m, before, r);
      StepKeepsInv(m, r, last, s);
    }
  }

  lemma ReachableHasInv(m: Model, s: Sys)
    requires WellFormed(m) && Reachable(m, s)
    ensures Inv(m, s)
  {
    var steps :| Reaches(m, steps, s);
    RunKeepsInv(m, steps, s);
  }
}
