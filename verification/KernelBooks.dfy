/** What each kernel step does to the message ledger. */
module KernelBooks {
  import opened Events
  import opened Simulation
  import opened Queues
  import opened Kernel
  import opened KernelInvariant
  import opened Ledgers

  /** What the ledger relies on: events sit at their receivers, sends at their senders. */
  ghost predicate Placed(m: Model, s: Sys) {
    && |s.lps| == m.n
    && (forall i :: 0 <= i < m.n ==> PlacedAt(i, s.lps[i]))
  }

  ghost predicate PlacedAt(i: nat, lp: LP) {
    && (forall x :: x in lp.input ==> x.body.recv == i)
    && (forall x :: x in History(lp) ==> x.body.recv == i)
    && (forall x :: x in EventsOf(Outputs(lp)) ==> x.body.sender == i + 1)
    && (forall x :: x in Antis(lp.job) ==> x.body.sender == i + 1)
  }

  lemma InvIsPlaced(m: Model, s: Sys)
    requires Inv(m, s)
    ensures Placed(m, s)
  {
    forall i | 0 <= i < m.n
      ensures PlacedAt(i, s.lps[i])
    {
      LocalIsPlaced(m, i, s.lps[i]);
    }
  }

  lemma LocalIsPlaced(m: Model, i: nat, lp: LP)
    requires LocalOk(m, i, lp)
    ensures PlacedAt(i, lp)
  {
    NumberedIsHere(m, i, lp, EventsOf(Outputs(lp)));
    NumberedIsHere(m, i, lp, Antis(lp.job));
  }

  lemma NumberedIsHere(m: Model, i: nat, lp: LP, q: seq<Event>)
    requires SentHereOk(m, i, lp.generation, lp.sent) && Numbered(lp.sent, q)
    ensures forall x :: x in q ==> x.body.sender == i + 1 && x.body.recv < m.n && x.pos && x.body.ts <= m.maxTime
  {
    forall x | x in q
      ensures x.body.sender == i + 1 && x.body.recv < m.n && x.pos && x.body.ts <= m.maxTime
    {
      var k :| 0 <= k < |q| && q[k] == x;
      assert SentItemOk(m, i, x.gen, lp.sent[x.gen]);
    }
  }

  ghost predicate SameEvents(a: LP, b: LP) {
    && a.input == b.input && History(a) == History(b) && a.sent == b.sent
    && Outputs(a) == Outputs(b) && Antis(a.job) == Antis(b.job)
  }

  /** One list of a family changes, where every event belongs to the list that `owner` names. */
  lemma UnionOfChange(F: seq<seq<Event>>, owner: Event -> int, i: nat, q: seq<Event>)
    requires i < |F|
    requires forall k, x :: 0 <= k < |F| && x in F[k] ==> owner(x) == k
    requires forall x :: x in q ==> owner(x) == i
    ensures forall x :: x in Union(F[i := q]) <==> if owner(x) == i then x in q else x in Union(F)
    ensures forall x :: owner(x) == i ==> (x in Union(F) <==> x in F[i])
  {
    var F' := F[i := q];
    forall x: Event | x in Union(F) && owner(x) != i
      ensures x in Union(F')
    {
      var k :| 0 <= k < |F| && x in F[k];
      assert x in F'[k];
    }
    assert forall x :: x in q ==> x in F'[i];
  }

  /** A change of LP i alone shows in the ledger as the change of i's own entries. */
  lemma LedgerOfChange(m: Model, s: Sys, i: nat, lp: LP)
    requires Placed(m, s) && i < m.n && PlacedAt(i, lp)
    ensures var L, L' := LedgerOf(s), LedgerOf(s.(lps := s.lps[i := lp]));
            && L'.sent == L.sent[i := lp.sent] && L'.net == L.net
            && (forall x: Event :: x in L'.input <==> if x.body.recv == i then x in lp.input else x in L.input)
            && (forall x: Event :: x in L'.history <==> if x.body.recv == i then x in History(lp) else x in L.history)
            && (forall x: Event :: x in L'.live <==> if x.body.sender - 1 == i then x in EventsOf(Outputs(lp)) else x in L.live)
            && (forall x: Event :: x in L'.antis <==> if x.body.sender - 1 == i then x in Antis(lp.job) else x in L.antis)
    ensures LedgerHas(s, i)
  {
    var s' := s.(lps := s.lps[i := lp]);
    assert forall k :: 0 <= k < m.n ==> PlacedAt(k, s.lps[k]);
    var r, f := (x: Event) => x.body.recv as int, (x: Event) => x.body.sender - 1;
    assert SentLists(s') == SentLists(s)[i := lp.sent];
    assert InputLists(s') == InputLists(s)[i := lp.input];
    UnionOfChange(InputLists(s), r, i, lp.input);
    assert HistoryLists(s') == HistoryLists(s)[i := History(lp)];
    UnionOfChange(HistoryLists(s), r, i, History(lp));
    assert LiveLists(s') == LiveLists(s)[i := EventsOf(Outputs(lp))];
    UnionOfChange(LiveLists(s), f, i, EventsOf(Outputs(lp)));
    assert AntiLists(s') == AntiLists(s)[i := Antis(lp.job)];
    UnionOfChange(AntiLists(s), f, i, Antis(lp.job));
  }

  /** In particular, what i keeps the ledger keeps. */
  lemma LedgerOfSameParts(m: Model, s: Sys, i: nat, lp: LP)
    requires Placed(m, s) && i < m.n && PlacedAt(i, lp)
    ensures var L, L' := LedgerOf(s), LedgerOf(s.(lps := s.lps[i := lp]));
            && (lp.input == s.lps[i].input ==> L'.input == L.input)
            && (History(lp) == History(s.lps[i]) ==> L'.history == L.history)
            && (EventsOf(Outputs(lp)) == EventsOf(Outputs(s.lps[i])) ==> L'.live == L.live)
            && (Antis(lp.job) == Antis(s.lps[i].job) ==> L'.antis == L.antis)
            && (lp.sent == s.lps[i].sent ==> L'.sent == L.sent)
  {
    LedgerOfChange(m, s, i, lp);
    assert LedgerOf(s).sent[i] == s.lps[i].sent;
  }

  /** The ledger's entries for LP i are i's own. */
  ghost predicate LedgerHas(s: Sys, i: nat)
    requires i < |s.lps|
  {
    var L := LedgerOf(s);
    && (forall x: Event :: x.body.recv == i ==> (x in L.input <==> x in s.lps[i].input))
    && (forall x: Event :: x.body.recv == i ==> (x in L.history <==> x in History(s.lps[i])))
    && (forall x: Event :: x.body.sender - 1 == i ==> (x in L.live <==> x in EventsOf(Outputs(s.lps[i]))))
    && (forall x: Event :: x.body.sender - 1 == i ==> (x in L.antis <==> x in Antis(s.lps[i].job)))
  }

  /** A step that moves no event of LP i leaves the books as they are. */
  lemma LedgerOfPrivate(m: Model, s: Sys, i: nat, lp: LP)
    requires Placed(m, s) && i < m.n && SameEvents(s.lps[i], lp)
    ensures LedgerOf(s.(lps := s.lps[i := lp])) == LedgerOf(s)
    ensures PlacedAt(i, lp)
  {
    assert PlacedAt(i, s.lps[i]);
    LedgerOfSameParts(m, s, i, lp);
    assert LedgerOf(s).sent[i] == s.lps[i].sent;
  }

  lemma LedgerOfInsert(m: Model, s: Sys, r: nat, e: Event)
    requires Placed(m, s) && r < m.n && e.body.recv == r
    ensures var s' := InsertEvent(m, s, r, e);
            LedgerOf(s') == LedgerOf(s).(input := LedgerOf(s).input + {e}) && Placed(m, s')
  {
    var s' := InsertEvent(m, s, r, e);
    var lp := s.lps[r].(input := Insert(s.lps[r].input, e), scheduled := s'.lps[r].scheduled);
    var t := s.(lps := s.lps[r := lp]);
    assert s'.lps == t.lps;
    assert PlacedAt(r, s.lps[r]);
    LedgerOfGain(m, s, r, lp, e);
    SameLpsSameLedger(s', t);
  }

  lemma LedgerOfGain(m: Model, s: Sys, r: nat, lp: LP, e: Event)
    requires Placed(m, s) && r < m.n && e.body.recv == r && PlacedAt(r, s.lps[r])
    requires lp == s.lps[r].(input := lp.input, scheduled := lp.scheduled)
    requires forall x :: x in lp.input <==> x in s.lps[r].input || x == e
    ensures PlacedAt(r, lp)
    ensures LedgerOf(s.(lps := s.lps[r := lp])) == LedgerOf(s).(input := LedgerOf(s).input + {e})
  {
    LedgerOfChange(m, s, r, lp);
    LedgerOfSameParts(m, s, r, lp);
  }

  lemma SameLpsSameLedger(a: Sys, b: Sys)
    requires a.lps == b.lps && a.net == b.net
    ensures LedgerOf(a) == LedgerOf(b)
  {
    assert InputLists(a) == InputLists(b);
    assert HistoryLists(a) == HistoryLists(b);
    assert LiveLists(a) == LiveLists(b);
    assert AntiLists(a) == AntiLists(b);
    assert SentLists(a) == SentLists(b);
  }

  lemma LedgerOfPost(m: Model, s: Sys, from: nat, e: Event)
    requires Placed(m, s) && e.body.recv < m.n
    ensures var s', L := Post(m, s, from, e), LedgerOf(s);
            && Placed(m, s')
            && LedgerOf(s') == if m.node(e.body.recv) == m.node(from) then L.(input := L.input + {e})
                               else L.(net := L.net + {e})
  {
    if m.node(e.body.recv) == m.node(from) {
      LedgerOfInsert(m, s, e.body.recv, e);
    } else {
      SameLpsSameLedger(s, Post(m, s, from, e).(net := s.net));
    }
  }

  lemma LedgerOfDeliver(m: Model, s: Sys, e: Event)
    requires Placed(m, s) && Enabled(m, s, Deliver(e))
    ensures LedgerOf(Apply(m, s, Deliver(e))) == Ledgers.Deliver(LedgerOf(s), e)
    ensures Placed(m, Apply(m, s, Deliver(e)))
  {
    var t := s.(net := s.net - {e});
    SameLpsSameLedger(s, t.(net := s.net));
    LedgerOfInsert(m, t, e.body.recv, e);
  }

  lemma LedgerOfSendAnti(m: Model, s: Sys, i: nat)
    requires Placed(m, s) && Enabled(m, s, SendAnti(i))
    requires Numbered(s.lps[i].sent, Antis(s.lps[i].job)) && Antis(s.lps[i].job)[0].body.ts <= m.maxTime
    ensures var x := Antis(s.lps[i].job)[0];
            x in LedgerOf(s).antis && x.body.sender == i + 1 &&
            LedgerOf(Apply(m, s, SendAnti(i))) == Ledgers.SendAnti(LedgerOf(s), x, m.node(x.body.recv) == m.node(i))
    ensures Placed(m, Apply(m, s, SendAnti(i)))
  {
    var lp := s.lps[i];
    var antis := Antis(lp.job);
    var lp' := lp.(job := lp.job.(stage := Cancelling(antis[1..], lp.job.stage.restored)));
    assert PlacedAt(i, lp);
    FirstOfNumbered(lp.sent, antis);
    LedgerOfDrop(m, s, i, lp', antis[0]);
    LedgerOfPost(m, s.(lps := s.lps[i := lp']), i, NegOf(antis[0]));
  }

  lemma FirstOfNumbered(sent: seq<Event>, q: seq<Event>)
    requires Numbered(sent, q) && q != []
    ensures forall x :: x in q[1..] <==> x in q && x != q[0]
  {
    forall k | 1 <= k < |q|
      ensures q[k] != q[0]
    {
      assert q[0].gen < q[k].gen;
    }
    assert q == [q[0]] + q[1..];
  }

  lemma LedgerOfDrop(m: Model, s: Sys, i: nat, lp: LP, x: Event)
    requires Placed(m, s) && i < m.n && PlacedAt(i, s.lps[i]) && x in Antis(s.lps[i].job)
    requires lp == s.lps[i].(job := lp.job)
    requires forall y :: y in Antis(lp.job) <==> y in Antis(s.lps[i].job) && y != x
    ensures PlacedAt(i, lp) && x in LedgerOf(s).antis && x.body.sender == i + 1
    ensures LedgerOf(s.(lps := s.lps[i := lp])) == LedgerOf(s).(antis := LedgerOf(s).antis - {x})
  {
    LedgerOfChange(m, s, i, lp);
    LedgerOfSameParts(m, s, i, lp);
  }

  lemma LedgerOfSendOne(m: Model, s: Sys, i: nat, input: Event, msg: Msg, rest: Job)
    requires Placed(m, s) && i < m.n && msg.recv < m.n && msg.ts <= m.maxTime
    requires Antis(s.lps[i].job) == [] == Antis(rest)
    ensures LedgerOf(SendOne(m, s, i, input, msg, rest)) ==
            Ledgers.Send(LedgerOf(s), i, NewEvent(i, s.lps[i], input, msg), m.node(msg.recv) == m.node(i))
    ensures Placed(m, SendOne(m, s, i, input, msg, rest))
  {
    var e := NewEvent(i, s.lps[i], input, msg);
    var lp' := Recorded(s.lps[i].(job := rest), input, e);
    assert PlacedAt(i, s.lps[i]);
    assert Outputs(lp') == Outputs(s.lps[i]) + [Output(input, e)];
    assert EventsOf(Outputs(lp')) == EventsOf(Outputs(s.lps[i])) + [e];
    LedgerOfNewSend(m, s, i, lp', e);
    LedgerOfPost(m, s.(lps := s.lps[i := lp']), i, e);
  }

  lemma LedgerOfNewSend(m: Model, s: Sys, i: nat, lp: LP, e: Event)
    requires Placed(m, s) && i < m.n && PlacedAt(i, s.lps[i]) && e.body.sender == i + 1
    requires lp.input == s.lps[i].input && History(lp) == History(s.lps[i]) && Antis(lp.job) == Antis(s.lps[i].job)
    requires lp.sent == s.lps[i].sent + [e] && EventsOf(Outputs(lp)) == EventsOf(Outputs(s.lps[i])) + [e]
    ensures PlacedAt(i, lp)
    ensures var L := LedgerOf(s);
            LedgerOf(s.(lps := s.lps[i := lp])) == L.(sent := L.sent[i := L.sent[i] + [e]], live := L.live + {e})
  {
    LedgerOfChange(m, s, i, lp);
    LedgerOfSameParts(m, s, i, lp);
  }

  /** Rollback, as the ledger sees it: the undone events and the sends they caused. */
  lemma LedgerOfRollback(m: Model, s: Sys, i: nat, moved: set<Event>, taken: set<Event>)
    requires Placed(m, s) && i < m.n && s.lps[i].job.Busy? && Antis(s.lps[i].job) == []
    requires Ascending(History(s.lps[i])) && Numbered(s.lps[i].sent, EventsOf(Outputs(s.lps[i])))
    requires var lp := s.lps[i];
             && (forall x :: x in moved <==> x in lp.processed[RollPoint(lp.processed, lp.job.event)..])
             && (forall x :: x in taken <==> x in EventsOf(lp.outputs[OutputPoint(lp.outputs, lp.job.event)..]))
    ensures moved <= LedgerOf(s).history && taken <= LedgerOf(s).live
    ensures var lp' := RolledBack(s.lps[i], s.lps[i].job.event);
            && LedgerOf(s.(lps := s.lps[i := lp'])) == Roll(LedgerOf(s), moved, taken)
            && PlacedAt(i, lp')
  {
    hide RollPoint, OutputPoint, RestoreStates, InsertAll, Less, Ascending, Numbered;
    var lp := s.lps[i];
    var e := lp.job.event;
    var lp' := RolledBack(lp, e);
    var undone := lp.processed[RollPoint(lp.processed, e)..];
    var dropped := lp.outputs[OutputPoint(lp.outputs, e)..];
    assert PlacedAt(i, lp);
    assert History(lp) == History(lp') + undone;
    assert Outputs(lp) == Outputs(lp') + dropped;
    assert EventsOf(Outputs(lp)) == EventsOf(Outputs(lp')) + EventsOf(dropped);
    AscendingIsDisjoint(History(lp'), undone);
    NumberedIsDisjoint(lp.sent, EventsOf(Outputs(lp')), EventsOf(dropped));
    LedgerOfUndo(m, s, i, lp', undone, EventsOf(dropped), moved, taken);
  }

  lemma AscendingIsDisjoint(a: seq<Event>, b: seq<Event>)
    requires Ascending(a + b)
    ensures forall x :: x in a ==> x !in b
  {
    forall j, k | 0 <= j < |a| && 0 <= k < |b|
      ensures a[j] != b[k]
    {
      assert Less((a + b)[j], (a + b)[|a| + k]);
    }
  }

  lemma NumberedIsDisjoint(sent: seq<Event>, a: seq<Event>, b: seq<Event>)
    requires Numbered(sent, a + b)
    ensures forall x :: x in a ==> x !in b
  {
    forall j, k | 0 <= j < |a| && 0 <= k < |b|
      ensures a[j] != b[k]
    {
      assert (a + b)[j].gen < (a + b)[|a| + k].gen;
    }
  }

  lemma LedgerOfUndo(m: Model, s: Sys, i: nat, lp: LP, undone: seq<Event>, cancelled: seq<Event>,
                     moved: set<Event>, taken: set<Event>)
    requires Placed(m, s) && i < m.n && PlacedAt(i, s.lps[i])
    requires Antis(s.lps[i].job) == [] && Antis(lp.job) == cancelled && lp.sent == s.lps[i].sent
    requires forall x :: x in moved <==> x in undone
    requires forall x :: x in taken <==> x in cancelled
    requires forall x :: x in lp.input <==> x in s.lps[i].input || x in undone
    requires History(s.lps[i]) == History(lp) + undone && forall x :: x in History(lp) ==> x !in undone
    requires EventsOf(Outputs(s.lps[i])) == EventsOf(Outputs(lp)) + cancelled
    requires forall x :: x in EventsOf(Outputs(lp)) ==> x !in cancelled
    ensures PlacedAt(i, lp)
    ensures moved <= LedgerOf(s).history && taken <= LedgerOf(s).live
    ensures LedgerOf(s.(lps := s.lps[i := lp])) == Roll(LedgerOf(s), moved, taken)
  {
    assert forall x :: x in History(s.lps[i]) <==> x in History(lp) || x in undone;
    assert forall x :: x in EventsOf(Outputs(s.lps[i])) <==> x in EventsOf(Outputs(lp)) || x in cancelled;
    LedgerOfChange(m, s, i, lp);
    LedgerOfSameParts(m, s, i, lp);
  }

  lemma LedgerOfRelease(m: Model, s: Sys, i: nat)
    requires i < |s.lps| && Antis(s.lps[i].job) == []
    ensures LedgerOf(Release(m, s, i)) == LedgerOf(s)
  {
    var s' := Release(m, s, i);
    assert forall k :: 0 <= k < |s.lps| ==> SameEvents(s'.lps[k], s.lps[k]);
    assert InputLists(s') == InputLists(s);
    assert HistoryLists(s') == HistoryLists(s);
    assert LiveLists(s') == LiveLists(s);
    assert AntiLists(s') == AntiLists(s);
    assert SentLists(s') == SentLists(s);
  }
}
