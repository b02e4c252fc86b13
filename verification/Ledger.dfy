/** Conservation of messages, on its own: where copies of events are, and who lays claim to them. */
module Ledgers {
  import opened Events

  /** sent[j] lists all sends of LP j; a send's generation is its position in that list. */
  datatype Ledger = Ledger(
    sent: seq<seq<Event>>,
    input: set<Event>,      // in input queues, anti-messages included
    history: set<Event>,    // processed, collected or not
    net: set<Event>,        // in transit, anti-messages included
    live: set<Event>,       // in output queues, collected or not: the sender stands by them
    antis: set<Event>)      // taken back by a rollback whose anti-message is not out yet

  /** x is a recorded send or the anti-message of one. */
  ghost predicate Known(L: Ledger, x: Event) {
    && 1 <= x.body.sender <= |L.sent|
    && x.gen < |L.sent[x.body.sender - 1]|
    && var y := L.sent[x.body.sender - 1][x.gen];
       x == (if x.pos then y else NegOf(y))
  }

  function One(b: bool): nat { if b then 1 else 0 }

  /** Copies of the positive event x. */
  function Copies(L: Ledger, x: Event): nat {
    One(x in L.input) + One(x in L.history) + One(x in L.net)
  }

  /** Claims on x: its sender's, or that of an anti-message, sent or about to be. */
  function Claims(L: Ledger, x: Event): nat {
    One(x in L.live) + One(x in L.antis) + One(NegOf(x) in L.input) + One(NegOf(x) in L.net)
  }

  /** One copy for one claim, or neither; an anti-message never overtakes its event, and only
      events between processes are ever in transit. */
  ghost predicate Accounted(node: nat -> nat, L: Ledger, x: Event) {
    && Copies(L, x) == Claims(L, x) <= 1
    && (NegOf(x) in L.input ==> x !in L.net)
    && (x in L.net || NegOf(x) in L.net ==> x.body.sender > 0 && node(x.body.recv) != node(x.body.sender - 1))
  }

  ghost predicate SentOk(L: Ledger) {
    forall j, g :: 0 <= j < |L.sent| && 0 <= g < |L.sent[j]| ==>
      L.sent[j][g].pos && L.sent[j][g].gen == g && L.sent[j][g].body.sender == j + 1
  }

  ghost predicate AllKnown(L: Ledger) {
    && (forall x :: x in L.input ==> Known(L, x))
    && (forall x :: x in L.net ==> Known(L, x))
    && (forall x :: x in L.history ==> Known(L, x) && x.pos)
    && (forall x :: x in L.live ==> Known(L, x) && x.pos)
    && (forall x :: x in L.antis ==> Known(L, x) && x.pos)
  }

  ghost predicate Balanced(node: nat -> nat, L: Ledger) {
    && SentOk(L)
    && AllKnown(L)
    && (forall x :: Known(L, x) && x.pos ==> Accounted(node, L, x))
  }

  /** Among known events, receive time, sender, generation and type determine the event. */
  lemma KnownByKey(L: Ledger, x: Event, y: Event)
    requires SentOk(L) && Known(L, x) && Known(L, y)
    ensures SameKey(x, y) ==> x == y
    ensures SameId(x, y) && x.pos == y.pos ==> x == y
    ensures SameId(x, y) && !x.pos && y.pos ==> x == NegOf(y)
    ensures x.pos && y.pos && NegOf(x) == NegOf(y) ==> x == y
  {
  }

  /** Who sent a message in transit: it is an event or an anti-message between two processes. */
  lemma TransitIsBetween(node: nat -> nat, L: Ledger, e: Event)
    requires Balanced(node, L) && e in L.net
    ensures Known(L, e) && L.sent[e.body.sender - 1][e.gen].body.recv == e.body.recv
    ensures node(e.body.recv) != node(e.body.sender - 1)
  {
    var x := L.sent[e.body.sender - 1][e.gen];
    assert Known(L, x) && Accounted(node, L, x);
  }

  /** Sending: a fresh event, with a copy and its sender's claim. */
  function Send(L: Ledger, j: nat, e: Event, local: bool): Ledger
    requires j < |L.sent|
  {
    L.(sent := L.sent[j := L.sent[j] + [e]], live := L.live + {e},
       input := if local then L.input + {e} else L.input,
       net := if local then L.net else L.net + {e})
  }

  lemma SendAccounts(node: nat -> nat, L: Ledger, j: nat, e: Event, x: Event)
    requires SentOk(L) && AllKnown(L) && j < |L.sent|
    requires e.pos && e.gen == |L.sent[j]| && e.body.sender == j + 1
    requires x.pos && (Known(L, x) ==> Accounted(node, L, x))
    requires Known(Send(L, j, e, node(e.body.recv) == node(j)), x)
    ensures Accounted(node, Send(L, j, e, node(e.body.recv) == node(j)), x)
  {
    assert !Known(L, e) && !Known(L, NegOf(e));
    if x.body.sender == j + 1 && x.gen == |L.sent[j]| {
      assert x == e;
    } else {
      assert Known(L, x);
    }
  }

  lemma SendBalances(node: nat -> nat, L: Ledger, j: nat, e: Event)
    requires Balanced(node, L) && j < |L.sent|
    requires e.pos && e.gen == |L.sent[j]| && e.body.sender == j + 1
    ensures Balanced(node, Send(L, j, e, node(e.body.recv) == node(j)))
    ensures !Known(L, e) && !Known(L, NegOf(e))
  {
    var L' := Send(L, j, e, node(e.body.recv) == node(j));
    assert !Known(L, e) && !Known(L, NegOf(e));
    forall x | Known(L', x) && x.pos
      ensures Accounted(node, L', x)
    {
      SendAccounts(node, L, j, e, x);
    }
    assert forall x :: Known(L, x) ==> Known(L', x);
  }

  /** Cancelling: the anti-message goes out and takes over the claim. */
  function SendAnti(L: Ledger, x: Event, local: bool): Ledger {
    L.(antis := L.antis - {x},
       input := if local then L.input + {NegOf(x)} else L.input,
       net := if local then L.net else L.net + {NegOf(x)})
  }

  lemma SendAntiAccounts(node: nat -> nat, L: Ledger, x: Event, y: Event)
    requires SentOk(L) && Known(L, x) && Known(L, y) && x.pos && y.pos && x in L.antis
    requires Accounted(node, L, x) && Accounted(node, L, y)
    ensures Accounted(node, SendAnti(L, x, x.body.sender > 0 && node(x.body.recv) == node(x.body.sender - 1)), y)
  {
    KnownByKey(L, x, y);
  }

  lemma SendAntiBalances(node: nat -> nat, L: Ledger, x: Event)
    requires Balanced(node, L) && x in L.antis
    ensures x.body.sender > 0
    ensures Balanced(node, SendAnti(L, x, node(x.body.recv) == node(x.body.sender - 1)))
    ensures Known(L, NegOf(x)) && NegOf(x) !in L.input && NegOf(x) !in L.net
  {
    assert Known(L, x) && Accounted(node, L, x);
    var L' := SendAnti(L, x, node(x.body.recv) == node(x.body.sender - 1));
    assert forall y :: Known(L, y) ==> Known(L', y);
    forall y | Known(L', y) && y.pos
      ensures Accounted(node, L', y)
    {
      assert Known(L, y);
      SendAntiAccounts(node, L, x, y);
    }
  }

  /** Delivery: from the network into an input queue. */
  function Deliver(L: Ledger, e: Event): Ledger {
    L.(input := L.input + {e}, net := L.net - {e})
  }

  lemma DeliverAccounts(node: nat -> nat, L: Ledger, e: Event, x: Event, y: Event)
    requires SentOk(L) && Known(L, e) && Known(L, x) && Known(L, y) && x.pos && y.pos && e in L.net
    requires e == x || (e == NegOf(x) && x !in L.net)
    requires Accounted(node, L, x) && Accounted(node, L, y)
    ensures Accounted(node, Deliver(L, e), y)
  {
    KnownByKey(L, x, y);
  }

  lemma DeliverBalances(node: nat -> nat, L: Ledger, e: Event)
    requires Balanced(node, L) && e in L.net
    requires !e.pos ==> forall x :: x in L.net && x.pos ==> !SameId(x, e)
    ensures Balanced(node, Deliver(L, e))
    ensures Known(L, e) && e !in L.input
  {
    assert Known(L, e);
    var L' := Deliver(L, e);
    var x := L.sent[e.body.sender - 1][e.gen];
    assert Known(L, x) && Accounted(node, L, x);
    assert forall y :: Known(L, y) ==> Known(L', y);
    forall y | Known(L', y) && y.pos
      ensures Accounted(node, L', y)
    {
      assert Known(L, y);
      DeliverAccounts(node, L, e, x, y);
    }
  }

  /** Rollback: processed events go back to the input queue, sends are taken back. */
  function Roll(L: Ledger, moved: set<Event>, taken: set<Event>): Ledger {
    L.(input := L.input + moved, history := L.history - moved,
       live := L.live - taken, antis := L.antis + taken)
  }

  lemma RollBalances(node: nat -> nat, L: Ledger, moved: set<Event>, taken: set<Event>)
    requires Balanced(node, L) && moved <= L.history && taken <= L.live
    ensures Balanced(node, Roll(L, moved, taken))
    ensures moved !! L.input
  {
    var L' := Roll(L, moved, taken);
    assert forall y :: Known(L, y) ==> Known(L', y);
    forall y | y in moved
      ensures y !in L.input
    {
      assert Known(L, y) && Accounted(node, L, y);
    }
    forall y | Known(L', y) && y.pos
      ensures Accounted(node, L', y)
    {
      assert Known(L, y);
      assert Accounted(node, L, y);
    }
  }

  /** Annihilation: event and anti-message leave the input queue together. */
  function Annihilate(L: Ledger, x: Event): Ledger {
    L.(input := L.input - {x, NegOf(x)})
  }

  lemma AnnihilateBalances(node: nat -> nat, L: Ledger, x: Event)
    requires Balanced(node, L) && x.pos && x in L.input && NegOf(x) in L.input
    ensures Balanced(node, Annihilate(L, x))
  {
    assert Known(L, x) && Accounted(node, L, x);
    var L' := Annihilate(L, x);
    assert forall y :: Known(L, y) ==> Known(L', y);
    forall y | Known(L', y) && y.pos
      ensures Accounted(node, L', y)
    {
      assert Known(L, y);
      assert Accounted(node, L, y);
      KnownByKey(L, x, y);
    }
  }

  /** Processing: a positive event moves into the history. */
  function Process(L: Ledger, x: Event): Ledger {
    L.(input := L.input - {x}, history := L.history + {x})
  }

  lemma ProcessBalances(node: nat -> nat, L: Ledger, x: Event)
    requires Balanced(node, L) && x.pos && x in L.input
    ensures Balanced(node, Process(L, x))
  {
    assert Known(L, x) && Accounted(node, L, x);
    var L' := Process(L, x);
    assert forall y :: Known(L, y) ==> Known(L', y);
    forall y | Known(L', y) && y.pos
      ensures Accounted(node, L', y)
    {
      assert Known(L, y);
      assert Accounted(node, L, y);
      KnownByKey(L, x, y);
    }
  }

  /** The twin of a queued anti-message has been processed, or waits in the same input queue. */
  lemma TwinIsAtReceiver(node: nat -> nat, L: Ledger, neg: Event)
    requires Balanced(node, L) && neg in L.input && !neg.pos
    ensures Known(L, neg)
    ensures var x := L.sent[neg.body.sender - 1][neg.gen];
            x.pos && neg == NegOf(x) && (x in L.input || x in L.history)
  {
    assert Known(L, neg);
    var x := L.sent[neg.body.sender - 1][neg.gen];
    assert Known(L, x) && Accounted(node, L, x);
  }
}
