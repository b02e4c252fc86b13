/** What a simulation is: the models' behaviour, the replay of a history, and what it means for a
    family of histories to be a complete simulation. */
module Simulation {
  import opened Events

  /** A saved or current LP state, random number generators included. */
  type State(!new, ==)

  /** An event as a model creates it: the kernel fills in sender, send time and generation. */
  datatype Msg = Msg(recv: nat, ts: nat, data: Data)

  /** The application and its configuration.  LPs are 0..n-1; LP i has name i + 1.
      `node` maps an LP to its process, `home` to its first schedule queue. */
  datatype Model = Model(
    n: nat,
    maxTime: nat,
    init: nat -> State,
    initMsgs: nat -> seq<Msg>,
    receive: (nat, State, Body) -> (State, seq<Msg>),
    node: nat -> nat,
    home: nat -> nat,
    schedulers: nat,
    migration: bool,
    period: nat)

  /** What the kernel needs of an application: receivers exist, new events are strictly later, and
      the end of the simulation is not the value that stands for infinity. */
  ghost predicate WellFormed(m: Model) {
    && m.maxTime < UINT_MAX
    && m.schedulers > 0
    && (forall i :: m.home(i) < m.schedulers)
    && (forall i, k :: 0 <= k < |m.initMsgs(i)| ==> m.initMsgs(i)[k].recv < m.n)
    && (forall i, s, b, k :: 0 <= k < |m.receive(i, s, b).1| ==>
          m.receive(i, s, b).1[k].recv < m.n && m.receive(i, s, b).1[k].ts > b.ts)
  }

  /** One send: the event that caused it and what was sent. */
  datatype Send = Send(input: Event, body: Body)

  /** The sends caused by `input` at LP i: events past the end of the simulation are dropped. */
  function SendsFrom(m: Model, i: nat, input: Event, msgs: seq<Msg>): (r: seq<Send>)
    ensures forall x :: x in r ==> x.input == input && x.body.sender == i + 1 && x.body.st == input.body.ts
    ensures forall x :: x in r ==> x.body.ts <= m.maxTime
    ensures forall x :: x in r ==> exists k :: 0 <= k < |msgs| && x.body.ts == msgs[k].ts && x.body.recv == msgs[k].recv
  {
    if msgs == [] then []
    else
      var rest := SendsFrom(m, i, input, msgs[1..]);
      if msgs[0].ts <= m.maxTime then
        [Send(input, Body(msgs[0].recv, msgs[0].ts, input.body.ts, i + 1, msgs[0].data))] + rest
      else rest
  }

  /** The state of LP i after processing history h from its initial state. */
  function StateOf(m: Model, i: nat, h: seq<Event>): State {
    if h == [] then m.init(i)
    else m.receive(i, StateOf(m, i, h[..|h| - 1]), h[|h| - 1].body).0
  }

  /** Everything LP i sends while it is initialized and processes history h, in order. */
  function SendsOf(m: Model, i: nat, h: seq<Event>): seq<Send> {
    if h == [] then SendsFrom(m, i, INITIAL, m.initMsgs(i))
    else
      SendsOf(m, i, h[..|h| - 1]) +
      SendsFrom(m, i, h[|h| - 1], m.receive(i, StateOf(m, i, h[..|h| - 1]), h[|h| - 1].body).1)
  }

  lemma {:induction false} SendsOfAppend(m: Model, i: nat, h: seq<Event>, e: Event)
    ensures StateOf(m, i, h + [e]) == m.receive(i, StateOf(m, i, h), e.body).0
    ensures SendsOf(m, i, h + [e]) ==
            SendsOf(m, i, h) + SendsFrom(m, i, e, m.receive(i, StateOf(m, i, h), e.body).1)
  {
    assert (h + [e])[..|h + [e]| - 1] == h;
  }

  /** Sends carry their sender, are later than their cause, and their causes are in the history. */
  lemma {:induction false} SendsAreCaused(m: Model, i: nat, h: seq<Event>)
    requires WellFormed(m)
    ensures forall x :: x in SendsOf(m, i, h) ==>
              && (x.input == INITIAL || (x.input in h && x.input.body.ts < x.body.ts))
              && x.body.sender == i + 1 && x.body.recv < m.n && x.body.ts <= m.maxTime
  {
    if h != [] {
      var g := h[..|h| - 1];
      SendsAreCaused(m, i, g);
      assert forall y :: y in g ==> y in h;
      assert h[|h| - 1] in h;
    }
  }

  /** The sends of a prefix are a prefix of the sends, and the rest is caused by the rest. */
  lemma {:induction false} SendsOfPrefix(m: Model, i: nat, h: seq<Event>, c: nat)
    requires c <= |h|
    ensures |SendsOf(m, i, h[..c])| <= |SendsOf(m, i, h)|
    ensures SendsOf(m, i, h)[..|SendsOf(m, i, h[..c])|] == SendsOf(m, i, h[..c])
    ensures forall x :: x in SendsOf(m, i, h)[|SendsOf(m, i, h[..c])|..] ==> x.input in h[c..]
    decreases |h|
  {
    if c == |h| {
      assert h[..c] == h;
    } else {
      var g := h[..|h| - 1];
      SendsOfPrefix(m, i, g, c);
      assert g[..c] == h[..c];
      var a, b := SendsOf(m, i, h[..c]), SendsOf(m, i, g);
      var last := SendsFrom(m, i, h[|h| - 1], m.receive(i, StateOf(m, i, g), h[|h| - 1].body).1);
      assert SendsOf(m, i, h) == b + last;
      assert (b + last)[|a|..] == b[|a|..] + last;
      assert h[c..] == g[c..] + [h[|h| - 1]];
    }
  }

  /** The replay ignores generations: it is a function of the bodies alone. */
  lemma {:induction false} ReplayIgnoresGenerations(m: Model, i: nat, h: seq<Event>, g: seq<Event>)
    requires |h| == |g| && forall k :: 0 <= k < |h| ==> h[k].body == g[k].body
    ensures StateOf(m, i, h) == StateOf(m, i, g)
    ensures |SendsOf(m, i, h)| == |SendsOf(m, i, g)|
    ensures forall k :: 0 <= k < |SendsOf(m, i, h)| ==> SendsOf(m, i, h)[k].body == SendsOf(m, i, g)[k].body
  {
    if h != [] {
      var h', g' := h[..|h| - 1], g[..|g| - 1];
      ReplayIgnoresGenerations(m, i, h', g');
      SameBodies(m, i, h[|h| - 1], g[|g| - 1], m.receive(i, StateOf(m, i, h'), h[|h| - 1].body).1);
    }
  }

  lemma {:induction false} SameBodies(m: Model, i: nat, e: Event, f: Event, msgs: seq<Msg>)
    requires e.body.ts == f.body.ts
    ensures |SendsFrom(m, i, e, msgs)| == |SendsFrom(m, i, f, msgs)|
    ensures forall k :: 0 <= k < |SendsFrom(m, i, e, msgs)| ==>
              SendsFrom(m, i, e, msgs)[k].body == SendsFrom(m, i, f, msgs)[k].body
  {
    if msgs != [] {
      SameBodies(m, i, e, f, msgs[1..]);
      var all, all' := SendsFrom(m, i, e, msgs), SendsFrom(m, i, f, msgs);
      var rest, rest' := SendsFrom(m, i, e, msgs[1..]), SendsFrom(m, i, f, msgs[1..]);
      hide SendsFrom;
      if msgs[0].ts <= m.maxTime {
        forall k | 0 <= k < |all|
          ensures all[k].body == all'[k].body
        {
          assert k > 0 ==> all[k] == rest[k - 1] && all'[k] == rest'[k - 1];
        }
      }
    }
  }

  // ------------------------------------------------------------------------------------------
  // Complete simulations
  // ------------------------------------------------------------------------------------------

  /** e is sent in the simulation H, numbered by its position among its sender's sends. */
  ghost predicate IsSent(m: Model, H: seq<seq<Event>>, e: Event)
    requires |H| == m.n
  {
    && 1 <= e.body.sender <= m.n && e.pos
    && var sends := SendsOf(m, e.body.sender - 1, H[e.body.sender - 1]);
       e.gen < |sends| && sends[e.gen].body == e.body
  }

  /** H gives every LP's history in a complete simulation: each LP processes, in event order,
      exactly the events that are sent to it. */
  ghost predicate Complete(m: Model, H: seq<seq<Event>>) {
    && |H| == m.n
    && (forall i :: 0 <= i < m.n ==> Ascending(H[i]))
    && (forall i, e :: 0 <= i < m.n ==> (e in H[i] <==> e.body.recv == i && IsSent(m, H, e)))
  }

  /** The events of an ascending history that are earlier than t. */
  function Earlier(h: seq<Event>, t: nat): (r: seq<Event>)
    ensures r <= h
  {
    if h == [] || h[|h| - 1].body.ts < t then h else Earlier(h[..|h| - 1], t)
  }

  lemma {:induction false} EarlierIsFilter(h: seq<Event>, t: nat)
    requires Ascending(h)
    ensures Ascending(Earlier(h, t))
    ensures forall e :: e in Earlier(h, t) <==> e in h && e.body.ts < t
    ensures forall e :: e in h[|Earlier(h, t)|..] ==> e.body.ts >= t
  {
    if h == [] || h[|h| - 1].body.ts < t {
      forall e | e in h
        ensures e.body.ts < t
      {
        var k :| 0 <= k < |h| && h[k] == e;
        if k < |h| - 1 {
          assert Less(h[k], h[|h| - 1]);
        }
      }
    } else {
      var g := h[..|h| - 1];
      EarlierIsFilter(g, t);
      assert h == g + [h[|h| - 1]];
      assert h[|Earlier(g, t)|..] == g[|Earlier(g, t)|..] + [h[|h| - 1]];
    }
  }

  /** The first element of an ascending sequence is the least, and occurs once. */
  lemma FirstIsLeast(a: seq<Event>, e: Event)
    requires Ascending(a) && e in a
    ensures a[0] == e || Less(a[0], e)
    ensures e in a[1..] <==> e != a[0]
  {
    var x :| 0 <= x < |a| && a[x] == e;
    LessIsTotalOrder(a[0], a[0], a[0]);
    hide Less;
    if x > 0 {
      assert a[1..][x - 1] == e;
    }
    assert e in a[1..] ==> Less(a[0], e);
  }

  lemma EmptyTogether(a: seq<Event>, b: seq<Event>)
    requires forall e :: e in a <==> e in b
    ensures a == [] <==> b == []
  {
    assert |a| > 0 ==> a[0] in a;
    assert |b| > 0 ==> b[0] in b;
  }

  /** Ascending sequences with the same elements are equal. */
  lemma {:induction false} AscendingIsCanonical(a: seq<Event>, b: seq<Event>)
    requires Ascending(a) && Ascending(b)
    requires forall e :: e in a <==> e in b
    ensures a == b
  {
    EmptyTogether(a, b);
    if a != [] {
      assert a[0] in a && b[0] in b;
      FirstIsLeast(a, b[0]);
      FirstIsLeast(b, a[0]);
      LessIsTotalOrder(a[0], b[0], a[0]);
      hide Less;
      forall e
        ensures e in a[1..] <==> e in b[1..]
      {
        if e in a {
          FirstIsLeast(a, e);
          FirstIsLeast(b, e);
        }
      }
      AscendingIsCanonical(a[1..], b[1..]);
    }
  }

  /** What an LP has processed comes from an LP: it is not the initial event. */
  lemma CausesAreSent(m: Model, H: seq<seq<Event>>, j: nat, e: Event)
    requires Complete(m, H) && j < m.n && e in H[j]
    ensures e != INITIAL
  {
    hide SendsOf;
    assert IsSent(m, H, e);
  }

  /** An event earlier than t is sent on account of what its sender processed before t. */
  lemma SentByEarlier(m: Model, H: seq<seq<Event>>, e: Event, t: nat)
    requires WellFormed(m) && Complete(m, H) && IsSent(m, H, e) && e.body.ts <= t
    ensures var j := e.body.sender - 1;
            var sends := SendsOf(m, j, Earlier(H[j], t));
            e.gen < |sends| && sends[e.gen].body == e.body
  {
    hide SendsOf, Earlier, Less;
    var j := e.body.sender - 1;
    var h := H[j];
    var c := |Earlier(h, t)|;
    EarlierIsFilter(h, t);
    assert h[..c] == Earlier(h, t);
    SendsOfPrefix(m, j, h, c);
    SendsAreCaused(m, j, h);
    var all, sends := SendsOf(m, j, h), SendsOf(m, j, h[..c]);
    forall k | |sends| <= k < |all|
      ensures all[k].body.ts > t
    {
      var x := all[k];
      assert x in all;
      assert x == all[|sends|..][k - |sends|];
      assert x.input in h[c..];
      CausesAreSent(m, H, j, x.input);
    }
    assert all[..|sends|][e.gen] == sends[e.gen];
  }

  /** Two complete simulations agree up to any time ... */
  lemma {:induction false} CompleteAgreeUpTo(m: Model, A: seq<seq<Event>>, B: seq<seq<Event>>, t: nat)
    requires WellFormed(m) && Complete(m, A) && Complete(m, B)
    ensures |A| == |B| == m.n && forall i :: 0 <= i < m.n ==> Earlier(A[i], t) == Earlier(B[i], t)
  {
    assert |A| == |B| == m.n;
    hide Complete, WellFormed, Earlier;
    if t > 0 {
      CompleteAgreeUpTo(m, A, B, t - 1);
    }
    forall i | 0 <= i < m.n
      ensures Earlier(A[i], t) == Earlier(B[i], t)
    {
      CompleteAgreeNext(m, A, B, t, i);
    }
  }

  lemma CompleteAgreeNext(m: Model, A: seq<seq<Event>>, B: seq<seq<Event>>, t: nat, i: nat)
    requires WellFormed(m) && Complete(m, A) && Complete(m, B) && |A| == |B| == m.n && i < m.n
    requires t > 0 ==> forall j :: 0 <= j < m.n ==> Earlier(A[j], t - 1) == Earlier(B[j], t - 1)
    ensures Earlier(A[i], t) == Earlier(B[i], t)
  {
    hide Complete, WellFormed, Earlier, Ascending;
    EarlierOfComplete(m, A, i, t);
    EarlierOfComplete(m, B, i, t);
    forall e | t > 0
      ensures e in Earlier(A[i], t) <==> e in Earlier(B[i], t)
    {
      if e in Earlier(A[i], t) {
        CompleteCarriesOver(m, A, B, i, e, t - 1);
      }
      if e in Earlier(B[i], t) {
        CompleteCarriesOver(m, B, A, i, e, t - 1);
      }
    }
    AscendingIsCanonical(Earlier(A[i], t), Earlier(B[i], t));
  }

  lemma EarlierOfComplete(m: Model, H: seq<seq<Event>>, i: nat, t: nat)
    requires Complete(m, H) && i < m.n
    ensures |H| == m.n && Ascending(Earlier(H[i], t))
    ensures forall e :: e in Earlier(H[i], t) <==> e in H[i] && e.body.ts < t
  {
    EarlierIsFilter(H[i], t);
  }

  lemma CompleteCarriesOver(m: Model, A: seq<seq<Event>>, B: seq<seq<Event>>, i: nat, e: Event, t: nat)
    requires WellFormed(m) && Complete(m, A) && Complete(m, B) && i < m.n
    requires forall j :: 0 <= j < m.n ==> Earlier(A[j], t) == Earlier(B[j], t)
    requires e in A[i] && e.body.ts <= t
    ensures e in B[i]
  {
    assert IsSent(m, A, e);
    SentByEarlier(m, A, e, t);
    var j := e.body.sender - 1;
    var c := |Earlier(B[j], t)|;
    SendsOfPrefix(m, j, B[j], c);
    assert B[j][..c] == Earlier(B[j], t);
    var sends := SendsOf(m, j, B[j][..c]);
    assert SendsOf(m, j, B[j])[..|sends|][e.gen] == sends[e.gen];
    assert IsSent(m, B, e);
  }

  /** ... so a model has at most one complete simulation. */
  lemma CompleteIsUnique(m: Model, A: seq<seq<Event>>, B: seq<seq<Event>>)
    requires WellFormed(m) && Complete(m, A) && Complete(m, B)
    ensures A == B
  {
    CompleteAgreeUpTo(m, A, B, m.maxTime + 1);
    forall i | 0 <= i < m.n
      ensures A[i] == B[i]
    {
      CompleteEndsInTime(m, A, i);
      CompleteEndsInTime(m, B, i);
    }
  }

  lemma CompleteEndsInTime(m: Model, H: seq<seq<Event>>, i: nat)
    requires WellFormed(m) && Complete(m, H) && i < m.n
    ensures Earlier(H[i], m.maxTime + 1) == H[i]
  {
    if H[i] != [] {
      var e := H[i][|H[i]| - 1];
      assert e in H[i] && IsSent(m, H, e);
      var j := e.body.sender - 1;
      SendsAreCaused(m, j, H[j]);
      assert SendsOf(m, j, H[j])[e.gen] in SendsOf(m, j, H[j]);
    }
  }
}
