/** The queue operations of one logical process, as functions on the queues' contents. */
module Queues {
  import opened Events
  import opened Simulation

  datatype Option<+T> = None | Some(value: T)

  /** A saved state and the event that last contributed to it. */
  datatype Saved = Saved(event: Event, state: State)

  /** A sent event and the event whose processing sent it. */
  datatype Output = Output(input: Event, event: Event)

  // ------------------------------------------------------------------------------------------
  // Rolling back
  // ------------------------------------------------------------------------------------------

  /** How many processed events stay: those before the trailing run of events >= the straggler. */
  function RollPoint(p: seq<Event>, e: Event): (c: nat)
    ensures c <= |p|
    ensures forall k :: c <= k < |p| ==> !Less(p[k], e)
    ensures c > 0 ==> Less(p[c - 1], e)
  {
    if p == [] || Less(p[|p| - 1], e) then |p| else RollPoint(p[..|p| - 1], e)
  }

  lemma {:induction false} RollPointSplits(p: seq<Event>, e: Event)
    requires Ascending(p)
    ensures forall x :: x in p[..RollPoint(p, e)] <==> x in p && Less(x, e)
    ensures forall x :: x in p[RollPoint(p, e)..] <==> x in p && !Less(x, e)
  {
    var c := RollPoint(p, e);
    forall k | 0 <= k < c
      ensures Less(p[k], e)
    {
      assert k == c - 1 || Less(p[k], p[c - 1]);
    }
    assert p == p[..c] + p[c..];
  }

  /** Events go back to the input queue from the largest to the smallest. */
  function InsertAll(q: seq<Event>, p: seq<Event>): (r: seq<Event>)
    ensures forall x :: x in r <==> x in q || x in p
    decreases |p|
  {
    if p == [] then q
    else
      assert p == p[..|p| - 1] + [p[|p| - 1]];
      InsertAll(Insert(q, p[|p| - 1]), p[..|p| - 1])
  }

  lemma {:induction false} InsertAllKeepsSorted(q: seq<Event>, p: seq<Event>)
    requires Sorted(q) && Ascending(p)
    requires forall x, y :: x in q && y in p ==> !SameKey(x, y)
    ensures Sorted(InsertAll(q, p))
    decreases |p|
  {
    if p != [] {
      var e := p[|p| - 1];
      var rest := p[..|p| - 1];
      assert e in p;
      InsertKeepsSorted(q, e);
      forall x, y | x in Insert(q, e) && y in rest
        ensures !SameKey(x, y)
      {
        assert y in p;
        if x == e {
          var k :| 0 <= k < |rest| && rest[k] == y;
          assert Less(p[k], p[|p| - 1]);
        }
      }
      InsertAllKeepsSorted(Insert(q, e), rest);
    }
  }

  /** The saved states that survive a rollback: the trailing run of states >= the straggler goes. */
  function RestoreStates(states: seq<Saved>, e: Event): (r: seq<Saved>)
    ensures r <= states
    ensures r != [] ==> Less(r[|r| - 1].event, e)
    ensures forall k :: |r| <= k < |states| ==> !Less(states[k].event, e)
    ensures states != [] && Less(states[0].event, e) ==> r != []
  {
    if states == [] || Less(states[|states| - 1].event, e) then states
    else RestoreStates(states[..|states| - 1], e)
  }

  /** State c is the last one whose event is before e. */
  predicate IsLastBefore(states: seq<Saved>, c: int, e: Event) {
    && 0 <= c < |states| && Less(states[c].event, e)
    && forall k :: c < k < |states| ==> !Less(states[k].event, e)
  }

  /** How many outputs stay: those before the trailing run caused by events >= the straggler. */
  function OutputPoint(outs: seq<Output>, e: Event): (c: nat)
    ensures c <= |outs|
    ensures forall k :: c <= k < |outs| ==> !Less(outs[k].input, e)
    ensures c > 0 ==> Less(outs[c - 1].input, e)
  {
    if outs == [] || Less(outs[|outs| - 1].input, e) then |outs| else OutputPoint(outs[..|outs| - 1], e)
  }

  function EventsOf(outs: seq<Output>): (r: seq<Event>)
    ensures |r| == |outs| && forall k :: 0 <= k < |outs| ==> r[k] == outs[k].event
  {
    seq(|outs|, k requires 0 <= k < |outs| => outs[k].event)
  }

  /** How many events of an ascending history are at most e. */
  function UpTo(h: seq<Event>, e: Event): (c: nat)
    ensures c <= |h|
    ensures forall k :: c <= k < |h| ==> Less(e, h[k])
    ensures c > 0 ==> !Less(e, h[c - 1])
  {
    if h == [] || !Less(e, h[|h| - 1]) then |h| else UpTo(h[..|h| - 1], e)
  }

  lemma UpToIsUnique(h: seq<Event>, e: Event, c: nat)
    requires Ascending(h) && c <= |h|
    requires forall k :: c <= k < |h| ==> Less(e, h[k])
    requires c > 0 ==> !Less(e, h[c - 1])
    ensures UpTo(h, e) == c
  {
  }

  /** Processing `events` from state s, sending nothing. */
  function CoastForward(m: Model, i: nat, s: State, events: seq<Event>): State {
    if events == [] then s
    else CoastForward(m, i, m.receive(i, s, events[0].body).0, events[1..])
  }

  lemma {:induction false} CoastForwardIsReplay(m: Model, i: nat, h: seq<Event>, c: nat)
    requires c <= |h|
    ensures CoastForward(m, i, StateOf(m, i, h[..c]), h[c..]) == StateOf(m, i, h)
    decreases |h| - c
  {
    if c == |h| {
      assert h[..c] == h;
    } else {
      assert h[..c + 1][..c] == h[..c];
      assert h[c..][1..] == h[c + 1..];
      CoastForwardIsReplay(m, i, h, c + 1);
    }
  }

  // ------------------------------------------------------------------------------------------
  // Cancelling
  // ------------------------------------------------------------------------------------------

  /** cancelEvent: the negative event is found, and has a successor with the same identity. */
  predicate CanCancel(q: seq<Event>, e: Event) {
    Find(q, e) + 1 < |q| && SameId(q[Find(q, e) + 1], q[Find(q, e)])
  }

  function CancelIn(q: seq<Event>, e: Event): seq<Event> {
    if CanCancel(q, e) then q[..Find(q, e)] + q[Find(q, e) + 2..] else q
  }

  /** With both twins queued, cancelEvent finds them side by side ... */
  lemma {:induction false} TwinsAreAdjacent(q: seq<Event>, neg: Event, pos: Event)
    requires Sorted(q) && neg in q && pos in q && SameId(neg, pos) && !neg.pos && pos.pos
    ensures CanCancel(q, neg) && q[Find(q, neg)] == neg && q[Find(q, neg) + 1] == pos
  {
    if q[0] == neg {
      TwinIsNext(q, pos);
    } else {
      NotSameKeyAsHead(q, neg);
      NotSameKeyAsHead(q, pos);
      TwinsAreAdjacent(q[1..], neg, pos);
    }
  }

  /** ... and removes exactly the two. */
  lemma CancelRemovesTwins(q: seq<Event>, neg: Event, pos: Event)
    requires Sorted(q) && neg in q && pos in q && SameId(neg, pos) && !neg.pos && pos.pos
    ensures CanCancel(q, neg) && |CancelIn(q, neg)| == |q| - 2 && Sorted(CancelIn(q, neg))
    ensures forall x :: x in CancelIn(q, neg) <==> x in q && x != neg && x != pos
  {
    TwinsAreAdjacent(q, neg, pos);
    var k := Find(q, neg);
    assert q == q[..k] + [neg, pos] + q[k + 2..];
    forall d | 0 <= d < |q| && d != k && d != k + 1
      ensures q[d] != neg && q[d] != pos
    {
      assert Before(q[d], q[k]) || Before(q[k], q[d]);
      assert Before(q[d], q[k + 1]) || Before(q[k + 1], q[d]);
    }
  }

  lemma TwinIsNext(q: seq<Event>, pos: Event)
    requires Sorted(q) && q != [] && pos in q && SameId(q[0], pos) && !q[0].pos && pos.pos
    ensures |q| > 1 && q[1] == pos
  {
    var b :| 0 <= b < |q| && q[b] == pos;
    assert b != 0;
    assert Before(q[0], q[1]);
    assert forall k :: 1 < k < |q| ==> Before(q[1], q[k]);
  }

  lemma NotSameKeyAsHead(q: seq<Event>, e: Event)
    requires Sorted(q) && q != [] && e in q
    ensures q[0] == e || (e in q[1..] && !SameKey(q[0], e))
    ensures q[0] != e && e.pos ==> !(SameId(q[0], e) && q[0].pos)
  {
    var b :| 0 <= b < |q| && q[b] == e;
    assert b == 0 || Before(q[0], q[b]);
  }

  // ------------------------------------------------------------------------------------------
  // Fossil collection
  // ------------------------------------------------------------------------------------------

  /** The saved states kept at GVT g: the last one before g, or the first one, and all later ones. */
  function KeptStates(states: seq<Saved>, g: nat): (r: seq<Saved>)
    ensures |r| <= |states| && r == states[|states| - |r|..]
    ensures states != [] ==> r != []
    ensures r != [] && |r| < |states| ==> r[0].event.body.ts < g
    ensures |r| >= 2 ==> r[1].event.body.ts >= g
  {
    if |states| >= 2 && states[1].event.body.ts < g then KeptStates(states[1..], g) else states
  }

  /** TimeWarpStateManager::fossilCollect: the new state queue ... */
  function CollectStates(states: seq<Saved>, g: nat): seq<Saved> {
    if states == [] then []
    else if g == UINT_MAX then KeptStates(states, g)[1..]
    else KeptStates(states, g)
  }

  /** ... and the time before which events may be collected. */
  function CollectTime(states: seq<Saved>, g: nat): nat {
    if states == [] then 0
    else if g == UINT_MAX then g
    else KeptStates(states, g)[0].event.body.ts
  }

  /** How many outputs are collected at GVT g. */
  function OutputsCollected(outs: seq<Output>, g: nat): (c: nat)
    ensures c <= |outs|
    ensures forall k :: 0 <= k < c ==> outs[k].input.body.ts < g
    ensures c < |outs| ==> outs[c].input.body.ts >= g
  {
    if outs == [] || outs[0].input.body.ts >= g then 0 else 1 + OutputsCollected(outs[1..], g)
  }

  /** How many processed events are collected when the saved states allow it before time t. */
  function EventsCollected(p: seq<Event>, t: nat): (c: nat)
    ensures c <= |p|
    ensures t != UINT_MAX ==> forall k :: 0 <= k < c ==> p[k].body.ts < t
    ensures t != UINT_MAX && p != [] ==> c < |p|
    ensures t != UINT_MAX && c + 1 < |p| ==> p[c].body.ts >= t
    ensures t == UINT_MAX ==> c == |p|
  {
    if p == [] then 0
    else if t == UINT_MAX then |p|
    else if |p| == 1 || p[0].body.ts >= t then 0
    else 1 + EventsCollected(p[1..], t)
  }

  /** With a GVT of "infinity" the last saved state goes too, so nothing could be restored:
      the state queue survives a collection exactly when the GVT is finite. */
  lemma CollectionKeepsAStateExactlyWhenFinite(states: seq<Saved>, g: nat)
    requires states != [] && g <= UINT_MAX
    requires forall k :: 0 <= k < |states| ==> states[k].event.body.ts < UINT_MAX
    ensures CollectStates(states, g) != [] <==> g != UINT_MAX
  {
    if g == UINT_MAX {
      assert |KeptStates(states, g)| == 1;
    }
  }
}
