/** The sequential dispatcher: one least-timestamp-first queue, one event at a time.  It is the
    reference that every other dispatcher must agree with. */
module Sequential {
  import opened Events
  import opened Simulation
  import opened Queues

  /** The priority queue; the heap is abstracted to a list in event order. */
  class STLLTSFQueue {
    var queue: seq<Event>

    constructor ()
      ensures queue == []
    {
      queue := [];
    }

    predicate Empty()
      reads this
    {
      queue == []
    }

    /** Takes out an event that is at most every other queued event, if there is one. */
    method Pop() returns (event: Option<Event>)
      requires Sorted(queue)
      modifies this
      ensures event.None? <==> old(queue) == []
      ensures event.None? ==> queue == []
      ensures event.Some? ==> old(queue) == [event.value] + queue && Sorted(queue)
      ensures event.Some? ==> forall x :: x in old(queue) ==> AtMost(event.value, x)
    {
      if queue == [] {
        return None;
      }
      event := Some(queue[0]);
      queue := queue[1..];
    }

    /** The queue gains the event and nothing else, in its place. */
    method Push(event: Event)
      modifies this
      ensures queue == Insert(old(queue), event)
      ensures multiset(queue) == old(multiset(queue)) + multiset{event}
      ensures old(Sorted(queue)) && (forall x :: x in old(queue) ==> !SameKey(x, event)) ==> Sorted(queue)
    {
      InsertAddsOne(queue, event);
      if Sorted(queue) && forall x :: x in queue ==> !SameKey(x, event) {
        InsertKeepsSorted(queue, event);
      }
      hide Insert, Sorted;
      queue := Insert(queue, event);
    }
  }

  /** e was sent, when the sends made so far are P. */
  ghost predicate SentSoFar(P: seq<seq<Send>>, e: Event) {
    && 1 <= e.body.sender <= |P| && e.pos
    && e.gen < |P[e.body.sender - 1]|
    && P[e.body.sender - 1][e.gen].body == e.body
  }

  /** Between any two queue operations: what was sent is queued or was processed, never both, and
      everything processed comes before everything queued. */
  ghost predicate Balanced(m: Model, H: seq<seq<Event>>, Q: seq<Event>, P: seq<seq<Send>>) {
    && |H| == |P| == m.n
    && Sorted(Q)
    && (forall i :: 0 <= i < m.n ==> Ascending(H[i]))
    && (forall i, h, q :: 0 <= i < m.n && h in H[i] && q in Q ==> Less(h, q))
    && (forall q :: q in Q ==> SentSoFar(P, q) && q.body.recv < m.n)
    && (forall i, h :: 0 <= i < m.n && h in H[i] ==> SentSoFar(P, h) && h.body.recv == i)
    && (forall e :: SentSoFar(P, e) ==> e.body.recv < m.n && (e in Q || e in H[e.body.recv]))
  }

  lemma SendKeepsBalance(m: Model, H: seq<seq<Event>>, Q: seq<Event>, P: seq<seq<Send>>, i: nat, s: Send)
    requires Balanced(m, H, Q, P) && i < m.n
    requires s.body.sender == i + 1 && s.body.recv < m.n
    requires forall j, h :: 0 <= j < m.n && h in H[j] ==> h.body.ts < s.body.ts
    ensures Balanced(m, H, Insert(Q, Event(s.body, |P[i]|, true)), P[i := P[i] + [s]])
  {
    var e := Event(s.body, |P[i]|, true);
    var Q', P' := Insert(Q, e), P[i := P[i] + [s]];
    forall x | x in Q
      ensures !SameKey(x, e)
    {
      assert SentSoFar(P, x);
    }
    InsertKeepsSorted(Q, e);
    forall x
      ensures SentSoFar(P', x) <==> SentSoFar(P, x) || x == e
    {
      if SentSoFar(P', x) && x.body.sender == i + 1 && x.gen == |P[i]| {
        assert x == e;
      }
    }
  }

  lemma PopKeepsBalance(m: Model, H: seq<seq<Event>>, Q: seq<Event>, P: seq<seq<Send>>)
    requires Balanced(m, H, Q, P) && Q != []
    ensures Q[0].body.recv < m.n
    ensures Balanced(m, H[Q[0].body.recv := H[Q[0].body.recv] + [Q[0]]], Q[1..], P)
  {
    var e := Q[0];
    assert e in Q;
    var r := e.body.recv;
    var H' := H[r := H[r] + [e]];
    assert Q == [e] + Q[1..];
    forall i, h | 0 <= i < m.n && h in H'[i]
      ensures h in H[i] || (i == r && h == e)
    {
    }
    forall q | q in Q[1..]
      ensures Less(e, q)
    {
      var k :| 1 <= k < |Q| && Q[k] == q;
      assert Before(Q[0], Q[k]);
      assert SentSoFar(P, Q[0]) && SentSoFar(P, Q[k]);
    }
    forall i | 0 <= i < m.n
      ensures Ascending(H'[i])
    {
      if i == r {
        assert forall k :: 0 <= k < |H[r]| ==> H[r][k] in H[r];
      }
    }
    forall x | SentSoFar(P, x)
      ensures x in Q[1..] || x in H'[x.body.recv]
    {
      if x == e {
        assert e in H'[r];
      } else if x in H[x.body.recv] {
        assert x in H'[x.body.recv];
      }
    }
  }

  lemma PoppedIsLatest(m: Model, H: seq<seq<Event>>, Q: seq<Event>, P: seq<seq<Send>>, H': seq<seq<Event>>)
    requires Balanced(m, H, Q, P) && Q != [] && Q[0].body.recv < m.n
    requires var r := Q[0].body.recv; H' == H[r := H[r] + [Q[0]]]
    ensures forall j: nat, h: Event :: j < m.n && h in H'[j] ==> h.body.ts <= Q[0].body.ts
  {
    assert Q[0] in Q;
    forall j: nat, h: Event | j < m.n && h in H'[j]
      ensures h.body.ts <= Q[0].body.ts
    {
      if h in H[j] {
        assert Less(h, Q[0]);
      }
    }
  }

  lemma LaterThanTaken(Q: seq<Event>, event: Event)
    requires Sorted(Q) && Q != [] && event == Q[0]
    ensures forall x :: x in Q[1..] ==> x.body.ts >= event.body.ts
  {
    forall x | x in Q[1..]
      ensures x.body.ts >= event.body.ts
    {
      var k :| 1 <= k < |Q| && Q[k] == x;
      assert Before(Q[0], Q[k]);
    }
  }

  lemma MsgsAreLater(m: Model, i: nat, s: State, b: Body)
    requires WellFormed(m)
    ensures var msgs := m.receive(i, s, b).1;
            forall k :: 0 <= k < |msgs| ==> msgs[k].recv < m.n && msgs[k].ts > b.ts
  {
  }

  /** How many queued events have receive time t. */
  function CountAt(Q: seq<Event>, t: nat): nat {
    if Q == [] then 0 else (if Q[0].body.ts == t then 1 else 0) + CountAt(Q[1..], t)
  }

  lemma FirstIsCounted(Q: seq<Event>)
    requires Q != []
    ensures CountAt(Q, Q[0].body.ts) == 1 + CountAt(Q[1..], Q[0].body.ts)
  {
  }

  lemma {:induction false} InsertLaterKeepsCount(Q: seq<Event>, e: Event, t: nat)
    requires e.body.ts > t
    ensures CountAt(Insert(Q, e), t) == CountAt(Q, t)
  {
    if Q == [] || Before(e, Q[0]) {
      assert ([e] + Q)[1..] == Q;
    } else {
      InsertLaterKeepsCount(Q[1..], e, t);
      assert ([Q[0]] + Insert(Q[1..], e))[1..] == Insert(Q[1..], e);
    }
  }

  lemma EmptyIsBalanced(m: Model, H: seq<seq<Event>>, P: seq<seq<Send>>)
    requires |H| == |P| == m.n && forall i :: 0 <= i < m.n ==> H[i] == [] && P[i] == []
    ensures Balanced(m, H, [], P)
  {
  }

  lemma InitialReplay(m: Model, i: nat)
    ensures SendsOf(m, i, []) == SendsFrom(m, i, INITIAL, m.initMsgs(i)) && StateOf(m, i, []) == m.init(i)
  {
  }

  lemma FirstIsSentFirst(m: Model, i: nat, input: Event, msgs: seq<Msg>, k: nat)
    requires k < |msgs|
    ensures SendsFrom(m, i, input, msgs[k..]) == SendsFrom(m, i, input, [msgs[k]]) + SendsFrom(m, i, input, msgs[k + 1..])
  {
    assert msgs[k..][0] == msgs[k] && msgs[k..][1..] == msgs[k + 1..];
    assert [msgs[k]][1..] == [];
    assert SendsFrom(m, i, input, [msgs[k]][1..]) == [];
  }

  lemma NothingIsSent(m: Model, i: nat, input: Event, msgs: seq<Msg>)
    ensures SendsFrom(m, i, input, msgs[|msgs|..]) == []
  {
  }

  /** P holds exactly what the histories send, and the states are what they lead to. */
  ghost predicate Replays(m: Model, H: seq<seq<Event>>, states: seq<State>, generations: seq<nat>, P: seq<seq<Send>>) {
    && |H| == |P| == |states| == |generations| == m.n
    && (forall j :: 0 <= j < m.n ==> P[j] == SendsOf(m, j, H[j]))
    && (forall j :: 0 <= j < m.n ==> states[j] == StateOf(m, j, H[j]))
    && (forall j :: 0 <= j < m.n ==> generations[j] == |P[j]|)
  }

  lemma ReplaysHasSizes(m: Model, H: seq<seq<Event>>, states: seq<State>, generations: seq<nat>, P: seq<seq<Send>>)
    requires Replays(m, H, states, generations, P)
    ensures |H| == |P| == |states| == |generations| == m.n
    ensures forall j :: 0 <= j < m.n ==> generations[j] == |P[j]|
  {
  }

  lemma ReplaysNext(m: Model, H: seq<seq<Event>>, states: seq<State>, generations: seq<nat>, P: seq<seq<Send>>, r: nat, e: Event)
    requires Replays(m, H, states, generations, P) && r < m.n
    ensures var (state, msgs) := m.receive(r, states[r], e.body);
            var sends := P[r] + SendsFrom(m, r, e, msgs);
            Replays(m, H[r := H[r] + [e]], states[r := state], generations[r := |sends|], P[r := sends])
  {
    hide SendsOf, StateOf, SendsFrom;
    SendsOfAppend(m, r, H[r], e);
  }

  lemma SendsOfOne(m: Model, i: nat, input: Event, msg: Msg)
    ensures SendsFrom(m, i, input, [msg]) ==
            if msg.ts > m.maxTime then [] else [Send(input, Body(msg.recv, msg.ts, input.body.ts, i + 1, msg.data))]
  {
    assert [msg][1..] == [];
  }

  lemma InsertLater(q: seq<Event>, e: Event)
    ensures forall x :: x in Insert(q, e) ==> x in q || x == e
    ensures forall t: nat :: t < e.body.ts ==> CountAt(Insert(q, e), t) == CountAt(q, t)
  {
    hide CountAt;
    forall t: nat | t < e.body.ts
      ensures CountAt(Insert(q, e), t) == CountAt(q, t)
    {
      InsertLaterKeepsCount(q, e, t);
    }
  }

  /** How many events the histories hold together. */
  ghost function Total(history: seq<seq<Event>>): nat {
    if history == [] then 0 else |history[0]| + Total(history[1..])
  }

  lemma {:induction false} NothingInTotal(history: seq<seq<Event>>)
    requires forall i :: 0 <= i < |history| ==> history[i] == []
    ensures Total(history) == 0
  {
    if history != [] {
      NothingInTotal(history[1..]);
    }
  }

  lemma {:induction false} OneMoreInTotal(history: seq<seq<Event>>, i: nat, e: Event)
    requires i < |history|
    ensures Total(history[i := history[i] + [e]]) == Total(history) + 1
  {
    var more := history[i := history[i] + [e]];
    if i == 0 {
      assert more[1..] == history[1..];
    } else {
      assert more[1..] == history[1..][i - 1 := history[1..][i - 1] + [e]];
      OneMoreInTotal(history[1..], i - 1, e);
    }
  }

  class SequentialEventDispatcher {
    const m: Model
    var currentSimTime: nat
    var states: seq<State>          // getState() of each LP
    var generations: seq<nat>       // generation_ of each LP
    ghost var history: seq<seq<Event>>  // the events each LP has processed

    constructor (m: Model)
      ensures this.m == m
    {
      this.m := m;
      currentSimTime := 0;
      states, generations := [], [];
      history := [];
    }

    /** One turn of the loops over new_events: drop what is past the end, number and queue the rest. */
    method SendOne(events: STLLTSFQueue, i: nat, input: Event, msg: Msg, ghost P: seq<seq<Send>>)
      requires Balanced(m, history, events.queue, P) && i < m.n && |P| == m.n && msg.recv < m.n
      requires |generations| == m.n && generations[i] == |P[i]|
      requires forall j: nat, h: Event :: j < |history| && h in history[j] ==> h.body.ts < msg.ts
      modifies events, `generations
      ensures Balanced(m, history, events.queue, P[i := P[i] + SendsFrom(m, i, input, [msg])])
      ensures generations == old(generations)[i := |P[i] + SendsFrom(m, i, input, [msg])|]
      ensures multiset(events.queue) == multiset(old(events.queue)) +
                if msg.ts > m.maxTime then multiset{}
                else multiset{Event(Body(msg.recv, msg.ts, input.body.ts, i + 1, msg.data), old(generations)[i], true)}
      ensures forall x :: x in events.queue ==> x in old(events.queue) || x.body.ts == msg.ts
      ensures forall t: nat :: t < msg.ts ==> CountAt(events.queue, t) == CountAt(old(events.queue), t)
    {
      assert |history| == m.n;
      hide Balanced, CountAt, Insert, Sorted, SameKey, SendsFrom;
      SendsOfOne(m, i, input, msg);
      if msg.ts > m.maxTime {
        assert P[i] + [] == P[i] && P[i := P[i]] == P;
        assert generations[i := |P[i]|] == generations;
        return;
      }
      var event := Event(Body(msg.recv, msg.ts, input.body.ts, i + 1, msg.data), generations[i], true);
      SendKeepsBalance(m, history, events.queue, P, i, Send(input, event.body));
      InsertLater(events.queue, event);
      generations := generations[i := generations[i] + 1];
      events.Push(event);
    }

    /** The loop over new_events. */
    method SendAll(events: STLLTSFQueue, i: nat, input: Event, msgs: seq<Msg>, low: nat, ghost P: seq<seq<Send>>)
      requires Balanced(m, history, events.queue, P) && i < m.n && |P| == m.n
      requires |generations| == m.n && generations[i] == |P[i]|
      requires forall k :: 0 <= k < |msgs| ==> msgs[k].recv < m.n && msgs[k].ts >= low
      requires forall j: nat, h: Event :: j < |history| && h in history[j] ==> h.body.ts < low
      modifies events, `generations
      ensures Balanced(m, history, events.queue, P[i := P[i] + SendsFrom(m, i, input, msgs)])
      ensures generations == old(generations)[i := |P[i] + SendsFrom(m, i, input, msgs)|]
      ensures forall x :: x in events.queue ==> x in old(events.queue) || x.body.ts >= low
      ensures forall t: nat :: t < low ==> CountAt(events.queue, t) == CountAt(old(events.queue), t)
    {
      hide Balanced, CountAt, SendsFrom;
      ghost var p := P[i];
      assert P[i := p] == P && generations[i := |p|] == generations && msgs[0..] == msgs;
      for k := 0 to |msgs|
        invariant unchanged(`history) && |p| >= |P[i]|
        invariant generations == old(generations)[i := |p|]
        invariant Balanced(m, history, events.queue, P[i := p])
        invariant p + SendsFrom(m, i, input, msgs[k..]) == P[i] + SendsFrom(m, i, input, msgs)
        invariant forall x :: x in events.queue ==> x in old(events.queue) || x.body.ts >= low
        invariant forall t: nat :: t < low ==> CountAt(events.queue, t) == CountAt(old(events.queue), t)
      {
        ghost var s := SendsFrom(m, i, input, [msgs[k]]);
        FirstIsSentFirst(m, i, input, msgs, k);
        SendOne(events, i, input, msgs[k], P[i := p]);
        assert P[i := p][i := p + s] == P[i := p + s];
        assert (p + s) + SendsFrom(m, i, input, msgs[k + 1..]) == p + SendsFrom(m, i, input, msgs[k..]);
        p := p + s;
      }
      NothingIsSent(m, i, input, msgs);
      assert p == P[i] + SendsFrom(m, i, input, msgs);
    }

    /** Between two iterations of the main loop. */
    ghost predicate Running(Q: seq<Event>, P: seq<seq<Send>>)
      reads this
    {
      Balanced(m, history, Q, P) && Replays(m, history, states, generations, P)
    }

    /** The first lines of the main loop's body: the least queued event is taken out. */
    method TakeNext(events: STLLTSFQueue, ghost P: seq<seq<Send>>) returns (event: Event)
      requires Balanced(m, history, events.queue, P) && events.queue != []
      modifies `history, `currentSimTime, events
      ensures event == old(events.queue)[0] && events.queue == old(events.queue)[1..]
      ensures event.body.recv < m.n && currentSimTime == event.body.ts
      ensures |old(history)| == m.n &&
              history == old(history)[event.body.recv := old(history)[event.body.recv] + [event]]
      ensures Balanced(m, history, events.queue, P)
      ensures forall j: nat, h: Event :: j < m.n && h in history[j] ==> h.body.ts <= event.body.ts
    {
      PopKeepsBalance(m, history, events.queue, P);
      PoppedIsLatest(m, history, events.queue, P,
                     history[events.queue[0].body.recv := history[events.queue[0].body.recv] + [events.queue[0]]]);
      assert |history| == m.n && Sorted(events.queue);
      hide Balanced, Sorted;
      var popped := events.Pop();
      event := popped.value;
      currentSimTime := event.body.ts;
      history := history[event.body.recv := history[event.body.recv] + [event]];
    }

    /** The body of the main loop: process the least queued event. */
    method ProcessNext(events: STLLTSFQueue, ghost P: seq<seq<Send>>) returns (ghost P': seq<seq<Send>>)
      requires WellFormed(m) && Running(events.queue, P) && events.queue != []
      modifies this, events
      ensures Running(events.queue, P')
      ensures var e := old(events.queue)[0];
              && currentSimTime == e.body.ts && e.body.recv < m.n == |old(history)|
              && history == old(history)[e.body.recv := old(history)[e.body.recv] + [e]]
      ensures forall x :: x in events.queue ==> x.body.ts >= currentSimTime
      ensures CountAt(events.queue, currentSimTime) < old(CountAt(events.queue, events.queue[0].body.ts))
    {
      ghost var Q := events.queue;
      hide Replays, CountAt, SendsOf, StateOf, SendsFrom, WellFormed;
      assert Sorted(Q);
      hide Balanced;
      ReplaysHasSizes(m, history, states, generations, P);
      PopKeepsBalance(m, history, Q, P);
      ReplaysNext(m, history, states, generations, P, Q[0].body.recv, Q[0]);
      var event := TakeNext(events, P);
      var r := event.body.recv;
      FirstIsCounted(Q);
      LaterThanTaken(Q, event);
      MsgsAreLater(m, r, states[r], event.body);
      var (state, msgs) := m.receive(r, states[r], event.body);
      states := states[r := state];
      SendAll(events, r, event, msgs, event.body.ts + 1, P);
      P' := P[r := P[r] + SendsFrom(m, r, event, msgs)];
    }

    lemma TimesAreBounded(Q: seq<Event>, P: seq<seq<Send>>)
      requires WellFormed(m) && Running(Q, P)
      ensures forall x :: x in Q ==> x.body.ts <= m.maxTime
    {
      forall x | x in Q
        ensures x.body.ts <= m.maxTime
      {
        assert SentSoFar(P, x);
        var j := x.body.sender - 1;
        SendsAreCaused(m, j, history[j]);
        assert P[j][x.gen] in P[j];
      }
    }

    lemma RunningOutIsComplete(P: seq<seq<Send>>)
      requires Running([], P)
      ensures Complete(m, history)
      ensures |states| == m.n && forall i :: 0 <= i < m.n ==> states[i] == StateOf(m, i, history[i])
    {
      forall i, e | 0 <= i < m.n
        ensures e in history[i] <==> e.body.recv == i && IsSent(m, history, e)
      {
        assert SentSoFar(P, e) <==> IsSent(m, history, e);
      }
    }

    /** The loop over the LPs that precedes the main loop. */
    method InitializeLPs(events: STLLTSFQueue) returns (ghost P: seq<seq<Send>>)
      requires WellFormed(m) && events.queue == []
      modifies this, events
      ensures Running(events.queue, P) && history == seq(m.n, i => [])
    {
      currentSimTime := 0;
      states, generations := seq(m.n, i requires 0 <= i => m.init(i)), seq(m.n, i => 0);
      history := seq(m.n, i => []);
      P := seq(m.n, i => []);
      hide Balanced, SendsFrom, SendsOf, CountAt;
      EmptyIsBalanced(m, history, P);
      for i := 0 to m.n
        invariant |states| == |generations| == |P| == m.n && history == seq(m.n, i => [])
        invariant forall j :: 0 <= j < m.n ==> states[j] == m.init(j)
        invariant Balanced(m, history, events.queue, P)
        invariant forall j :: 0 <= j < m.n ==> generations[j] == |P[j]|
        invariant forall j :: 0 <= j < m.n ==> P[j] == if j < i then SendsFrom(m, j, INITIAL, m.initMsgs(j)) else []
      {
        SendAll(events, i, INITIAL, m.initMsgs(i), 0, P);
        P := P[i := P[i] + SendsFrom(m, i, INITIAL, m.initMsgs(i))];
        assert P[i] == SendsFrom(m, i, INITIAL, m.initMsgs(i));
      }
      forall j | 0 <= j < m.n
        ensures P[j] == SendsOf(m, j, history[j]) && states[j] == StateOf(m, j, history[j])
      {
        InitialReplay(m, j);
      }
    }

    /** startSimulation: terminates, leaves behind a complete simulation of the model, and returns
        the number of events processed. */
    method StartSimulation() returns (count: nat)
      requires WellFormed(m)
      modifies this
      ensures Complete(m, history) && count == Total(history)
      ensures |states| == m.n && forall i :: 0 <= i < m.n ==> states[i] == StateOf(m, i, history[i])
    {
      hide Running, CountAt, Complete, StateOf, WellFormed;
      var events := new STLLTSFQueue();
      ghost var P := InitializeLPs(events);
      NothingInTotal(history);
      count := 0;
      while !events.Empty()
        invariant Running(events.queue, P) && count == Total(history)
        decreases if events.queue == [] then 0 else m.maxTime + 1 - events.queue[0].body.ts,
                  if events.queue == [] then 0 else CountAt(events.queue, events.queue[0].body.ts)
      {
        TimesAreBounded(events.queue, P);
        ghost var was, e := history, events.queue[0];
        P := ProcessNext(events, P);
        OneMoreInTotal(was, e.body.recv, e);
        count := count + 1;
        TimesAreBounded(events.queue, P);
        assert events.queue != [] ==> events.queue[0] in events.queue;
      }
      RunningOutIsComplete(P);
    }
  }
}
