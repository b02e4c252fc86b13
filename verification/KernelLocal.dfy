/** Every step keeps the invariant of the LP it works on. */
module KernelLocal {
  import opened Events
  import opened Simulation
  import opened Queues
  import opened Kernel
  import opened KernelInvariant

  /** A message arrives in the input queue. */
  lemma ArrivalKeepsLocal(m: Model, i: nat, lp: LP, e: Event, scheduled: Option<Event>)
    requires LocalOk(m, i, lp) && e.body.recv == i
    requires forall x :: x in lp.input ==> !SameKey(x, e)
    ensures LocalOk(m, i, lp.(input := Insert(lp.input, e), scheduled := scheduled))
  {
    InsertKeepsSorted(lp.input, e);
  }

  /** getEvent, and the decision that no rollback is needed. */
  lemma TakeKeepsLocal(m: Model, i: nat, lp: LP, w: Worker, e: Event)
    requires LocalOk(m, i, lp) && lp.job.Idle? && e in lp.input
    ensures LocalOk(m, i, lp.(job := Busy(w, e, Taken)))
  {
  }

  /** Collected events are before anything that is still unprocessed. */
  ghost predicate Ahead(lp: LP, e: Event) {
    && (forall c :: c in lp.committed ==> c.body.ts < e.body.ts)
    && (forall o :: o in lp.committedOut ==> o.input.body.ts < e.body.ts)
    && (lp.states != [] ==> Less(lp.states[0].event, e))
  }

  lemma NoRollbackKeepsLocal(m: Model, i: nat, lp: LP)
    requires LocalOk(m, i, lp) && lp.job.Busy? && lp.job.stage.Taken? && Ahead(lp, lp.job.event)
    requires !NeedsRollback(lp, lp.job.event)
    requires forall x :: x in History(lp) && lp.job.event.pos ==> !SameId(lp.job.event, x)
    ensures LocalOk(m, i, lp.(job := lp.job.(stage := Ready)))
  {
    hide SavedStatesOk, StateOf, SendsOf, Numbered, Sorted, Less, Ahead, NeedsRollback, Ascending, SameId;
    HistoryIsBefore(lp, lp.job.event);
  }

  lemma HistoryIsBefore(lp: LP, e: Event)
    requires Ascending(History(lp)) && Ahead(lp, e) && !NeedsRollback(lp, e)
    requires forall x :: x in History(lp) && e.pos ==> !SameId(e, x)
    ensures forall x :: x in History(lp) ==> Less(x, e)
  {
    var h := History(lp);
    forall k | 0 <= k < |h|
      ensures Less(h[k], e)
    {
      if k < |lp.committed| {
        assert h[k] in lp.committed;
      } else {
        var last := lp.processed[|lp.processed| - 1];
        assert last == h[|h| - 1] && last in h;
        assert k == |h| - 1 || Less(h[k], last);
      }
    }
  }

  /** Dropping events after `e` does not change which events are up to an earlier one. */
  lemma UpToPrefix(h: seq<Event>, c: nat, ev: Event)
    requires Ascending(h) && c <= |h| && forall k :: c <= k < |h| ==> Less(ev, h[k])
    ensures UpTo(h[..c], ev) == UpTo(h, ev) <= c
  {
    var d := UpTo(h, ev);
    assert d <= c;
    UpToIsUnique(h[..c], ev, d);
  }

  /** h' is what a rollback to e keeps of h. */
  ghost predicate KeptHistory(h: seq<Event>, h': seq<Event>, e: Event) {
    && Ascending(h) && h' <= h
    && (forall k :: 0 <= k < |h'| ==> Less(h[k], e))
    && (forall k :: |h'| <= k < |h| ==> !Less(h[k], e))
  }

  lemma RolledBackHistory(committed: seq<Event>, processed: seq<Event>, e: Event)
    requires Ascending(committed + processed) && forall c :: c in committed ==> c.body.ts < e.body.ts
    ensures KeptHistory(committed + processed, committed + processed[..RollPoint(processed, e)], e)
  {
    hide Less, SameId, RollPoint;
    var c := RollPoint(processed, e);
    var h, h' := committed + processed, committed + processed[..c];
    assert h == h' + processed[c..];
    forall k | 0 <= k < |h'|
      ensures Less(h[k], e)
    {
      if k < |committed| {
        assert h[k] in committed;
        EarlierIsLess(h[k], e);
      } else {
        LessIsTotalOrder(h[k], h[|h'| - 1], e);
        assert h[|h'| - 1] == processed[c - 1];
        assert k == |h'| - 1 || Less(h[k], h[|h'| - 1]);
      }
    }
    forall k | |h'| <= k < |h|
      ensures !Less(h[k], e)
    {
      assert h[k] == processed[k - |committed|];
    }
  }

  lemma SavedSurvives(m: Model, i: nat, h: seq<Event>, h': seq<Event>, e: Event, saved: Saved)
    requires KeptHistory(h, h', e) && SavedOk(m, i, h, saved) && Less(saved.event, e)
    ensures SavedOk(m, i, h', saved)
  {
    UpToPrefix(h, |h'|, saved.event);
    assert h[..|h'|] == h';
    assert h'[..UpTo(h', saved.event)] == h[..UpTo(h, saved.event)];
    if saved.event in h {
      var d :| 0 <= d < |h| && h[d] == saved.event;
      assert d < |h'|;
      assert h'[d] == h[d];
    }
  }

  lemma SavedStatesSurvive(m: Model, i: nat, h: seq<Event>, h': seq<Event>, e: Event,
                           states: seq<Saved>, states': seq<Saved>)
    requires KeptHistory(h, h', e) && SavedStatesOk(m, i, false, h, states)
    requires states' != [] && states' <= states && Less(states'[|states'| - 1].event, e)
    ensures SavedStatesOk(m, i, false, h', states')
  {
    forall k | 0 <= k < |states'|
      ensures SavedOk(m, i, h', states'[k])
    {
      assert states'[k] == states[k];
      assert k == |states'| - 1 || Less(states[k].event, states[|states'| - 1].event);
      SavedSurvives(m, i, h, h', e, states[k]);
    }
  }

  /** The sends that a rollback to e keeps are those caused by events before e. */
  lemma SendsKept(m: Model, i: nat, h: seq<Event>, h': seq<Event>, e: Event)
    requires WellFormed(m) && HistoryOk(i, h) && KeptHistory(h, h', e) && e.body.sender > 0
    ensures var all, kept := SendsOf(m, i, h), SendsOf(m, i, h');
            && kept <= all
            && (forall k :: 0 <= k < |kept| ==> Less(all[k].input, e))
            && (forall k :: |kept| <= k < |all| ==> !Less(all[k].input, e) && all[k].body.ts > e.body.ts)
  {
    var all, kept := SendsOf(m, i, h), SendsOf(m, i, h');
    assert h[..|h'|] == h';
    SendsOfPrefix(m, i, h, |h'|);
    SendsAreCaused(m, i, h);
    SendsAreCaused(m, i, h');
    forall k | 0 <= k < |kept|
      ensures Less(all[k].input, e)
    {
      assert kept[k] in kept && kept[k] == all[k];
      if kept[k].input in h' {
        var d :| 0 <= d < |h'| && h'[d] == kept[k].input;
        assert h'[d] == h[d];
      }
    }
    forall k | |kept| <= k < |all|
      ensures !Less(all[k].input, e) && all[k].body.ts > e.body.ts
    {
      var x := all[k];
      assert x in all && x == all[|kept|..][k - |kept|];
      assert x.input in h[|h'|..];
      var d :| |h'| <= d < |h| && h[d] == x.input;
      assert x.input in h && x.input.body.sender > 0;
    }
  }

  /** The output queue is cut where the sends of the undone events begin. */
  lemma RolledBackOutputs(m: Model, i: nat, h: seq<Event>, h': seq<Event>, e: Event,
                          committedOut: seq<Output>, outputs: seq<Output>, sent: seq<Event>)
    requires WellFormed(m) && HistoryOk(i, h) && KeptHistory(h, h', e) && e.body.sender > 0
    requires Made(committedOut + outputs) == SendsOf(m, i, h)
    requires forall x :: x in committedOut ==> x.input.body.ts < e.body.ts
    requires Numbered(sent, EventsOf(committedOut + outputs))
    ensures var o := OutputPoint(outputs, e);
            && Made(committedOut + outputs[..o]) == SendsOf(m, i, h')
            && Numbered(sent, EventsOf(committedOut + outputs[..o]))
            && Numbered(sent, EventsOf(outputs[o..]))
            && (forall a :: a in EventsOf(outputs[o..]) ==> a.body.ts > e.body.ts)
  {
    hide SendsOf, Numbered, Ascending, HistoryOk, OutputPoint, KeptHistory, WellFormed, Less;
    var outs := committedOut + outputs;
    var cut := |SendsOf(m, i, h')|;
    SendsKept(m, i, h, h', e);
    CutOfOutputs(SendsOf(m, i, h), cut, committedOut, outputs, e);
    OutputsAtCut(SendsOf(m, i, h), cut, committedOut, outputs, sent, OutputPoint(outputs, e), e.body.ts);
  }

  lemma CutOfOutputs(all: seq<Send>, cut: nat, committedOut: seq<Output>, outputs: seq<Output>, e: Event)
    requires Made(committedOut + outputs) == all && cut <= |all|
    requires forall k :: 0 <= k < cut ==> Less(all[k].input, e)
    requires forall k :: cut <= k < |all| ==> !Less(all[k].input, e)
    requires forall x :: x in committedOut ==> x.input.body.ts < e.body.ts
    ensures |committedOut| + OutputPoint(outputs, e) == cut
  {
    hide Less, OutputPoint;
    var outs := committedOut + outputs;
    assert forall k :: 0 <= k < |outs| ==> all[k].input == outs[k].input;
    forall k | 0 <= k < |committedOut|
      ensures Less(outs[k].input, e)
    {
      assert outs[k] in committedOut;
      EarlierIsLess(outs[k].input, e);
    }
    CutIsUnique(outs, |committedOut|, outputs, e, cut);
  }

  lemma OutputsAtCut(all: seq<Send>, cut: nat, committedOut: seq<Output>, outputs: seq<Output>, sent: seq<Event>,
                     o: nat, t: nat)
    requires Made(committedOut + outputs) == all && |committedOut| + o == cut <= |all| && o <= |outputs|
    requires forall k :: cut <= k < |all| ==> all[k].body.ts > t
    requires Numbered(sent, EventsOf(committedOut + outputs))
    ensures Made(committedOut + outputs[..o]) == all[..cut]
    ensures Numbered(sent, EventsOf(committedOut + outputs[..o])) && Numbered(sent, EventsOf(outputs[o..]))
    ensures forall a :: a in EventsOf(outputs[o..]) ==> a.body.ts > t
  {
    hide Numbered;
    var outs := committedOut + outputs;
    assert outs == (committedOut + outputs[..o]) + outputs[o..];
    assert EventsOf(outs) == EventsOf(committedOut + outputs[..o]) + EventsOf(outputs[o..]);
    NumberedParts(sent, EventsOf(committedOut + outputs[..o]), EventsOf(outputs[o..]));
    forall k | 0 <= k < |outputs[o..]|
      ensures outputs[o..][k].event.body.ts > t
    {
      assert outputs[o..][k] == outs[cut + k] && all[cut + k].body == outs[cut + k].event.body;
    }
  }

  lemma CutIsUnique(outs: seq<Output>, d: nat, q: seq<Output>, e: Event, cut: nat)
    requires d <= |outs| && outs[d..] == q && cut <= |outs|
    requires forall k :: 0 <= k < d ==> Less(outs[k].input, e)
    requires forall k :: 0 <= k < cut ==> Less(outs[k].input, e)
    requires forall k :: cut <= k < |outs| ==> !Less(outs[k].input, e)
    ensures d + OutputPoint(q, e) == cut
  {
    var o := OutputPoint(q, e);
    hide Less, OutputPoint;
    assert forall k :: 0 <= k < |q| ==> q[k] == outs[d + k];
    assert d > 0 ==> Less(outs[d - 1].input, e);
    assert o < |q| ==> !Less(q[o].input, e) && q[o] == outs[d + o];
    assert o > 0 ==> Less(q[o - 1].input, e) && q[o - 1] == outs[d + o - 1];
  }

  lemma NumberedParts(sent: seq<Event>, a: seq<Event>, b: seq<Event>)
    requires Numbered(sent, a + b)
    ensures Numbered(sent, a) && Numbered(sent, b)
  {
    assert forall k :: 0 <= k < |a| ==> a[k] == (a + b)[k];
    assert forall k :: 0 <= k < |b| ==> b[k] == (a + b)[|a| + k];
  }

  lemma RolledBackInput(i: nat, input: seq<Event>, h: seq<Event>, c: nat)
    requires InputOk(i, input) && HistoryOk(i, h) && c <= |h|
    requires forall x, y :: x in input && y in h ==> !SameKey(x, y)
    ensures InputOk(i, InsertAll(input, h[c..]))
  {
    InsertAllKeepsSorted(input, h[c..]);
  }

  lemma RollbackKeepsLocal(m: Model, i: nat, lp: LP)
    requires WellFormed(m)
    requires LocalOk(m, i, lp) && lp.job.Busy? && lp.job.stage.Taken? && Ahead(lp, lp.job.event)
    requires 0 < lp.job.event.body.sender
    requires forall x, y :: x in lp.input && y in History(lp) ==> !SameKey(x, y)
    ensures LocalOk(m, i, RolledBack(lp, lp.job.event))
    ensures KeptHistory(History(lp), History(RolledBack(lp, lp.job.event)), lp.job.event)
  {
    hide SavedOk, StateOf, SendsOf, Numbered, Sorted, Less, RollPoint, OutputPoint, RestoreStates, InsertAll;
    var e := lp.job.event;
    var c := RollPoint(lp.processed, e);
    var lp' := RolledBack(lp, e);
    var h, h' := History(lp), History(lp');
    RolledBackHistory(lp.committed, lp.processed, e);
    assert h[|h'|..] == lp.processed[c..];
    RolledBackInput(i, lp.input, h, |h'|);
    assert lp'.states != [];
    SavedStatesSurvive(m, i, h, h', e, lp.states, lp'.states);
    assert Made(Outputs(lp)) + [] == Made(Outputs(lp));
    RolledBackOutputs(m, i, h, h', e, lp.committedOut, lp.outputs, lp.sent);
    assert OutputsOk(m, i, lp'.job, h', Outputs(lp')) by {
      assert Made(Outputs(lp')) + [] == Made(Outputs(lp'));
    }
    assert HistoryOk(i, h') by {
      assert forall k :: 0 <= k < |h'| ==> h'[k] == h[k];
    }
    assert JobOk(lp'.job, lp'.input, h') by {
      assert forall k :: 0 <= k < |h'| ==> h'[k] == h[k];
    }
  }

  lemma SendAntiKeepsLocal(m: Model, i: nat, lp: LP)
    requires LocalOk(m, i, lp) && Antis(lp.job) != []
    ensures LocalOk(m, i, lp.(job := lp.job.(stage := Cancelling(Antis(lp.job)[1..], lp.job.stage.restored))))
  {
    hide SavedStatesOk, StateOf, SendsOf, Numbered, Sorted, Ascending, Less, InputOk, HistoryOk, SentHereOk, CommittedOk,
         CommittedOutOk;
    assert Antis(lp.job) == [Antis(lp.job)[0]] + Antis(lp.job)[1..];
    NumberedParts(lp.sent, [Antis(lp.job)[0]], Antis(lp.job)[1..]);
  }

  /** Coasting forward brings the state up to the whole remaining history. */
  lemma CoastKeepsLocal(m: Model, i: nat, lp: LP)
    requires LocalOk(m, i, lp) && lp.job.Busy? && lp.job.stage.Cancelling? && Antis(lp.job) == []
    ensures var events := lp.processed[UpTo(lp.processed, lp.job.stage.restored)..];
            LocalOk(m, i, lp.(state := CoastForward(m, i, lp.state, events), job := lp.job.(stage := Ready)))
  {
    hide StateOf, CoastForward, UpTo, SendsOf, Numbered, Sorted;
    var last := lp.states[|lp.states| - 1];
    assert SavedOk(m, i, History(lp), last);
    assert last == lp.states[0] || Less(lp.states[0].event, last.event);
    CoastReplaysRest(m, i, lp.committed, lp.processed, last);
  }

  lemma CoastReplaysRest(m: Model, i: nat, committed: seq<Event>, processed: seq<Event>, saved: Saved)
    requires Ascending(committed + processed) && SavedOk(m, i, committed + processed, saved)
    requires forall c :: c in committed ==> c.body.ts < saved.event.body.ts
    ensures CoastForward(m, i, saved.state, processed[UpTo(processed, saved.event)..])
         == StateOf(m, i, committed + processed)
  {
    hide StateOf, CoastForward, UpTo;
    var h, d := committed + processed, UpTo(processed, saved.event);
    UpToBehind(committed, processed, saved.event);
    CoastForwardIsReplay(m, i, h, |committed| + d);
    assert h[|committed| + d..] == processed[d..];
  }

  lemma EarlierIsLess(x: Event, y: Event)
    ensures x.body.ts < y.body.ts ==> Less(x, y) && !Less(y, x)
    ensures y.body.sender > 0 ==> Less(INITIAL, y)
  {
  }

  lemma UpToBehind(committed: seq<Event>, processed: seq<Event>, r: Event)
    requires Ascending(committed + processed)
    requires forall c :: c in committed ==> c.body.ts < r.body.ts
    ensures UpTo(committed + processed, r) == |committed| + UpTo(processed, r)
  {
    hide UpTo, Less, SameId;
    var h, d := committed + processed, UpTo(processed, r);
    forall k | |committed| + d <= k < |h|
      ensures Less(r, h[k])
    {
      assert h[k] == processed[k - |committed|];
    }
    if |committed| + d > 0 {
      if d == 0 {
        assert h[|committed| - 1] in committed;
        EarlierIsLess(h[|committed| - 1], r);
      } else {
        assert h[|committed| + d - 1] == processed[d - 1];
      }
    }
    UpToIsUnique(h, r, |committed| + d);
  }

  /** Processing an event extends the replay; the saved states stay right. */
  lemma ReceiveKeepsLocal(m: Model, i: nat, lp: LP)
    requires WellFormed(m)
    requires LocalOk(m, i, lp) && lp.job.Busy? && lp.job.stage.Ready?
    requires lp.job.event.pos && lp.job.event.body.sender > 0
    ensures var (state, msgs) := m.receive(i, lp.state, lp.job.event.body);
            LocalOk(m, i, SaveState(m, lp.(state := state, job := lp.job.(stage := Sending(msgs))), lp.job.event, state))
  {
    hide SavedOk, StateOf, SendsOf, Numbered, Ascending, Sorted, Less;
    var e := lp.job.event;
    var h := History(lp);
    var (state, msgs) := m.receive(i, lp.state, e.body);
    var lp' := SaveState(m, lp.(state := state, job := lp.job.(stage := Sending(msgs))), e, state);
    assert History(lp') == h && Outputs(lp') == Outputs(lp);
    SendsOfAppend(m, i, h, e);
    assert Made(Outputs(lp)) + [] == Made(Outputs(lp));
    SavedStatesGrow(m, i, h, lp.states, e);
    if lp.count == 0 {
      SavedStatesExtend(m, i, h, lp.states, e, state);
    }
    assert CommittedOk(lp'.committed, lp'.states) by {
      assert lp'.states[0] == lp.states[0];
    }
  }

  lemma SavedGrows(m: Model, i: nat, h: seq<Event>, saved: Saved, e: Event)
    requires SavedOk(m, i, h, saved) && Ascending(h) && e.body.sender > 0 && forall x :: x in h ==> Less(x, e)
    ensures Ascending(h + [e]) && SavedOk(m, i, h + [e], saved) && Less(saved.event, e)
  {
    EarlierIsLess(e, e);
    hide Less, SameId, UpTo, StateOf;
    assert forall k :: 0 <= k < |h| ==> h[k] in h;
    assert Ascending(h + [e]);
    assert (h + [e])[..|h|] == h;
    UpToPrefix(h + [e], |h|, saved.event);
    assert (h + [e])[..UpTo(h, saved.event)] == h[..UpTo(h, saved.event)];
  }

  lemma SavedStatesGrow(m: Model, i: nat, h: seq<Event>, states: seq<Saved>, e: Event)
    requires SavedStatesOk(m, i, false, h, states)
    requires Ascending(h) && e.body.sender > 0 && forall x :: x in h ==> Less(x, e)
    ensures SavedStatesOk(m, i, false, h + [e], states)
    ensures forall k :: 0 <= k < |states| ==> Less(states[k].event, e)
  {
    forall k | 0 <= k < |states|
      ensures SavedOk(m, i, h + [e], states[k]) && Less(states[k].event, e)
    {
      SavedGrows(m, i, h, states[k], e);
    }
  }

  lemma SavedStatesExtend(m: Model, i: nat, h: seq<Event>, states: seq<Saved>, e: Event, state: State)
    requires SavedStatesOk(m, i, false, h + [e], states)
    requires forall k :: 0 <= k < |states| ==> Less(states[k].event, e)
    requires Ascending(h + [e]) || (Ascending(h) && forall x :: x in h ==> Less(x, e))
    requires state == StateOf(m, i, h + [e])
    ensures SavedStatesOk(m, i, false, h + [e], states + [Saved(e, state)])
  {
    LastIsSaved(m, i, h, e);
    hide SavedOk, Less, Ascending, StateOf;
  }

  lemma LastIsSaved(m: Model, i: nat, h: seq<Event>, e: Event)
    requires Ascending(h + [e]) || (Ascending(h) && forall x :: x in h ==> Less(x, e))
    ensures SavedOk(m, i, h + [e], Saved(e, StateOf(m, i, h + [e])))
  {
    assert forall k :: 0 <= k < |h| ==> h[k] in h;
    assert (h + [e])[|h|] == e;
    UpToIsUnique(h + [e], e, |h| + 1);
    assert (h + [e])[..|h| + 1] == h + [e];
    hide StateOf, UpTo;
  }

  /** The job's first message is the one that is handled next. */
  ghost predicate HandlesNext(job: Job, input: Event, msgs: seq<Msg>, rest: Job) {
    && msgs != []
    && ((job == Booting(msgs) && rest == Booting(msgs[1..]) && input == INITIAL)
     || (job.Busy? && job.stage == Sending(msgs) && rest == job.(stage := Sending(msgs[1..])) && input == job.event))
  }

  lemma HandleNext(m: Model, i: nat, h: seq<Event>, q: seq<Event>, job: Job, input: Event, msgs: seq<Msg>, rest: Job)
    requires HandlesNext(job, input, msgs, rest) && MsgsOk(m, job) && JobOk(job, q, h)
    ensures MsgsOk(m, rest) && JobOk(rest, q, h) && Replayed(h, rest) == Replayed(h, job)
    ensures msgs[0].recv < m.n && (job.Booting? || msgs[0].ts > input.body.ts)
    ensures Unsent(m, i, job) == (if msgs[0].ts <= m.maxTime then
              [Send(input, Body(msgs[0].recv, msgs[0].ts, input.body.ts, i + 1, msgs[0].data))] else []) + Unsent(m, i, rest)
    ensures Antis(job) == Antis(rest) == [] && !rest.Idle?
    ensures rest.Booting? <==> job.Booting?
  {
    assert forall k :: 0 <= k < |msgs[1..]| ==> msgs[1..][k] == msgs[k + 1];
  }

  /** A new event past the end is dropped. */
  lemma DropKeepsLocal(m: Model, i: nat, lp: LP, input: Event, msgs: seq<Msg>, rest: Job)
    requires LocalOk(m, i, lp) && msgs != [] && HandlesNext(lp.job, input, msgs, rest) && msgs[0].ts > m.maxTime
    ensures LocalOk(m, i, lp.(job := rest))
  {
    hide SavedOk, StateOf, SendsOf, Numbered, Ascending, Sorted, Less, Unsent, MsgsOk, JobOk, HandlesNext, Replayed;
    HandleNext(m, i, History(lp), lp.input, lp.job, input, msgs, rest);
    StateKeepsOk(m, i, lp.job, rest, input, msgs, Replayed(History(lp), rest), lp.states, lp.state);
  }

  lemma StateKeepsOk(m: Model, i: nat, job: Job, rest: Job, input: Event, msgs: seq<Msg>,
                     h: seq<Event>, states: seq<Saved>, state: State)
    requires HandlesNext(job, input, msgs, rest)
    ensures StateOk(m, i, job, h, states, state) <==> StateOk(m, i, rest, h, states, state)
  {
  }

  /** Any other new event is recorded as a send. */
  lemma RecordKeepsLocal(m: Model, i: nat, lp: LP, input: Event, msgs: seq<Msg>, rest: Job)
    requires LocalOk(m, i, lp) && msgs != [] && HandlesNext(lp.job, input, msgs, rest) && msgs[0].ts <= m.maxTime
    ensures msgs[0].recv < m.n && (lp.job.Booting? || msgs[0].ts > input.body.ts)
    ensures LocalOk(m, i, Recorded(lp.(job := rest), input, NewEvent(i, lp, input, msgs[0])))
  {
    hide SavedOk, StateOf, SendsOf, Numbered, Ascending, Sorted, Less, Unsent, MsgsOk, JobOk, HandlesNext, Replayed,
         SentHereOk, OutputsOk;
    HandleNext(m, i, History(lp), lp.input, lp.job, input, msgs, rest);
    StateKeepsOk(m, i, lp.job, rest, input, msgs, Replayed(History(lp), rest), lp.states, lp.state);
    var e := NewEvent(i, lp, input, msgs[0]);
    var lp' := Recorded(lp.(job := rest), input, e);
    assert Outputs(lp') == Outputs(lp) + [Output(input, e)];
    RecordKeepsOutputs(m, i, lp.job, rest, Replayed(History(lp), lp.job), Outputs(lp), Output(input, e));
    RecordKeepsNumbers(m, i, lp.generation, lp.sent, Outputs(lp), Output(input, e));
    EmptyIsNumbered(lp'.sent);
  }

  lemma EmptyIsNumbered(sent: seq<Event>)
    ensures Numbered(sent, [])
  {
  }

  lemma RecordKeepsOutputs(m: Model, i: nat, job: Job, rest: Job, h: seq<Event>, outs: seq<Output>, o: Output)
    requires OutputsOk(m, i, job, h, outs)
    requires Unsent(m, i, job) == [Send(o.input, o.event.body)] + Unsent(m, i, rest)
    ensures OutputsOk(m, i, rest, h, outs + [o])
  {
    var s := [Send(o.input, o.event.body)];
    assert Made(outs + [o]) == Made(outs) + s;
    assert (Made(outs) + s) + Unsent(m, i, rest) == Made(outs) + (s + Unsent(m, i, rest));
  }

  lemma RecordKeepsNumbers(m: Model, i: nat, generation: nat, sent: seq<Event>, outs: seq<Output>, o: Output)
    requires SentHereOk(m, i, generation, sent) && Numbered(sent, EventsOf(outs))
    requires SentItemOk(m, i, generation, o.event)
    ensures SentHereOk(m, i, generation + 1, sent + [o.event])
    ensures Numbered(sent + [o.event], EventsOf(outs + [o]))
  {
    assert EventsOf(outs + [o]) == EventsOf(outs) + [o.event];
  }

  /** initialize() ends for this LP: its initial state is saved. */
  lemma BootedKeepsLocal(m: Model, i: nat, lp: LP)
    requires LocalOk(m, i, lp) && lp.job == Booting([])
    ensures LocalOk(m, i, SaveState(m, lp.(job := Idle), INITIAL, lp.state))
  {
    hide SavedOk, StateOf, SendsOf;
    var lp' := SaveState(m, lp.(job := Idle), INITIAL, lp.state);
    assert History(lp') == [] && Outputs(lp') == Outputs(lp);
    assert lp'.states == [Saved(INITIAL, lp.state)];
    EmptySavedOk(m, i, lp.state);
  }

  lemma EmptySavedOk(m: Model, i: nat, state: State)
    requires state == StateOf(m, i, [])
    ensures SavedOk(m, i, [], Saved(INITIAL, state))
  {
  }

  /** Fossil collection only moves the front of the queues into the past. */
  lemma CollectKeepsLocal(m: Model, i: nat, lp: LP, g: nat)
    requires LocalOk(m, i, lp) && lp.job.Busy? && lp.job.stage == Sending([]) && g < UINT_MAX
    requires CollectedOk(lp, lp.lastCollect)
    ensures var lp' := Collected(lp, g);
            && LocalOk(m, i, lp') && lp'.input == lp.input && lp'.sent == lp.sent
            && History(lp') == History(lp) && Outputs(lp') == Outputs(lp)
            && (g > lp.lastCollect ==> lp'.states[0] == lp.states[0] || lp'.states[0].event.body.ts < g)
  {
    hide SavedOk, StateOf, SendsOf, Numbered, Ascending, Sorted, KeptStates, OutputsCollected, EventsCollected, Less, SameId;
    var lp' := Collected(lp, g);
    assert Made(Outputs(lp)) + [] == Made(Outputs(lp));
    if g > lp.lastCollect {
      var o := OutputsCollected(lp.outputs, g);
      var p := EventsCollected(lp.processed, CollectTime(lp.states, g));
      assert lp.processed == lp.processed[..p] + lp.processed[p..];
      assert History(lp') == History(lp);
      assert lp.outputs == lp.outputs[..o] + lp.outputs[o..];
      assert Outputs(lp') == Outputs(lp);
      KeptStatesOk(m, i, Replayed(History(lp), lp.job), lp.states, g);
      CollectedEventsOk(lp.committed, lp.processed, lp.states, g);
      CollectedOutputsOk(lp.committedOut, lp.outputs, lp.lastCollect, g);
    }
  }

  lemma {:induction false} KeptStatesOk(m: Model, i: nat, h: seq<Event>, states: seq<Saved>, g: nat)
    requires SavedStatesOk(m, i, false, h, states)
    ensures var kept := KeptStates(states, g);
            && SavedStatesOk(m, i, false, h, kept)
            && (kept[0] == states[0] || kept[0].event.body.ts < g)
  {
    hide SavedOk, Less;
    if |states| >= 2 && states[1].event.body.ts < g {
      assert SavedStatesOk(m, i, false, h, states[1..]);
      KeptStatesOk(m, i, h, states[1..], g);
    }
  }

  lemma CollectedEventsOk(committed: seq<Event>, processed: seq<Event>, states: seq<Saved>, g: nat)
    requires states != [] && g < UINT_MAX && CommittedOk(committed, states)
    requires forall a, b :: 0 <= a < b < |states| ==> Less(states[a].event, states[b].event)
    requires states[0].event.body.ts < g
    ensures CommittedOk(committed + processed[..EventsCollected(processed, CollectTime(states, g))], KeptStates(states, g))
  {
    var kept := KeptStates(states, g);
    var d, time := |states| - |kept|, CollectTime(states, g);
    assert kept[0] == states[d] && (d == 0 || Less(states[0].event, states[d].event));
    var p := EventsCollected(processed, time);
    hide KeptStates, EventsCollected, CollectTime, Less;
    forall c | c in committed + processed[..p]
      ensures c.body.ts < kept[0].event.body.ts
    {
    }
  }

  lemma CollectedOutputsOk(committedOut: seq<Output>, outputs: seq<Output>, last: nat, g: nat)
    requires CommittedOutOk(committedOut, last) && last < g
    ensures CommittedOutOk(committedOut + outputs[..OutputsCollected(outputs, g)], g)
  {
  }

  /** replenishScheduler: the processed event joins the history. */
  lemma FinishKeepsLocal(m: Model, i: nat, lp: LP, scheduled: Option<Event>)
    requires LocalOk(m, i, lp) && lp.job.Busy? && lp.job.stage.Closing?
    ensures LocalOk(m, i, Finished(m, lp).(job := Idle, scheduled := scheduled))
    ensures History(Finished(m, lp)) == History(lp) + [lp.job.event]
    ensures forall x :: x in Finished(m, lp).input <==> x in lp.input && x != lp.job.event
  {
    hide SavedStatesOk, StateOf, SendsOf, Numbered, Sorted, Less, Erase;
    var e := lp.job.event;
    var lp' := Finished(m, lp).(job := Idle, scheduled := scheduled);
    EraseOne(lp.input, e);
    assert History(lp') == History(lp) + [e];
    assert Replayed(History(lp'), lp'.job) == Replayed(History(lp), lp.job);
    forall a, b | 0 <= a < b < |History(lp')|
      ensures Less(History(lp')[a], History(lp')[b])
    {
      assert b == |History(lp)| ==> History(lp)[a] in History(lp);
    }
  }

  /** cancelEvent: the twins leave. */
  lemma CancelKeepsLocal(m: Model, i: nat, lp: LP, twin: Event, scheduled: Option<Event>)
    requires LocalOk(m, i, lp) && lp.job.Busy? && lp.job.stage.Ready?
    requires !lp.job.event.pos && twin.pos && SameId(lp.job.event, twin) && twin in lp.input
    ensures LocalOk(m, i, lp.(input := CancelIn(lp.input, lp.job.event), job := Idle, scheduled := scheduled))
  {
    CancelRemovesTwins(lp.input, lp.job.event, twin);
  }
}
