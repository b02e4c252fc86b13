/** The scheduling invariant under the operations that touch a schedule queue. */
module KernelScheduling {
  import opened Events
  import opened Simulation
  import opened Queues
  import opened Kernel
  import opened KernelInvariant
  import opened Ledgers

  /** What the schedule queues rely on. */
  ghost predicate Basis(m: Model, s: Sys) {
    && |s.lps| == m.n
    && m.schedulers > 0
    && SentOk(LedgerOf(s))
    && (forall i :: 0 <= i < m.n ==> Sorted(s.lps[i].input))
    && (forall i, x :: 0 <= i < m.n && x in s.lps[i].input ==> Known(LedgerOf(s), x) && x.body.recv == i)
    && (forall i :: 0 <= i < m.n && s.lps[i].job.Busy? ==> s.lps[i].job.event in s.lps[i].input)
  }

  lemma InsertEventEffect(m: Model, s: Sys, r: nat, e: Event)
    requires r < |s.lps|
    ensures var s' := InsertEvent(m, s, r, e);
            && |s'.lps| == |s.lps| && s'.net == s.net && s'.floor == s.floor
            && (forall k :: 0 <= k < |s.lps| && k != r ==> s'.lps[k] == s.lps[k])
            && s'.lps[r] == s.lps[r].(input := Insert(s.lps[r].input, e), scheduled := s'.lps[r].scheduled)
  {
  }

  lemma QueuedIsKnown(m: Model, s: Sys, q: QueueId, x: Event)
    requires Basis(m, s) && SchedulingOk(m, s) && x in QueueOf(s, q)
    ensures Known(LedgerOf(s), x) && s.lps[x.body.recv].input != [] && x == s.lps[x.body.recv].input[0]
  {
    assert QueuedOk(m, s, q, x);
    assert ScheduledOk(s.lps[x.body.recv]);
    assert s.lps[x.body.recv].input[0] in s.lps[x.body.recv].input;
  }

  /** The queue of LP r, once r's entry is erased. */
  lemma EraseScheduled(m: Model, s: Sys, r: nat)
    requires Basis(m, s) && SchedulingOk(m, s) && r < m.n && s.lps[r].scheduled.Some?
    ensures var Q := QueueOf(s, HomeOf(m, s, r));
            var erased := Erase(Q, s.lps[r].scheduled.value);
            && (s.lps[r].job.Busy? ==> erased == Q)
            && (!s.lps[r].job.Busy? ==> |erased| == |Q| - 1)
            && (forall x :: x in erased <==> x in Q && x.body.recv != r)
            && Sorted(erased)
  {
    var q := HomeOf(m, s, r);
    var Q := QueueOf(s, q);
    var e := s.lps[r].scheduled.value;
    assert ScheduledOk(s.lps[r]);
    assert e in s.lps[r].input;
    forall x | x in Q
      ensures SameKey(x, e) <==> x.body.recv == r
      ensures x.body.recv == r ==> !s.lps[r].job.Busy? && x == e
    {
      QueuedIsKnown(m, s, q, x);
      assert QueuedOk(m, s, q, x);
      KnownByKey(LedgerOf(s), x, e);
    }
    if s.lps[r].job.Busy? {
      EraseNone(Q, e);
    } else {
      EraseOne(Q, e);
    }
  }

  /** Scheduling is in order for every LP but r. */
  ghost predicate OthersOk(m: Model, s: Sys, r: nat) {
    && |s.lps| == m.n
    && (forall k :: 0 <= k < m.n && k != r ==> ScheduledOk(s.lps[k]) && s.lps[k].queue < m.schedulers)
    && (forall k :: 0 <= k < m.n && k != r && s.lps[k].scheduled.Some? ==>
          s.lps[k].scheduled.value.body.recv == k)
    && (forall k :: 0 <= k < m.n && k != r && !s.lps[k].job.Busy? && s.lps[k].scheduled.Some? ==>
          s.lps[k].scheduled.value in QueueOf(s, HomeOf(m, s, k)))
    && (forall p, x :: x in QueueOf(s, p) && x.body.recv != r ==> QueuedOk(m, s, p, x))
    && (forall p :: Sorted(QueueOf(s, p)))
  }

  /** LP r and the contents of its schedule queue change; r has no entry elsewhere. */
  lemma Reschedule(m: Model, s: Sys, r: nat, Q: seq<Event>, s': Sys)
    requires OthersOk(m, s, r) && r < m.n
    requires |s'.lps| == m.n && s'.lps == s.lps[r := s'.lps[r]]
    requires ScheduledOk(s'.lps[r]) && s'.lps[r].queue < m.schedulers
    requires forall p :: QueueOf(s', p) == if p == HomeOf(m, s', r) then Q else QueueOf(s, p)
    requires forall x :: x in Q && x.body.recv != r ==> x in QueueOf(s, HomeOf(m, s', r))
    requires forall x :: x in QueueOf(s, HomeOf(m, s', r)) && x.body.recv != r ==> x in Q
    requires forall x :: x in Q && x.body.recv == r ==> s'.lps[r].scheduled == Some(x) && !s'.lps[r].job.Busy?
    requires forall p, x :: p != HomeOf(m, s', r) && x in QueueOf(s, p) ==> x.body.recv != r
    requires !s'.lps[r].job.Busy? && s'.lps[r].scheduled.Some? ==> s'.lps[r].scheduled.value in Q
    requires Sorted(Q)
    ensures SchedulingOk(m, s')
  {
    forall k | 0 <= k < m.n && !s'.lps[k].job.Busy? && s'.lps[k].scheduled.Some?
      ensures s'.lps[k].scheduled.value in QueueOf(s', HomeOf(m, s', k))
    {
      if k != r {
        var x := s.lps[k].scheduled.value;
        assert x in QueueOf(s, HomeOf(m, s, k));
      }
    }
    forall p, x | x in QueueOf(s', p)
      ensures QueuedOk(m, s', p, x)
    {
      if x.body.recv != r {
        assert QueuedOk(m, s, p, x);
      }
    }
  }

  /** An entry's LP is in order: known event, own queue. */
  lemma EntriesAreOwn(m: Model, s: Sys, r: nat)
    requires Basis(m, s) && SchedulingOk(m, s) && r < m.n
    ensures OthersOk(m, s, r)
    ensures forall p, x :: x in QueueOf(s, p) && x.body.recv == r ==>
              p == HomeOf(m, s, r) && !s.lps[r].job.Busy? && s.lps[r].scheduled == Some(x)
  {
    forall p, x | x in QueueOf(s, p)
      ensures QueuedOk(m, s, p, x)
    {
    }
    forall k | 0 <= k < m.n && s.lps[k].scheduled.Some?
      ensures s.lps[k].scheduled.value.body.recv == k
    {
      assert ScheduledOk(s.lps[k]);
      assert s.lps[k].scheduled.value in s.lps[k].input;
    }
  }

  lemma InsertKeepsScheduling(m: Model, s: Sys, r: nat, e: Event)
    requires Basis(m, s) && SchedulingOk(m, s) && r < m.n
    requires Known(LedgerOf(s), e) && e.body.recv == r && e !in s.lps[r].input
    ensures SchedulingOk(m, InsertEvent(m, s, r, e))
  {
    var lp := s.lps[r];
    var Q := QueueOf(s, HomeOf(m, s, r));
    if lp.scheduled.None? {
      InsertFirst(m, s, r, e);
    } else if Insert(lp.input, e)[0] != lp.scheduled.value && |Erase(Q, lp.scheduled.value)| < |Q| {
      InsertNewLeast(m, s, r, e);
    } else {
      EntriesAreOwn(m, s, r);
      assert ScheduledOk(lp);
      var s' := InsertEvent(m, s, r, e);
      InsertBehind(m, s, r, e);
      Reschedule(m, s, r, Q, s');
    }
  }

  lemma InsertFirst(m: Model, s: Sys, r: nat, e: Event)
    requires Basis(m, s) && SchedulingOk(m, s) && r < m.n
    requires Known(LedgerOf(s), e) && e.body.recv == r && e !in s.lps[r].input
    requires s.lps[r].scheduled.None?
    ensures SchedulingOk(m, InsertEvent(m, s, r, e))
  {
    hide Erase, Known, SameKey, Sorted;
    var q := HomeOf(m, s, r);
    var Q := QueueOf(s, q);
    EntriesAreOwn(m, s, r);
    assert ScheduledOk(s.lps[r]);
    assert s.lps[r].input == [];
    NoSuchKey(m, s, q, Q, e);
    InsertKeepsSorted(Q, e);
    Reschedule(m, s, r, Insert(Q, e), InsertEvent(m, s, r, e));
  }

  lemma InsertNewLeast(m: Model, s: Sys, r: nat, e: Event)
    requires Basis(m, s) && SchedulingOk(m, s) && r < m.n
    requires Known(LedgerOf(s), e) && e.body.recv == r && e !in s.lps[r].input
    requires s.lps[r].scheduled.Some? && Insert(s.lps[r].input, e)[0] != s.lps[r].scheduled.value
    requires var Q := QueueOf(s, HomeOf(m, s, r)); |Erase(Q, s.lps[r].scheduled.value)| < |Q|
    ensures SchedulingOk(m, InsertEvent(m, s, r, e))
  {
    hide Insert, Erase, Known, SameKey;
    var lp := s.lps[r];
    var q := HomeOf(m, s, r);
    var erased := Erase(QueueOf(s, q), lp.scheduled.value);
    EntriesAreOwn(m, s, r);
    assert ScheduledOk(lp);
    EraseScheduled(m, s, r);
    assert !lp.job.Busy? && Insert(lp.input, e)[0] == e;
    NoSuchKey(m, s, q, erased, e);
    InsertKeepsSorted(erased, e);
    var s' := s.(lps := s.lps[r := lp.(input := Insert(lp.input, e), scheduled := Some(e))],
                 queues := s.queues[q := Insert(erased, e)]);
    assert s' == InsertEvent(m, s, r, e);
    Reschedule(m, s, r, Insert(erased, e), s');
  }

  /** The new event is not the LP's least, or the LP is busy: nothing is rescheduled. */
  lemma InsertBehind(m: Model, s: Sys, r: nat, e: Event)
    requires Basis(m, s) && SchedulingOk(m, s) && r < m.n && s.lps[r].scheduled.Some?
    requires var Q := QueueOf(s, HomeOf(m, s, r));
             Insert(s.lps[r].input, e)[0] == s.lps[r].scheduled.value || |Erase(Q, s.lps[r].scheduled.value)| >= |Q|
    ensures ScheduledOk(s.lps[r].(input := Insert(s.lps[r].input, e)))
  {
    assert ScheduledOk(s.lps[r]);
    EraseScheduled(m, s, r);
  }

  lemma NoSuchKey(m: Model, s: Sys, q: QueueId, Q: seq<Event>, e: Event)
    requires Basis(m, s) && SchedulingOk(m, s) && Known(LedgerOf(s), e)
    requires forall x :: x in Q ==> x in QueueOf(s, q) && x != e
    ensures forall x :: x in Q ==> !SameKey(x, e)
  {
    forall x | x in Q
      ensures !SameKey(x, e)
    {
      QueuedIsKnown(m, s, q, x);
      KnownByKey(LedgerOf(s), x, e);
    }
  }

  /** A worker lets go of LP i, whose queues it has put in order. */
  lemma ReleaseKeepsScheduling(m: Model, s: Sys, i: nat)
    requires i < m.n && |s.lps| == m.n && OthersOk(m, s, i)
    requires Basis(m, s.(lps := s.lps[i := s.lps[i].(job := Idle)]))
    requires s.lps[i].queue < m.schedulers
    requires forall p, x :: x in QueueOf(s, p) ==> x.body.recv != i
    ensures SchedulingOk(m, Release(m, s, i))
  {
    var lp := s.lps[i];
    var q := HomeOf(m, s, i);
    var Q := QueueOf(s, q);
    var s' := Release(m, s, i);
    if lp.input != [] {
      var e := lp.input[0];
      var b := s.(lps := s.lps[i := lp.(job := Idle)]);
      assert e in b.lps[i].input;
      forall x | x in Q
        ensures !SameKey(x, e)
      {
        assert QueuedOk(m, s, q, x);
        var k := x.body.recv;
        assert ScheduledOk(s.lps[k]);
        assert x in b.lps[k].input;
        KnownByKey(LedgerOf(b), x, e);
      }
      InsertKeepsSorted(Q, e);
      Reschedule(m, s, i, Insert(Q, e), s');
    } else {
      Reschedule(m, s, i, Q, s');
    }
  }

  /** getEvent: the least event of the queue, and its LP was idle. */
  lemma GetEventTakesIdle(m: Model, s: Sys, w: Worker)
    requires Basis(m, s) && SchedulingOk(m, s) && Enabled(m, s, GetEvent(w))
    ensures var Q := QueueOf(s, QueueId(w.node, w.thread % NonZero(m.schedulers)));
            var lp := s.lps[Q[0].body.recv];
            && lp.job.Idle? && Q[0] in lp.input && Q[0] == lp.input[0]
            && (forall x :: x in Q[1..] ==> x in Q && x.body.recv != Q[0].body.recv)
  {
    var q := QueueId(w.node, w.thread % NonZero(m.schedulers));
    var Q := QueueOf(s, q);
    assert Q[0] in Q;
    QueuedIsKnown(m, s, q, Q[0]);
    assert QueuedOk(m, s, q, Q[0]);
    forall x | x in Q[1..]
      ensures x in Q && x.body.recv != Q[0].body.recv
    {
      var k :| 1 <= k < |Q| && Q[k] == x;
      assert Before(Q[0], Q[k]);
      assert QueuedOk(m, s, q, x);
    }
  }

  lemma GetEventKeepsScheduling(m: Model, s: Sys, w: Worker)
    requires Basis(m, s) && SchedulingOk(m, s) && Enabled(m, s, GetEvent(w))
    ensures SchedulingOk(m, Apply(m, s, GetEvent(w)))
  {
    var q := QueueId(w.node, w.thread % NonZero(m.schedulers));
    var Q := QueueOf(s, q);
    var r := Q[0].body.recv;
    GetEventTakesIdle(m, s, w);
    EntriesAreOwn(m, s, r);
    assert Q[0] in Q && QueuedOk(m, s, q, Q[0]);
    assert ScheduledOk(s.lps[r]);
    assert Q == [Q[0]] + Q[1..];
    Reschedule(m, s, r, Q[1..], Apply(m, s, GetEvent(w)));
  }
}
