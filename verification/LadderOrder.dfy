/** When the ladder queue keeps its events in order: exactly as long as every rung separates its own
    events from all later ones.  Insertions keep that; what can break it is a rung that becomes empty
    but stays in use, since its current start then goes back. */
module LadderOrder {
  import opened Events
  import opened LadderQueues

  /** x is in bottom or in a rung in use after rung i. */
  ghost predicate IsLater(l: Ladder, i: nat, x: Event) {
    x in multiset(l.bottom) || exists j :: i < j < l.nRung && j < |l.rungs| && x in Poured(l.rungs[j].buckets)
  }

  lemma LaterWhere(l: Ladder, i: nat, x: Event) returns (k: nat)
    requires IsLater(l, i, x) && x !in multiset(l.bottom)
    ensures i < k < l.nRung && k < |l.rungs| && x in Poured(l.rungs[k].buckets)
  {
    k :| i < k < l.nRung && k < |l.rungs| && x in Poured(l.rungs[k].buckets);
  }

  lemma LaterThere(l: Ladder, i: nat, k: nat, x: Event)
    requires i < k < l.nRung && k < |l.rungs| && x in Poured(l.rungs[k].buckets)
    ensures IsLater(l, i, x)
  {
  }

  lemma LaterInBottom(l: Ladder, i: nat, x: Event)
    requires x in multiset(l.bottom)
    ensures IsLater(l, i, x)
  {
  }

  /** Nothing in a rung is before its current start. */
  ghost predicate NoneBehind(r: Rung) {
    forall x :: x in Poured(r.buckets) ==> x.body.ts >= r.current
  }

  /** So it is with rung i, and all that comes after it is before that. */
  ghost predicate ApartAt(l: Ladder, i: nat)
    requires i < |l.rungs|
  {
    NoneBehind(l.rungs[i]) && forall x :: IsLater(l, i, x) ==> x.body.ts < l.rungs[i].current
  }

  ghost predicate Separated(l: Ladder) {
    l.nRung <= |l.rungs| && forall i :: 0 <= i < l.nRung ==> ApartAt(l, i)
  }

  ghost predicate Ordered(l: Ladder) {
    InOrder(l.rungs, l.nRung, l.bottom)
  }

  lemma SeparatedIsOrdered(l: Ladder)
    requires Separated(l)
    ensures Ordered(l)
  {
    hide Poured;
    forall i, j | 0 <= i < j < l.nRung
      ensures Precedes(Poured(l.rungs[j].buckets), Poured(l.rungs[i].buckets))
    {
      assert ApartAt(l, i);
      assert forall x | x in Poured(l.rungs[j].buckets) :: IsLater(l, i, x);
    }
    forall i | 0 <= i < l.nRung
      ensures Precedes(multiset(l.bottom), Poured(l.rungs[i].buckets))
    {
      assert ApartAt(l, i);
      assert forall x | x in multiset(l.bottom) :: IsLater(l, i, x);
    }
  }

  // ------------------------------------------------------------------------------------------
  // What the order needs
  // ------------------------------------------------------------------------------------------

  /** x is on the wrong side of the current start of rung i. */
  ghost predicate Astray(l: Ladder, i: nat, x: Event)
    requires i < |l.rungs|
  {
    if x.body.ts < l.rungs[i].current then x in Poured(l.rungs[i].buckets) else IsLater(l, i, x)
  }

  lemma SomeAstray(l: Ladder) returns (i: nat, x: Event)
    requires l.nRung <= |l.rungs| && !Separated(l)
    ensures i < l.nRung && Astray(l, i, x)
  {
    hide Poured, IsLater;
    i :| 0 <= i < l.nRung && !ApartAt(l, i);
    if y :| y in Poured(l.rungs[i].buckets) && y.body.ts < l.rungs[i].current {
      x := y;
    } else {
      x :| IsLater(l, i, x) && x.body.ts >= l.rungs[i].current;
    }
  }

  /** Where an insertion would put the event. */
  ghost predicate FitsIn(l: Ladder, e: Event)
    requires l.nRung <= |l.rungs|
  {
    Fits(l.rungs, l.nRung, l.bottom, Chosen(l.rungs, l.nRung, e.body.ts), e)
  }

  /** Another event for the time of one astray does not fit. */
  lemma AstrayDoesNotFit(l: Ladder, i: nat, x: Event)
    requires i < l.nRung <= |l.rungs| && Astray(l, i, x)
    ensures !FitsIn(l, x)
  {
    var r := Chosen(l.rungs, l.nRung, x.body.ts);
    hide Poured, Chosen;
    assert x in multiset{x};
    if x.body.ts < l.rungs[i].current {
      assert r != i;
    } else if x !in multiset(l.bottom) {
      var j :| i < j < l.nRung && j < |l.rungs| && x in Poured(l.rungs[j].buckets);
      assert r < j;
    }
  }

  lemma SeparatedFits(l: Ladder, e: Event)
    requires Separated(l)
    ensures FitsIn(l, e)
  {
    var r := Chosen(l.rungs, l.nRung, e.body.ts);
    hide Poured, Chosen, ApartAt, Precedes;
    forall i | 0 <= i < r
      ensures Precedes(multiset{e}, Poured(l.rungs[i].buckets))
    {
      assert ApartAt(l, i);
      FitsBefore(l, i, e);
    }
    if r < l.nRung {
      FitsAfter(l, r, e);
    }
  }

  lemma FitsBefore(l: Ladder, i: nat, e: Event)
    requires i < l.nRung <= |l.rungs| && ApartAt(l, i) && e.body.ts < l.rungs[i].current
    ensures Precedes(multiset{e}, Poured(l.rungs[i].buckets))
  {
  }

  lemma FitsAfter(l: Ladder, r: nat, e: Event)
    requires r < l.nRung <= |l.rungs| && ApartAt(l, r) && l.rungs[r].current <= e.body.ts
    ensures Precedes(multiset(l.bottom), multiset{e})
    ensures forall i :: r < i < l.nRung ==> Precedes(Poured(l.rungs[i].buckets), multiset{e})
  {
    hide Poured;
    forall i | r < i < l.nRung
      ensures Precedes(Poured(l.rungs[i].buckets), multiset{e})
    {
      assert forall x | x in Poured(l.rungs[i].buckets) :: IsLater(l, r, x);
    }
    assert forall x | x in multiset(l.bottom) :: IsLater(l, r, x);
  }

  lemma {:induction false} PutAllPours(r: Rung, list: seq<Event>)
    requires RungOk(r) && AllFrom(list, r.start)
    ensures RungOk(PutAll(r, list)) && Poured(PutAll(r, list).buckets) == Poured(r.buckets) + multiset(list)
  {
    if list != [] {
      var n := |list| - 1;
      var before, e := list[..n], list[n];
      PutAllNext(r, list, n);
      assert list[..n + 1] == list == before + [e] && n < |list|;
      hide *;
      PutAllPours(r, before);
      PutKeepsOk(PutAll(r, before), e);
      AddsUp(Poured(r.buckets), before, e);
    }
  }

  lemma AddsUp(m: multiset<Event>, before: seq<Event>, e: Event)
    ensures (m + multiset(before)) + multiset{e} == m + multiset(before + [e])
  {
    assert multiset(before + [e]) == multiset(before) + multiset{e};
  }

  /** Every event can be inserted. */
  lemma Inserts(l: Ladder, e: Event, topStart: nat) returns (now: Ladder)
    requires RungsOk(l.rungs, l.nRung) && WeaklySorted(l.bottom) && e.body.ts <= topStart
    ensures InsertedNear(l, now, e, topStart)
  {
    RungsHave(l.rungs, l.nRung);
    var r := Chosen(l.rungs, l.nRung, e.body.ts);
    if r < l.nRung {
      RungHas(l.rungs, l.nRung, r);
      PutKeepsOk(l.rungs[r], e);
      hide *;
      now := l.(rungs := l.rungs[r := Put(l.rungs[r], e)]);
      RungOrder(l.rungs, now.rungs, l.nRung, l.bottom, r, e);
      InsertedAtRung(l, now, r, e, topStart);
    } else if |l.bottom| < THRESHOLD || l.nRung == MAX_RUNG_CNT {
      InsertKeepsOrder(l.bottom, e);
      hide *;
      now := l.(bottom := Insert(l.bottom, e));
      BottomOrder(l.rungs, l.nRung, l.bottom, now.bottom, e);
      InsertedBelowRungs(l, now, e, topStart);
    } else {
      var p := NewRungFor(l, e, topStart);
      hide *;
      now := Ladder(l.rungs[l.nRung := p], l.nRung + 1, []);
      NewRungOrder(l.rungs, now.rungs, l.nRung, l.bottom, e, topStart);
      InsertedBelowRungs(l, now, e, topStart);
    }
  }

  lemma NewRungFor(l: Ladder, e: Event, topStart: nat) returns (p: Rung)
    requires l.nRung < |l.rungs| == MAX_RUNG_CNT && WeaklySorted(l.bottom) && l.bottom != [] && e.body.ts <= topStart
    requires l.nRung > 0 ==> e.body.ts < l.rungs[l.nRung - 1].current
    ensures Transferred(l.rungs, l.rungs[l.nRung := p], l.nRung, l.bottom, e, topStart)
  {
    var n, start := l.nRung, Min(l.bottom[0].body.ts, e.body.ts);
    var width := if n == 0 then BottomWidth(topStart - start, |l.bottom|) else BottomWidth(l.rungs[n - 1].current - start, THRESHOLD);
    FirstIsEarliest(l.bottom);
    assert AllFrom(l.bottom, start) && start <= e.body.ts;
    hide *;
    p := FilledRung(width, start, l.bottom, e);
    TransferIsDone(l.rungs, l.rungs[n := p], n, l.bottom, e, topStart);
  }

  lemma FilledRung(width: nat, start: nat, bottom: seq<Event>, e: Event) returns (p: Rung)
    requires width > 0 && bottom != [] && AllFrom(bottom, start) && start == Min(bottom[0].body.ts, e.body.ts) <= e.body.ts
    ensures p.width == width && p.start == start && FromBottom(p, bottom, e)
    ensures Poured(p.buckets) == (multiset{} + multiset(bottom)) + multiset{e}
  {
    var r := Rung(Empties(MAX_BUCKET_CNT), width, 0, start, start);
    PouredEmpty(r.buckets);
    AlignedAt(r, 0);
    assert RungOk(r);
    PutAllPours(r, bottom);
    hide RungOk, Poured;
    PutKeepsOk(PutAll(r, bottom), e);
    p := Put(PutAll(r, bottom), e);
    hide PutAll, Put;
    TransferredRung(r, bottom, e, p);
  }

  ghost predicate Within(l: Ladder, topStart: nat) {
    forall x :: x in Held(l.rungs) + multiset(l.bottom) ==> x.body.ts <= topStart
  }

  lemma AstrayIsHeld(l: Ladder, i: nat, x: Event)
    requires i < |l.rungs| && Astray(l, i, x)
    ensures x in Held(l.rungs) + multiset(l.bottom)
  {
    hide Poured, Held;
    if x !in multiset(l.bottom) {
      var j: nat :| j < |l.rungs| && x in Poured(l.rungs[j].buckets);
      PartOfHeld(l.rungs, j, x);
    }
  }

  lemma {:induction false} PartOfHeld(rungs: seq<Rung>, i: nat, x: Event)
    requires i < |rungs| && x in Poured(rungs[i].buckets)
    ensures x in Held(rungs)
  {
    hide Poured;
    if i > 0 {
      PartOfHeld(rungs[1..], i - 1, x);
    }
  }

  /** In an ordered queue every event that may come keeps the order if and only if the rungs separate. */
  lemma InsertionsKeepOrderExactlyIfSeparated(l: Ladder, topStart: nat)
    requires RungsOk(l.rungs, l.nRung) && WeaklySorted(l.bottom) && Within(l, topStart) && Ordered(l)
    ensures Separated(l) <==> forall e: Event, now :: e.body.ts <= topStart && InsertedNear(l, now, e, topStart) ==> Ordered(now)
  {
    hide RungsOk, Held, Poured, Chosen, Fits, InOrder, Astray, WeaklySorted, IsLater;
    if Separated(l) {
      forall e: Event, now | e.body.ts <= topStart && InsertedNear(l, now, e, topStart)
        ensures Ordered(now)
      {
        SeparatedFits(l, e);
      }
    } else {
      RungsHave(l.rungs, l.nRung);
      var i, x := SomeAstray(l);
      AstrayDoesNotFit(l, i, x);
      AstrayIsHeld(l, i, x);
      var now := Inserts(l, x, topStart);
      assert InsertedNear(l, now, x, topStart) && !Ordered(now);
    }
  }

  /** Insertions keep the separation. */
  lemma InsertKeepsSeparation(was: Ladder, now: Ladder, e: Event, topStart: nat)
    requires RungsOk(was.rungs, was.nRung) && WeaklySorted(was.bottom) && Separated(was) && InsertedNear(was, now, e, topStart)
    ensures Separated(now)
  {
    var r := Chosen(was.rungs, was.nRung, e.body.ts);
    if r < was.nRung {
      RungHas(was.rungs, was.nRung, r);
      PutKeepsOk(was.rungs[r], e);
      PutKeepsFrame(was.rungs[r], e);
      assert SameFrame(now.rungs[r], was.rungs[r]);
      hide *;
      RungGains(was, now, r, e);
    } else if |was.bottom| < THRESHOLD || was.nRung == MAX_RUNG_CNT {
      InsertKeepsOrder(was.bottom, e);
      hide *;
      BottomGains(was, now, e);
    } else {
      hide *;
      NewRungGains(was, now, e, topStart);
    }
  }

  lemma RungGains(was: Ladder, now: Ladder, r: nat, e: Event)
    requires Separated(was) && r < was.nRung && |now.rungs| == |was.rungs| && now == was.(rungs := was.rungs[r := now.rungs[r]])
    requires SameFrame(now.rungs[r], was.rungs[r]) && now.rungs[r].current <= e.body.ts
    requires forall i :: 0 <= i < r ==> e.body.ts < was.rungs[i].current
    requires Poured(now.rungs[r].buckets) == Poured(was.rungs[r].buckets) + multiset{e}
    ensures Separated(now)
  {
    hide ApartAt, Poured;
    forall i | 0 <= i < now.nRung
      ensures ApartAt(now, i)
    {
      assert ApartAt(was, i);
      RungTakes(was, now, r, e, i);
    }
  }

  lemma BottomGains(was: Ladder, now: Ladder, e: Event)
    requires Separated(was) && now == was.(bottom := now.bottom) && multiset(now.bottom) == multiset(was.bottom) + multiset{e}
    requires forall i :: 0 <= i < was.nRung ==> e.body.ts < was.rungs[i].current
    ensures Separated(now)
  {
    hide ApartAt;
    forall i | 0 <= i < now.nRung
      ensures ApartAt(now, i)
    {
      assert ApartAt(was, i);
      BottomTakes(was, now, e, i);
    }
  }

  lemma NewRungGains(was: Ladder, now: Ladder, e: Event, topStart: nat)
    requires Separated(was) && WeaklySorted(was.bottom) && now.nRung == was.nRung + 1 && now.bottom == []
    requires Transferred(was.rungs, now.rungs, was.nRung, was.bottom, e, topStart)
    requires forall i :: 0 <= i < was.nRung ==> e.body.ts < was.rungs[i].current
    ensures Separated(now)
  {
    NewRungIsApart(was, now, e, topStart);
    hide ApartAt, WeaklySorted, FromBottom, Poured;
    forall i | 0 <= i < was.nRung
      ensures ApartAt(now, i)
    {
      assert ApartAt(was, i);
      NewRungTakes(was, now, e, i);
    }
  }

  lemma RungTakes(was: Ladder, now: Ladder, r: nat, e: Event, i: nat)
    requires i < was.nRung == now.nRung <= |was.rungs| == |now.rungs| && r < |was.rungs| && was.bottom == now.bottom
    requires now.rungs == was.rungs[r := now.rungs[r]] && now.rungs[r].current == was.rungs[r].current <= e.body.ts
    requires Poured(now.rungs[r].buckets) == Poured(was.rungs[r].buckets) + multiset{e}
    requires ApartAt(was, i) && (i < r ==> e.body.ts < was.rungs[i].current)
    ensures ApartAt(now, i)
  {
    hide Poured;
    forall x | IsLater(now, i, x)
      ensures x.body.ts < now.rungs[i].current
    {
      if x !in multiset(now.bottom) {
        var j :| i < j < now.nRung && j < |now.rungs| && x in Poured(now.rungs[j].buckets);
        assert (x == e && j == r) || x in Poured(was.rungs[j].buckets);
        assert (x == e && j == r) || IsLater(was, i, x);
      } else {
        assert IsLater(was, i, x);
      }
    }
  }

  lemma BottomTakes(was: Ladder, now: Ladder, e: Event, i: nat)
    requires i < was.nRung <= |was.rungs| && now == was.(bottom := now.bottom)
    requires multiset(now.bottom) == multiset(was.bottom) + multiset{e}
    requires ApartAt(was, i) && e.body.ts < was.rungs[i].current
    ensures ApartAt(now, i)
  {
    hide Poured;
    forall x | IsLater(now, i, x)
      ensures x.body.ts < now.rungs[i].current
    {
      assert x == e || IsLater(was, i, x);
    }
  }

  lemma NewRungTakes(was: Ladder, now: Ladder, e: Event, i: nat)
    requires i < was.nRung && now.nRung == was.nRung + 1 <= |was.rungs| == |now.rungs| && now.bottom == []
    requires forall k :: 0 <= k < was.nRung ==> now.rungs[k] == was.rungs[k]
    requires Poured(now.rungs[was.nRung].buckets) == multiset(was.bottom) + multiset{e}
    requires ApartAt(was, i) && e.body.ts < was.rungs[i].current
    ensures ApartAt(now, i)
  {
    hide Poured;
    forall x | IsLater(now, i, x)
      ensures x.body.ts < now.rungs[i].current
    {
      var j :| i < j < now.nRung && j < |now.rungs| && x in Poured(now.rungs[j].buckets);
      if j < was.nRung {
        assert x in Poured(was.rungs[j].buckets);
      }
      assert x == e || IsLater(was, i, x);
    }
  }

  lemma NewRungIsApart(was: Ladder, now: Ladder, e: Event, topStart: nat)
    requires WeaklySorted(was.bottom) && now.nRung == was.nRung + 1 && now.bottom == []
    requires Transferred(was.rungs, now.rungs, was.nRung, was.bottom, e, topStart)
    ensures ApartAt(now, was.nRung)
  {
    FirstIsEarliest(was.bottom);
    hide Poured, WeaklySorted, Before;
    forall x | x in Poured(now.rungs[was.nRung].buckets)
      ensures x.body.ts >= now.rungs[was.nRung].current
    {
      assert x == e || x in was.bottom;
    }
  }

  // ------------------------------------------------------------------------------------------
  // Erase
  // ------------------------------------------------------------------------------------------

  ghost function All(l: Ladder): multiset<Event> {
    Held(l.rungs) + multiset(l.bottom)
  }

  /** An event that is where its time belongs is found there. */
  lemma ErasesApart(l: Ladder, now: Ladder, e: Event, outcome: Erasure)
    requires RungsOk(l.rungs, l.nRung) && Separated(l) && ErasedNear(l, now, e, outcome) && e in All(l)
    ensures outcome == Erased(true) && All(now)[e] < All(l)[e]
  {
    hide Chosen, Poured, Held, Slot, Removed, RungOk;
    if e in Held(l.rungs) {
      var i := RungOf(l.rungs, e);
      PouredHas(l.rungs[i].buckets, e);
      var j: nat :| j < |l.rungs[i].buckets| && e in l.rungs[i].buckets[j];
      assert i < l.nRung && ApartAt(l, i);
      RungHas(l.rungs, l.nRung, i);
      BelowEarlier(l, i, e);
      ChosenIsFirst(l.rungs, l.nRung, e.body.ts, i);
      BucketIsSlot(l.rungs[i], j, e);
      RemovedIsOk(l.rungs, l.nRung, i, now.rungs[i], e);
      assert Held(l.rungs)[e] == (Held(now.rungs) + multiset{e})[e];
    } else {
      forall i | 0 <= i < l.nRung
        ensures e.body.ts < l.rungs[i].current
      {
        assert ApartAt(l, i) && IsLater(l, i, e);
      }
      ChosenIsFirst(l.rungs, l.nRung, e.body.ts, l.nRung);
      assert l.bottom != [] && e !in now.bottom;
    }
  }

  lemma BelowEarlier(l: Ladder, i: nat, e: Event)
    requires Separated(l) && i < l.nRung && e in Poured(l.rungs[i].buckets)
    ensures l.rungs[i].current <= e.body.ts && forall k :: 0 <= k < i ==> e.body.ts < l.rungs[k].current
  {
    hide Poured;
    assert ApartAt(l, i);
    forall k | 0 <= k < i
      ensures e.body.ts < l.rungs[k].current
    {
      assert ApartAt(l, k) && IsLater(l, k, e);
    }
  }

  lemma BucketIsSlot(r: Rung, j: nat, e: Event)
    requires RungOk(r) && j < |r.buckets| && e in r.buckets[j]
    ensures e.body.ts >= r.start && Slot(r, e.body.ts) == j
  {
    hide Slot;
    assert InSlot(r, j, e);
  }

  lemma NotInOther(l: Ladder, i: nat, x: Event, r: nat)
    requires Ordered(l) && i < l.nRung && Astray(l, i, x) && r < l.nRung && l.rungs[r].current <= x.body.ts
    requires forall k :: 0 <= k < r ==> x.body.ts < l.rungs[k].current
    ensures x !in Poured(l.rungs[r].buckets)
  {
    hide Poured;
    if x.body.ts < l.rungs[i].current {
      assert r != i;
    } else if x !in multiset(l.bottom) {
      var j :| i < j < l.nRung && j < |l.rungs| && x in Poured(l.rungs[j].buckets);
      assert r < j;
    }
  }

  lemma BottomIsEarlier(l: Ladder, i: nat, x: Event)
    requires Ordered(l) && i < l.nRung && x in Poured(l.rungs[i].buckets)
    ensures forall y :: y in l.bottom ==> y.body.ts < x.body.ts
  {
    hide Poured;
    assert forall y | y in l.bottom :: y in multiset(l.bottom);
  }

  lemma {:induction false} NoneErased(q: seq<Event>, x: Event)
    requires forall y :: y in q ==> !SameKey(y, x)
    ensures Erase(q, x) == q
  {
    if q != [] {
      assert q[0] in q && forall y :: y in q[1..] ==> y in q;
      NoneErased(q[1..], x);
    }
  }

  /** One that is astray is not found. */
  lemma AstrayIsNotErased(l: Ladder, i: nat, x: Event) returns (now: Ladder, outcome: Erasure)
    requires RungsOk(l.rungs, l.nRung) && Ordered(l) && i < l.nRung && Astray(l, i, x)
    ensures ErasedNear(l, now, x, outcome) && All(now) == All(l)
  {
    RungsHave(l.rungs, l.nRung);
    var r := Chosen(l.rungs, l.nRung, x.body.ts);
    if r < l.nRung {
      hide *;
      RungHas(l.rungs, l.nRung, r);
      NotInOther(l, i, x, r);
      NotInBucket(l.rungs[r], x);
      now, outcome := l, EraseFailed;
      ErasedAtRung(l, r, l.rungs[r], x, outcome);
      assert l.rungs[r := l.rungs[r]] == l.rungs;
    } else {
      hide RungsOk, Chosen, Poured, Held, RungOk, Removed, InOrder, ErasedNear;
      BottomIsEarlier(l, i, x);
      NoneErased(l.bottom, x);
      now, outcome := l, if l.bottom == [] then EraseFailed else Erased(true);
      ErasedBelowRungs(l, now, x, outcome);
    }
  }

  lemma NotInBucket(r: Rung, x: Event)
    requires RungOk(r) && r.current <= x.body.ts && x !in Poured(r.buckets)
    ensures FromBucket(r, r, x, EraseFailed)
  {
    PouredHas(r.buckets, x);
    hide Poured, Slot;
    var j := Slot(r, x.body.ts);
    assert x !in r.buckets[j];
  }

  /** In an ordered queue erase() finds every event if and only if the rungs separate. */
  lemma ErasuresSucceedExactlyIfSeparated(l: Ladder)
    requires RungsOk(l.rungs, l.nRung) && Ordered(l)
    ensures Separated(l) <==> forall e, now, outcome :: e in All(l) && ErasedNear(l, now, e, outcome) ==>
                                outcome == Erased(true) && All(now)[e] < All(l)[e]
  {
    hide RungsOk, Chosen, InOrder, Astray, IsLater, ErasedNear, All;
    if Separated(l) {
      forall e, now, outcome | e in All(l) && ErasedNear(l, now, e, outcome)
        ensures outcome == Erased(true) && All(now)[e] < All(l)[e]
      {
        ErasesApart(l, now, e, outcome);
      }
    } else {
      RungsHave(l.rungs, l.nRung);
      var i, x := SomeAstray(l);
      AstrayIsInAll(l, i, x);
      var now, outcome := AstrayIsNotErased(l, i, x);
      assert ErasedNear(l, now, x, outcome);
    }
  }

  lemma AstrayIsInAll(l: Ladder, i: nat, x: Event)
    requires i < |l.rungs| && Astray(l, i, x)
    ensures x in All(l)
  {
    AstrayIsHeld(l, i, x);
  }

  /** What comes after a rung only becomes less. */
  lemma FewerAreLater(a: Ladder, b: Ladder, i: nat)
    requires i < |a.rungs| && i < |b.rungs| && b.rungs[i].current == a.rungs[i].current
    requires Poured(b.rungs[i].buckets) <= Poured(a.rungs[i].buckets) && forall x :: IsLater(b, i, x) ==> IsLater(a, i, x)
    ensures ApartAt(a, i) ==> ApartAt(b, i)
  {
    hide Poured, IsLater;
    assert forall x | x in Poured(b.rungs[i].buckets) :: x in Poured(a.rungs[i].buckets);
  }

  /** An erasure keeps the separation, unless a rung becomes empty whose start is not after all that
      comes later. */
  lemma EraseKeepsSeparation(was: Ladder, now: Ladder, e: Event, outcome: Erasure)
    requires RungsOk(was.rungs, was.nRung) && Separated(was) && ErasedNear(was, now, e, outcome)
    ensures var r := Chosen(was.rungs, was.nRung, e.body.ts);
            if r < was.nRung && outcome == Erased(true) && AllEmpty(now.rungs[r].buckets) then
              Separated(now) <==> forall x :: IsLater(was, r, x) ==> x.body.ts < was.rungs[r].start
            else Separated(now)
  {
    var r := Chosen(was.rungs, was.nRung, e.body.ts);
    if r < was.nRung && outcome == Erased(true) {
      RemovedPours(was.rungs[r], now.rungs[r], e);
      assert now.rungs[r].current == if AllEmpty(now.rungs[r].buckets) then was.rungs[r].start else was.rungs[r].current;
      hide *;
      RungErased(was, now, r);
    } else if r >= was.nRung {
      hide *;
      BottomErased(was, now, e);
    } else {
      assert now.rungs == was.rungs;
    }
  }

  lemma RungErased(was: Ladder, now: Ladder, r: nat)
    requires Separated(was) && r < was.nRung && now.rungs != [] && |now.rungs| == |was.rungs|
    requires now == was.(rungs := was.rungs[r := now.rungs[r]]) && Poured(now.rungs[r].buckets) <= Poured(was.rungs[r].buckets)
    requires now.rungs[r].current == if AllEmpty(now.rungs[r].buckets) then was.rungs[r].start else was.rungs[r].current
    ensures if AllEmpty(now.rungs[r].buckets) then
              Separated(now) <==> forall x :: IsLater(was, r, x) ==> x.body.ts < was.rungs[r].start
            else Separated(now)
  {
    hide Poured, ApartAt, IsLater, AllEmpty;
    forall i | 0 <= i < was.nRung
      ensures i != r || !AllEmpty(now.rungs[r].buckets) ==> ApartAt(now, i)
    {
      assert ApartAt(was, i);
      RungLoses(was, now, r, i);
    }
    if AllEmpty(now.rungs[r].buckets) {
      EmptiedIsApart(was, now, r);
    }
  }

  lemma BottomErased(was: Ladder, now: Ladder, e: Event)
    requires Separated(was) && now == was.(bottom := Erase(was.bottom, e))
    ensures Separated(now)
  {
    EraseLoses(was.bottom, e);
    hide Erase, ApartAt;
    forall i | 0 <= i < was.nRung
      ensures ApartAt(now, i)
    {
      assert ApartAt(was, i);
      BottomLoses(was, now, i);
    }
  }

  lemma RungLoses(was: Ladder, now: Ladder, r: nat, i: nat)
    requires i < was.nRung <= |was.rungs| == |now.rungs| && r < |was.rungs|
    requires now == was.(rungs := was.rungs[r := now.rungs[r]]) && Poured(now.rungs[r].buckets) <= Poured(was.rungs[r].buckets)
    ensures i != r || now.rungs[r].current == was.rungs[r].current ==> ApartAt(was, i) ==> ApartAt(now, i)
  {
    hide Poured, ApartAt;
    forall x | IsLater(now, i, x)
      ensures IsLater(was, i, x)
    {
      if x !in multiset(now.bottom) {
        var j :| i < j < now.nRung && j < |now.rungs| && x in Poured(now.rungs[j].buckets);
        assert x in Poured(was.rungs[j].buckets);
      }
    }
    if i != r || now.rungs[r].current == was.rungs[r].current {
      FewerAreLater(was, now, i);
    }
  }

  lemma EmptiedIsApart(was: Ladder, now: Ladder, r: nat)
    requires r < was.nRung <= |was.rungs| == |now.rungs| && now == was.(rungs := was.rungs[r := now.rungs[r]])
    requires AllEmpty(now.rungs[r].buckets)
    ensures ApartAt(now, r) <==> forall x :: IsLater(was, r, x) ==> x.body.ts < now.rungs[r].current
  {
    PouredEmpty(now.rungs[r].buckets);
    hide Poured, AllEmpty;
    forall x
      ensures IsLater(now, r, x) <==> IsLater(was, r, x)
    {
      forall j | r < j < was.nRung
        ensures now.rungs[j] == was.rungs[j]
      {
      }
    }
  }

  lemma BottomLoses(was: Ladder, now: Ladder, i: nat)
    requires i < was.nRung <= |was.rungs| && now == was.(bottom := now.bottom) && multiset(now.bottom) <= multiset(was.bottom)
    ensures ApartAt(was, i) ==> ApartAt(now, i)
  {
    hide Poured, ApartAt;
    FewerAreLater(was, now, i);
  }

  // ------------------------------------------------------------------------------------------
  // Begin
  // ------------------------------------------------------------------------------------------

  /** x comes before the end of its bucket, if that is not the last one of the rung. */
  lemma BeforeNextBucket(r: Rung, j: nat, k: nat, x: Event)
    requires Placed(r) && j < k < |r.buckets| && x in r.buckets[j]
    ensures x.body.ts < BucketStart(r, k)
  {
    assert InSlot(r, j, x);
    var d := x.body.ts - r.start;
    assert d / r.width == j;
    assert (j + 1) * r.width == j * r.width + r.width;
    Larger(k, j + 1, r.width);
  }

  /** Nothing in a rung is before its first bucket with events. */
  lemma NoneBeforeFirst(r: Rung, j: nat)
    requires Placed(r) && FirstNonempty(r.buckets, j)
    ensures forall x :: x in Poured(r.buckets) ==> x.body.ts >= BucketStart(r, j)
  {
    forall x | x in Poured(r.buckets)
      ensures x.body.ts >= BucketStart(r, j)
    {
      PouredHas(r.buckets, x);
      var k: nat :| k < |r.buckets| && x in r.buckets[k];
      BucketStartsEarly(r, k);
      Larger(k, j, r.width);
    }
  }

  /** What a rung that has lost a bucket is to that bucket: apart if it has events left, and else its
      start is not after them. */
  lemma LostBucketIsApart(was: Rung, now: Rung, j: nat)
    requires RungOk(was) && LostBucket(was, now, j)
    ensures if AllEmpty(now.buckets) then forall x :: x in was.buckets[j] ==> x.body.ts >= now.current
            else && (forall x :: x in was.buckets[j] ==> x.body.ts < now.current)
                 && forall x :: x in Poured(now.buckets) ==> x.body.ts >= now.current
  {
    if AllEmpty(now.buckets) {
      forall x | x in was.buckets[j]
        ensures x.body.ts >= now.current
      {
        assert InSlot(was, j, x);
      }
    } else {
      var k: nat :| FirstNonempty(now.buckets, k) && now.current == BucketStart(now, k);
      assert k > j;
      NoneBeforeFirst(now, k);
      forall x | x in was.buckets[j]
        ensures x.body.ts < now.current
      {
        BeforeNextBucket(was, j, k, x);
      }
    }
  }

  /** All that comes after an empty rung is at or after its current start. */
  ghost predicate PassedAt(l: Ladder, i: nat)
    requires i < |l.rungs|
  {
    forall x :: IsLater(l, i, x) ==> x.body.ts >= l.rungs[i].current
  }

  ghost predicate EmptyAt(l: Ladder, i: nat)
    requires i < |l.rungs|
  {
    AllEmpty(l.rungs[i].buckets)
  }

  lemma RungStays(a: Ladder, b: Ladder, i: nat)
    requires i < |a.rungs| && i < |b.rungs| && b.rungs[i] == a.rungs[i] && forall x :: IsLater(b, i, x) ==> IsLater(a, i, x)
    ensures (ApartAt(a, i) ==> ApartAt(b, i)) && (PassedAt(a, i) ==> PassedAt(b, i)) && (EmptyAt(a, i) <==> EmptyAt(b, i))
  {
    hide Poured, IsLater, AllEmpty;
  }

  /** Dividing a bucket moves nothing to later rungs, as the others see it. */
  lemma DividedIsNotLater(a: Ladder, b: Ladder, j: nat, i: nat)
    requires DividesLast(a, b, j) && RungOk(a.rungs[a.nRung - 1]) && SameBut(a, b, a.nRung - 1) && b.nRung == a.nRung + 1
    requires i < a.nRung - 1
    ensures forall x :: IsLater(b, i, x) ==> IsLater(a, i, x)
  {
    PartsAreParts(a, b, j);
    hide Poured, RungOk, DividesLast, IsLater;
    forall x | IsLater(b, i, x)
      ensures IsLater(a, i, x)
    {
      if x in multiset(b.bottom) {
        LaterInBottom(a, i, x);
      } else {
        var k := LaterWhere(b, i, x);
        LaterThere(a, i, if k < a.nRung then k else a.nRung - 1, x);
      }
    }
  }

  lemma PartsAreParts(a: Ladder, b: Ladder, j: nat)
    requires DividesLast(a, b, j) && RungOk(a.rungs[a.nRung - 1])
    ensures Poured(b.rungs[a.nRung - 1].buckets) <= Poured(a.rungs[a.nRung - 1].buckets)
    ensures Poured(b.rungs[a.nRung].buckets) <= Poured(a.rungs[a.nRung - 1].buckets)
  {
    var r := a.rungs[a.nRung - 1];
    DividedPours(r.buckets[j], BucketStart(r, j), r.width);
    FirstSplitsOff(r, j);
    hide Poured, RungOk, Divided, FirstNonempty, Restarted, BucketStart;
  }

  lemma DividedPours(bucket: seq<Event>, start: nat, width: nat)
    requires bucket != [] && AllFrom(bucket, start)
    ensures var p := Divided(bucket, start, width);
            && Poured(p.buckets) == multiset(bucket) && p.start == p.current == start && |p.buckets| == MAX_BUCKET_CNT
            && RungOk(p) && !AllEmpty(p.buckets)
  {
    var r := Rung(Empties(MAX_BUCKET_CNT), RungWidth(width, |bucket|), 0, start, start);
    PouredEmpty(r.buckets);
    AlignedAt(r, 0);
    assert RungOk(r);
    PutAllPours(r, bucket);
    GainedSome(PutAll(r, bucket).buckets, multiset{}, bucket);
    assert multiset{} + multiset(bucket) == multiset(bucket);
    hide RungOk, Poured, AllEmpty;
  }

  /** The last rung has events and nothing comes after it. */
  ghost predicate LastHasEvents(l: Ladder) {
    0 < l.nRung <= |l.rungs| && l.bottom == [] && RungOk(l.rungs[l.nRung - 1]) && !EmptyAt(l, l.nRung - 1)
  }

  /** The divided rung and its part. */
  lemma DividingMakes(a: Ladder, b: Ladder, j: nat)
    requires LastHasEvents(a) && DividesLast(a, b, j) && b.nRung == a.nRung + 1 && b.bottom == []
    ensures LastHasEvents(b) && ApartAt(b, a.nRung)
    ensures if EmptyAt(b, a.nRung - 1) then PassedAt(b, a.nRung - 1) && !ApartAt(b, a.nRung - 1) else ApartAt(b, a.nRung - 1)
  {
    var n, r := a.nRung, a.rungs[a.nRung - 1];
    LostBucketIsApart(r, b.rungs[n - 1], j);
    DividedPours(r.buckets[j], BucketStart(r, j), r.width);
    hide Poured, RungOk, Divided, Restarted, AllEmpty, BucketStart;
    var list := r.buckets[j];
    forall x
      ensures IsLater(b, n - 1, x) <==> x in list
      ensures !IsLater(b, n, x)
    {
      assert x in list <==> x in Poured(b.rungs[n].buckets);
    }
    assert IsLater(b, n - 1, list[0]);
  }

  /** Each rung in use is apart or, if it is empty, passed. */
  ghost predicate ApartOrPassed(l: Ladder) {
    l.nRung <= |l.rungs| && forall i :: 0 <= i < l.nRung ==> if EmptyAt(l, i) then PassedAt(l, i) else ApartAt(l, i)
  }

  ghost predicate AllOk(l: Ladder) {
    l.nRung <= |l.rungs| && l.bottom == [] && forall i :: 0 <= i < l.nRung ==> RungOk(l.rungs[i])
  }

  lemma ClosingKeeps(a: Ladder, b: Ladder)
    requires 0 < a.nRung <= |a.rungs| && b.nRung == a.nRung - 1 && SameBut(a, b, a.nRung - 1)
    ensures Separated(a) ==> Separated(b)
  {
    hide Poured, ApartAt, PassedAt, EmptyAt;
    forall i | 0 <= i < b.nRung
      ensures ApartAt(a, i) ==> ApartAt(b, i)
    {
      NoneIsLater(a, b, i);
      RungStays(a, b, i);
    }
  }

  lemma NoneIsLater(a: Ladder, b: Ladder, i: nat)
    requires 0 < a.nRung <= |a.rungs| && b.nRung == a.nRung - 1 && SameBut(a, b, a.nRung - 1) && i < b.nRung
    ensures forall x :: IsLater(b, i, x) ==> IsLater(a, i, x)
  {
    hide Poured;
    forall x | IsLater(b, i, x)
      ensures IsLater(a, i, x)
    {
      if x !in multiset(b.bottom) {
        var j :| i < j < b.nRung && j < |b.rungs| && x in Poured(b.rungs[j].buckets);
        assert x in Poured(a.rungs[j].buckets);
      }
    }
  }

  lemma DividingKeeps(a: Ladder, b: Ladder, j: nat)
    requires LastHasEvents(a) && DividesLast(a, b, j) && b.nRung == a.nRung + 1 && SameBut(a, b, a.nRung - 1)
    ensures LastHasEvents(b) && (ApartOrPassed(a) ==> ApartOrPassed(b))
    ensures Separated(a) ==> (Separated(b) <==> !EmptyAt(b, a.nRung - 1))
  {
    DividingMakes(a, b, j);
    assert !EmptyAt(b, a.nRung);
    hide *;
    forall i | 0 <= i < a.nRung - 1
      ensures Stays(a, b, i)
    {
      OthersStay(a, b, j, i);
    }
    OneMoreRung(a, b);
  }

  ghost predicate Stays(a: Ladder, b: Ladder, i: nat)
    requires i < |a.rungs| && i < |b.rungs|
  {
    && (ApartAt(a, i) ==> ApartAt(b, i)) && (PassedAt(a, i) ==> PassedAt(b, i)) && (EmptyAt(a, i) <==> EmptyAt(b, i))
  }

  /** The first m rungs stay, and one more at the end is apart. */
  lemma StaysSeparated(a: Ladder, b: Ladder, m: nat)
    requires m <= a.nRung <= |a.rungs| && m <= b.nRung <= m + 1 && b.nRung <= |b.rungs|
    requires forall i :: 0 <= i < m ==> Stays(a, b, i)
    requires b.nRung == m + 1 ==> ApartAt(b, m) && !EmptyAt(b, m)
    ensures (Separated(a) ==> Separated(b)) && (ApartOrPassed(a) ==> ApartOrPassed(b))
  {
    hide ApartAt, PassedAt, EmptyAt;
    forall i | 0 <= i < m
      ensures ApartAt(a, i) ==> ApartAt(b, i)
      ensures (if EmptyAt(a, i) then PassedAt(a, i) else ApartAt(a, i)) ==> if EmptyAt(b, i) then PassedAt(b, i) else ApartAt(b, i)
    {
      assert Stays(a, b, i);
    }
  }

  lemma OneMoreRung(a: Ladder, b: Ladder)
    requires 0 < a.nRung < |a.rungs| == |b.rungs| && b.nRung == a.nRung + 1 && forall i :: 0 <= i < a.nRung - 1 ==> Stays(a, b, i)
    requires ApartAt(b, a.nRung) && !EmptyAt(b, a.nRung)
    requires if EmptyAt(b, a.nRung - 1) then PassedAt(b, a.nRung - 1) && !ApartAt(b, a.nRung - 1) else ApartAt(b, a.nRung - 1)
    ensures ApartOrPassed(a) ==> ApartOrPassed(b)
    ensures Separated(a) ==> (Separated(b) <==> !EmptyAt(b, a.nRung - 1))
  {
    hide ApartAt, PassedAt, EmptyAt;
    if Separated(b) {
      assert ApartAt(b, a.nRung - 1);
    }
    forall i | 0 <= i < a.nRung - 1
      ensures ApartAt(a, i) ==> ApartAt(b, i)
      ensures (if EmptyAt(a, i) then PassedAt(a, i) else ApartAt(a, i)) ==> if EmptyAt(b, i) then PassedAt(b, i) else ApartAt(b, i)
    {
      assert Stays(a, b, i);
    }
  }

  lemma OthersStay(a: Ladder, b: Ladder, j: nat, i: nat)
    requires LastHasEvents(a) && DividesLast(a, b, j) && b.nRung == a.nRung + 1 && SameBut(a, b, a.nRung - 1) && i < a.nRung - 1
    ensures Stays(a, b, i)
  {
    hide ApartAt, PassedAt, EmptyAt, IsLater, DividesLast, RungOk;
    DividedIsNotLater(a, b, j, i);
    RungStays(a, b, i);
  }

  /** A turn divides the last bucket with events of its rung, which stays in use without any. */
  ghost predicate TakesLastBucket(a: Ladder, b: Ladder)
    requires 0 < a.nRung <= |a.rungs| && a.nRung <= |b.rungs|
  {
    !EmptyAt(a, a.nRung - 1) && EmptyAt(b, a.nRung - 1)
  }

  /** One turn of the loop of recurseRung keeps the separation if and only if it does not do that. */
  lemma TurnKeepsSeparationExactly(a: Ladder, b: Ladder)
    requires AllOk(a) && Separated(a) && Turn(a, b)
    ensures AllOk(b) && (Separated(b) <==> !TakesLastBucket(a, b))
  {
    if EmptyAt(a, a.nRung - 1) {
      ClosingKeeps(a, b);
      hide RungOk;
    } else {
      var j :| DividesLast(a, b, j);
      DividingIsOk(a, b, j);
      hide RungOk, AllEmpty, Separated, DividesLast, EmptyAt;
      DividingKeeps(a, b, j);
    }
  }

  lemma DividingIsOk(a: Ladder, b: Ladder, j: nat)
    requires AllOk(a) && DividesLast(a, b, j) && b.nRung == a.nRung + 1 && SameBut(a, b, a.nRung - 1)
    ensures AllOk(b)
  {
    var r := a.rungs[a.nRung - 1];
    DividedPours(r.buckets[j], BucketStart(r, j), r.width);
    hide RungOk, AllEmpty, Poured, Divided, Restarted, BucketStart, AllFrom, FirstNonempty;
  }

  /** What the probe and the transfer to bottom make of it. */
  lemma ProbeKeeps(a: Ladder, b: Ladder, j: nat)
    requires a.nRung <= |a.rungs| && a.bottom == [] && a.nRung > 0 && RungOk(a.rungs[a.nRung - 1]) && Probed(a, b, j)
    ensures RungOk(b.rungs[a.nRung - 1]) && (Separated(a) ==> Separated(b)) && (ApartOrPassed(a) ==> ApartOrPassed(b))
  {
    var n, r := a.nRung, a.rungs[a.nRung - 1];
    NoneBeforeFirst(r, j);
    AlignedAt(b.rungs[n - 1], j);
    MovedIsOk(r, b.rungs[n - 1].current);
    assert !EmptyAt(a, n - 1) && !EmptyAt(b, n - 1);
    hide Poured, RungOk, AllEmpty, BucketStart, ApartAt, PassedAt, EmptyAt, IsLater, FirstNonempty;
    LastIsApart(b);
    forall i | 0 <= i < n - 1
      ensures Stays(a, b, i)
    {
      ProbeIsNotLater(a, b, i);
      RungStays(a, b, i);
    }
    StaysSeparated(a, b, n - 1);
  }

  lemma ProbeIsNotLater(a: Ladder, b: Ladder, i: nat)
    requires 0 < a.nRung == b.nRung <= |a.rungs| == |b.rungs| && SameBut(a, b, a.nRung - 1)
    requires b.rungs[a.nRung - 1].buckets == a.rungs[a.nRung - 1].buckets
    ensures forall x :: IsLater(b, i, x) ==> IsLater(a, i, x)
  {
    hide Poured, IsLater;
    forall x | IsLater(b, i, x)
      ensures IsLater(a, i, x)
    {
      if x in multiset(b.bottom) {
        LaterInBottom(a, i, x);
      } else {
        var k := LaterWhere(b, i, x);
        LaterThere(a, i, k, x);
      }
    }
  }

  lemma LastIsApart(l: Ladder)
    requires 0 < l.nRung <= |l.rungs| && l.bottom == []
    requires forall x :: x in Poured(l.rungs[l.nRung - 1].buckets) ==> x.body.ts >= l.rungs[l.nRung - 1].current
    ensures ApartAt(l, l.nRung - 1)
  {
    hide Poured;
  }

  lemma DrawingKeeps(a: Ladder, b: Ladder, j: nat, closeMore: bool)
    requires Drawn(a, b, j, closeMore) && RungOk(a.rungs[a.nRung - 1])
    ensures (Separated(a) ==> Separated(b)) && (ApartOrPassed(a) ==> ApartOrPassed(b)) && b.bottom != []
  {
    var n := a.nRung;
    assert |multiset(b.bottom)| == |multiset(a.rungs[n - 1].buckets[j])|;
    if b.nRung == n {
      DrawnIsApart(a, b, j);
    }
    DrawnParts(a, b, j, closeMore);
    OnlyLastIsDrawn(a, b, j, closeMore);
    hide *;
    var m := if b.nRung == n then n - 1 else b.nRung;
    forall i | 0 <= i < m
      ensures Stays(a, b, i)
    {
      PartsAreNotLater(a, b, i);
      RungStays(a, b, i);
      AreStays(a, b, i);
    }
    StaysSeparated(a, b, m);
  }

  lemma OnlyLastIsDrawn(a: Ladder, b: Ladder, j: nat, closeMore: bool)
    requires Drawn(a, b, j, closeMore)
    ensures b.nRung <= a.nRung && forall k :: 0 <= k < b.nRung && k < a.nRung - 1 ==> b.rungs[k] == a.rungs[k]
    ensures b.nRung == a.nRung ==> !EmptyAt(b, a.nRung - 1)
  {
    hide FirstNonempty, AllEmpty;
  }

  lemma AreStays(a: Ladder, b: Ladder, i: nat)
    requires i < |a.rungs| && i < |b.rungs|
    requires (ApartAt(a, i) ==> ApartAt(b, i)) && (PassedAt(a, i) ==> PassedAt(b, i)) && (EmptyAt(a, i) <==> EmptyAt(b, i))
    ensures Stays(a, b, i)
  {
  }

  /** Bottom and the rest of the rung were in it. */
  lemma DrawnParts(a: Ladder, b: Ladder, j: nat, closeMore: bool)
    requires Drawn(a, b, j, closeMore) && RungOk(a.rungs[a.nRung - 1])
    ensures multiset(b.bottom) <= Poured(a.rungs[a.nRung - 1].buckets)
    ensures b.nRung == a.nRung ==> Poured(b.rungs[a.nRung - 1].buckets) <= Poured(a.rungs[a.nRung - 1].buckets)
  {
    FirstSplitsOff(a.rungs[a.nRung - 1], j);
    hide Poured, RungOk, AllEmpty, FirstNonempty, Restarted, Without;
  }

  lemma PartsAreNotLater(a: Ladder, b: Ladder, i: nat)
    requires 0 < a.nRung <= |a.rungs| == |b.rungs| && b.nRung <= a.nRung && i < a.nRung - 1
    requires forall k :: 0 <= k < b.nRung && k < a.nRung - 1 ==> b.rungs[k] == a.rungs[k]
    requires multiset(b.bottom) <= Poured(a.rungs[a.nRung - 1].buckets)
    requires b.nRung == a.nRung ==> Poured(b.rungs[a.nRung - 1].buckets) <= Poured(a.rungs[a.nRung - 1].buckets)
    ensures forall x :: IsLater(b, i, x) ==> IsLater(a, i, x)
  {
    hide Poured, IsLater;
    forall x | IsLater(b, i, x)
      ensures IsLater(a, i, x)
    {
      if x in multiset(b.bottom) {
        LaterThere(a, i, a.nRung - 1, x);
      } else {
        var k := LaterWhere(b, i, x);
        LaterThere(a, i, k, x);
      }
    }
  }

  lemma DrawnIsApart(a: Ladder, b: Ladder, j: nat)
    requires 0 < a.nRung == b.nRung <= |a.rungs| == |b.rungs| && RungOk(a.rungs[a.nRung - 1])
    requires LostBucket(a.rungs[a.nRung - 1], b.rungs[a.nRung - 1], j) && !EmptyAt(b, a.nRung - 1)
    requires multiset(b.bottom) == multiset(a.rungs[a.nRung - 1].buckets[j])
    ensures ApartAt(b, a.nRung - 1)
  {
    LostBucketIsApart(a.rungs[a.nRung - 1], b.rungs[a.nRung - 1], j);
    hide Poured, RungOk, AllEmpty, LostBucket;
  }

  ghost predicate CleanTurn(a: Ladder, b: Ladder) {
    Turn(a, b) && !TakesLastBucket(a, b)
  }

  /** Turns that do not divide a last bucket. */
  ghost predicate CleanTurns(a: Ladder, b: Ladder, d: nat)
    decreases d
  {
    if d == 0 then a == b else exists m :: CleanTurn(a, m) && CleanTurns(m, b, d - 1)
  }

  lemma {:induction false} CleanTurnsKeepSeparation(a: Ladder, b: Ladder, d: nat)
    requires AllOk(a) && Separated(a) && CleanTurns(a, b, d)
    ensures AllOk(b) && Separated(b)
    decreases d
  {
    hide AllOk, Separated, Turn, EmptyAt;
    if d > 0 {
      var m :| CleanTurn(a, m) && CleanTurns(m, b, d - 1);
      TurnKeepsSeparationExactly(a, m);
      CleanTurnsKeepSeparation(m, b, d - 1);
    }
  }

  /** begin() breaks the separation only by dividing the last bucket with events of a rung. */
  lemma BeginKeepsSeparation(a: Ladder, m: Ladder, p: Ladder, b: Ladder, d: nat, j: nat, closeMore: bool)
    requires AllOk(a) && Separated(a) && CleanTurns(a, m, d) && Probed(m, p, j) && Drawn(p, b, j, closeMore)
    ensures Separated(b)
  {
    hide *;
    CleanTurnsKeepSeparation(a, m, d);
    ProbedLast(m, p, j);
    ProbeKeeps(m, p, j);
    DrawingKeeps(p, b, j, closeMore);
  }

  lemma ProbedLast(a: Ladder, b: Ladder, j: nat)
    requires AllOk(a) && Probed(a, b, j)
    ensures 0 < a.nRung == b.nRung <= |a.rungs| == |b.rungs| && a.bottom == [] && RungOk(a.rungs[a.nRung - 1])
  {
  }

  ghost predicate NoneIsEmpty(l: Ladder) {
    l.nRung <= |l.rungs| && forall i :: 0 <= i < l.nRung ==> !EmptyAt(l, i)
  }

  /** The rungs separate, and each rung in use has events. */
  ghost predicate Tidy(l: Ladder) {
    Separated(l) && NoneIsEmpty(l)
  }

  lemma {:induction false} TurnsKeep(a: Ladder, b: Ladder, d: nat)
    requires LastHasEvents(a) && ApartOrPassed(a) && Turns(a, b, d)
    ensures LastHasEvents(b) && ApartOrPassed(b)
    decreases d
  {
    hide LastHasEvents, ApartOrPassed, Turn;
    if d > 0 {
      var m :| Turn(a, m) && Turns(m, b, d - 1);
      OneTurnKeeps(a, m);
      TurnsKeep(m, b, d - 1);
    }
  }

  lemma OneTurnKeeps(a: Ladder, b: Ladder)
    requires LastHasEvents(a) && ApartOrPassed(a) && Turn(a, b)
    ensures LastHasEvents(b) && ApartOrPassed(b)
  {
    var j :| DividesLast(a, b, j);
    hide RungOk, ApartOrPassed, DividesLast, AllEmpty;
    DividingKeeps(a, b, j);
  }

  lemma BeginsKeep(a: Ladder, b: Ladder, closeMore: bool)
    requires LastHasEvents(a) && ApartOrPassed(a) && Begins(a, b, closeMore)
    ensures ApartOrPassed(b) && b.bottom != []
  {
    hide Turns, Probed, Drawn, ApartOrPassed, RungOk, EmptyAt;
    var d, m, p, j :| Turns(a, m, d) && Probed(m, p, j) && Drawn(p, b, j, closeMore);
    TurnsKeep(a, m, d);
    ProbedIsAtLast(m, p, j);
    ProbeKeeps(m, p, j);
    DrawingKeeps(p, b, j, closeMore);
  }

  lemma ProbedIsAtLast(a: Ladder, b: Ladder, j: nat)
    requires Probed(a, b, j)
    ensures a.nRung == b.nRung
  {
  }

  /** With events in bottom, a rung that is passed is not apart. */
  lemma PassedIsNotApart(l: Ladder)
    requires ApartOrPassed(l) && l.bottom != []
    ensures Separated(l) <==> NoneIsEmpty(l)
  {
    hide IsLater, EmptyAt;
    var x := l.bottom[0];
    assert x in multiset(l.bottom);
    forall i | 0 <= i < l.nRung && EmptyAt(l, i)
      ensures !ApartAt(l, i)
    {
      LaterInBottom(l, i, x);
      assert PassedAt(l, i);
    }
  }

  lemma TidyIsReady(l: Ladder)
    requires RungsOk(l.rungs, l.nRung) && Tidy(l) && l.nRung > 0 && l.bottom == []
    ensures LastHasEvents(l) && ApartOrPassed(l)
  {
    RungHas(l.rungs, l.nRung, l.nRung - 1);
    hide RungsOk, RungOk, ApartAt, PassedAt, EmptyAt;
  }

  lemma FirstLadderIsTidy(a: Ladder, top: seq<Event>, minTs: nat, maxTs: nat)
    requires FirstLadder(a, top, minTs, maxTs)
    ensures Tidy(a)
  {
    var r := a.rungs[0];
    RungHas(a.rungs, 1, 0);
    assert top[0] in multiset(top);
    PouredEmpty(r.buckets);
    forall x | x in Poured(r.buckets)
      ensures x.body.ts >= r.start
    {
      PouredHas(r.buckets, x);
      var k: nat :| k < |r.buckets| && x in r.buckets[k];
      assert InSlot(r, k, x);
    }
    hide RungsOk, RungOk, Poured, AllEmpty;
    LastIsApart(a);
  }

  /** From rungs that are tidy, begin() leaves them separated if and only if it leaves none in use empty. */
  lemma BeginKeepsTidyExactly(a: Ladder, top: seq<Event>, minTs: nat, maxTs: nat, b: Ladder)
    requires RungsOk(a.rungs, a.nRung) && Tidy(a) && a.bottom == [] && Goes(a, top, minTs, maxTs, b)
    ensures Separated(b) <==> NoneIsEmpty(b)
  {
    RungsHave(a.rungs, a.nRung);
    hide RungsOk, Held, Tidy, Begins, FirstLadder, Separated, NoneIsEmpty, RungOk, AllEmpty;
    if Held(a.rungs) != multiset{} {
      TidyIsReady(a);
      BeginsKeep(a, b, true);
    } else {
      var f :| FirstLadder(f, top, minTs, maxTs) && Begins(f, b, false);
      FirstIsReady(f, top, minTs, maxTs);
      BeginsKeep(f, b, false);
    }
    PassedIsNotApart(b);
  }

  lemma FirstIsReady(f: Ladder, top: seq<Event>, minTs: nat, maxTs: nat)
    requires FirstLadder(f, top, minTs, maxTs)
    ensures LastHasEvents(f) && ApartOrPassed(f)
  {
    FirstLadderIsTidy(f, top, minTs, maxTs);
    hide Tidy, RungsOk, RungOk, Poured;
    TidyIsReady(f);
  }

  // ------------------------------------------------------------------------------------------
  // Runs
  // ------------------------------------------------------------------------------------------

  /** What one call of insert(), erase() or begin() does to rungs and bottom; nothing if it is about
      top, or if begin() finds something in bottom. */
  ghost predicate Step(a: Ladder, b: Ladder) {
    || b == a
    || (exists e, topStart :: InsertedNear(a, b, e, topStart))
    || (exists e, outcome :: ErasedNear(a, b, e, outcome))
    || (a.bottom == [] && exists top, minTs, maxTs :: Goes(a, top, minTs, maxTs, b))
    || (b.nRung == 0 && b.bottom == [])
  }

  ghost predicate LadderOk(l: Ladder) {
    RungsOk(l.rungs, l.nRung) && WeaklySorted(l.bottom)
  }

  lemma NothingIsSeparated(l: Ladder)
    requires l.nRung == 0
    ensures Separated(l)
  {
  }

  lemma ErasureOfOne(a: Ladder, b: Ladder, e: Event, outcome: Erasure)
    requires LadderOk(a) && Separated(a) && ErasedNear(a, b, e, outcome) && NoneIsEmpty(b)
    ensures Separated(b)
  {
    EraseKeepsSeparation(a, b, e, outcome);
    var r := Chosen(a.rungs, a.nRung, e.body.ts);
    assert r < a.nRung ==> !EmptyAt(b, r);
    hide RungsOk, Chosen, Removed, IsLater, ApartAt, WeaklySorted;
  }

  lemma StepKeepsTidy(a: Ladder, b: Ladder)
    requires LadderOk(a) && Tidy(a) && Step(a, b)
    ensures Separated(b) || !NoneIsEmpty(b)
  {
    hide RungsOk, WeaklySorted, Separated, NoneIsEmpty, InsertedNear, ErasedNear, Goes;
    if e, topStart :| InsertedNear(a, b, e, topStart) {
      InsertKeepsSeparation(a, b, e, topStart);
    } else if e, outcome :| ErasedNear(a, b, e, outcome) {
      if NoneIsEmpty(b) {
        ErasureOfOne(a, b, e, outcome);
      }
    } else if a.bottom == [] && exists top, minTs, maxTs :: Goes(a, top, minTs, maxTs, b) {
      var top, minTs, maxTs :| Goes(a, top, minTs, maxTs, b);
      BeginKeepsTidyExactly(a, top, minTs, maxTs, b);
    } else if b != a {
      NothingIsSeparated(b);
    }
  }

  ghost predicate IsRun(run: seq<Ladder>) {
    && run != [] && run[0].nRung == 0 && (forall i :: 0 <= i < |run| ==> LadderOk(run[i]))
    && forall i :: 0 <= i < |run| - 1 ==> Step(run[i], run[i + 1])
  }

  /** As long as no rung that is in use is empty, the queue is in order: every run of it. */
  lemma {:induction false} RunsWithoutEmptyRungsAreOrdered(run: seq<Ladder>, k: nat)
    requires IsRun(run) && k < |run| && forall i :: 0 <= i <= k ==> NoneIsEmpty(run[i])
    ensures Tidy(run[k]) && Ordered(run[k])
  {
    hide LadderOk, Step, Separated, NoneIsEmpty, InOrder;
    if k == 0 {
      NothingIsSeparated(run[0]);
    } else {
      RunsWithoutEmptyRungsAreOrdered(run, k - 1);
      assert Step(run[k - 1], run[k - 1 + 1]);
      StepKeepsTidy(run[k - 1], run[k]);
    }
    SeparatedIsOrdered(run[k]);
  }

  // ------------------------------------------------------------------------------------------
  // What is taken
  // ------------------------------------------------------------------------------------------

  /** No rung in use has an event before its current start. */
  ghost predicate NoneIsBehind(l: Ladder) {
    l.nRung <= |l.rungs| && forall i :: 0 <= i < l.nRung ==> NoneBehind(l.rungs[i])
  }

  lemma InsertLeavesNoneBehind(was: Ladder, now: Ladder, e: Event, topStart: nat)
    requires LadderOk(was) && NoneIsBehind(was) && InsertedNear(was, now, e, topStart)
    ensures NoneIsBehind(now)
  {
    var r := Chosen(was.rungs, was.nRung, e.body.ts);
    if r < was.nRung {
      RungHas(was.rungs, was.nRung, r);
      assert NoneBehind(was.rungs[r]);
      PutLeavesNoneBehind(was.rungs[r], e);
      hide *;
      OneRungIsChanged(was, now, r);
    } else if !(|was.bottom| < THRESHOLD || was.nRung == MAX_RUNG_CNT) {
      hide *;
      NewRungHasNoneBehind(was, now, e, topStart);
    }
  }

  lemma OneRungIsChanged(was: Ladder, now: Ladder, r: nat)
    requires NoneIsBehind(was) && r < was.nRung && |now.rungs| == |was.rungs|
    requires now == was.(rungs := was.rungs[r := now.rungs[r]]) && NoneBehind(now.rungs[r])
    ensures NoneIsBehind(now)
  {
    hide NoneBehind;
  }

  lemma NewRungHasNoneBehind(was: Ladder, now: Ladder, e: Event, topStart: nat)
    requires NoneIsBehind(was) && WeaklySorted(was.bottom) && now.nRung == was.nRung + 1 && now.bottom == []
    requires Transferred(was.rungs, now.rungs, was.nRung, was.bottom, e, topStart)
    ensures NoneIsBehind(now)
  {
    NewRungIsApart(was, now, e, topStart);
    hide NoneBehind, WeaklySorted, FromBottom, Poured;
  }

  lemma PutLeavesNoneBehind(r: Rung, e: Event)
    requires RungOk(r) && NoneBehind(r) && r.current <= e.body.ts
    ensures NoneBehind(Put(r, e))
  {
    PutKeepsOk(r, e);
    PutKeepsFrame(r, e);
    hide RungOk, Poured, Put;
  }

  lemma EraseLeavesNoneBehind(was: Ladder, now: Ladder, e: Event, outcome: Erasure)
    requires NoneIsBehind(was) && ErasedNear(was, now, e, outcome)
    ensures NoneIsBehind(now)
  {
    var r := Chosen(was.rungs, was.nRung, e.body.ts);
    if r < was.nRung && outcome == Erased(true) {
      assert NoneBehind(was.rungs[r]);
      RemovalLeavesNoneBehind(was.rungs[r], now.rungs[r], e);
    }
    hide Chosen, Removed, NoneBehind, Slot;
  }

  lemma RemovalLeavesNoneBehind(r: Rung, r': Rung, e: Event)
    requires Removed(r, r', e) && e in r.buckets[Slot(r, e.body.ts)] && NoneBehind(r)
    ensures NoneBehind(r')
  {
    RemovedPours(r, r', e);
    PouredEmpty(r'.buckets);
    hide Poured, RungOk, Slot;
    assert forall x | x in Poured(r'.buckets) :: x in Poured(r'.buckets) + multiset{e};
  }

  lemma TurnLeavesNoneBehind(a: Ladder, b: Ladder)
    requires AllOk(a) && NoneIsBehind(a) && Turn(a, b)
    ensures AllOk(b) && NoneIsBehind(b)
  {
    if EmptyAt(a, a.nRung - 1) {
      hide RungOk, NoneBehind;
    } else {
      var j :| DividesLast(a, b, j);
      hide RungOk, NoneBehind, DividesLast, AllEmpty, NoneIsBehind, AllOk;
      DivisionLeavesNoneBehind(a, b, j);
    }
  }

  lemma DivisionLeavesNoneBehind(a: Ladder, b: Ladder, j: nat)
    requires AllOk(a) && NoneIsBehind(a) && DividesLast(a, b, j) && b.nRung == a.nRung + 1 && SameBut(a, b, a.nRung - 1)
    ensures AllOk(b) && NoneIsBehind(b)
  {
    var r := a.rungs[a.nRung - 1];
    DividingIsOk(a, b, j);
    DividedPours(r.buckets[j], BucketStart(r, j), r.width);
    LossLeavesNoneBehind(r, b.rungs[a.nRung - 1], j);
    assert NoneBehind(b.rungs[a.nRung]);
    hide RungOk, NoneBehind, Divides, AllOk;
  }

  lemma LossLeavesNoneBehind(was: Rung, now: Rung, j: nat)
    requires RungOk(was) && LostBucket(was, now, j)
    ensures NoneBehind(now)
  {
    LostBucketIsApart(was, now, j);
    PouredEmpty(now.buckets);
    hide RungOk, LostBucket, Poured;
  }

  lemma {:induction false} TurnsLeaveNoneBehind(a: Ladder, b: Ladder, d: nat)
    requires AllOk(a) && NoneIsBehind(a) && Turns(a, b, d)
    ensures AllOk(b) && NoneIsBehind(b)
    decreases d
  {
    hide AllOk, NoneIsBehind, Turn;
    if d > 0 {
      var m :| Turn(a, m) && Turns(m, b, d - 1);
      TurnLeavesNoneBehind(a, m);
      TurnsLeaveNoneBehind(m, b, d - 1);
    }
  }

  lemma ProbeLeavesNoneBehind(a: Ladder, b: Ladder, j: nat)
    requires AllOk(a) && NoneIsBehind(a) && Probed(a, b, j)
    ensures RungOk(b.rungs[b.nRung - 1]) && NoneIsBehind(b)
  {
    var n, r := a.nRung, a.rungs[a.nRung - 1];
    NoneBeforeFirst(r, j);
    AlignedAt(b.rungs[n - 1], j);
    MovedIsOk(r, b.rungs[n - 1].current);
    assert NoneBehind(b.rungs[n - 1]);
    hide RungOk, NoneBehind, BucketStart, FirstNonempty;
  }

  lemma DrawingLeavesNoneBehind(a: Ladder, b: Ladder, j: nat, closeMore: bool)
    requires Drawn(a, b, j, closeMore) && RungOk(a.rungs[a.nRung - 1]) && NoneIsBehind(a)
    ensures NoneIsBehind(b)
  {
    if b.nRung == a.nRung {
      LossLeavesNoneBehind(a.rungs[a.nRung - 1], b.rungs[a.nRung - 1], j);
    }
    hide RungOk, NoneBehind, FirstNonempty, LostBucket, AllEmpty;
  }

  lemma BeginLeavesNoneBehind(a: Ladder, b: Ladder, closeMore: bool)
    requires AllOk(a) && NoneIsBehind(a) && Begins(a, b, closeMore)
    ensures NoneIsBehind(b)
  {
    hide Turns, Probed, Drawn, AllOk, NoneIsBehind, RungOk;
    var d, m, p, j :| Turns(a, m, d) && Probed(m, p, j) && Drawn(p, b, j, closeMore);
    TurnsLeaveNoneBehind(a, m, d);
    ProbeLeavesNoneBehind(m, p, j);
    DrawingLeavesNoneBehind(p, b, j, closeMore);
  }

  lemma GoesLeavesNoneBehind(a: Ladder, top: seq<Event>, minTs: nat, maxTs: nat, b: Ladder)
    requires LadderOk(a) && NoneIsBehind(a) && a.bottom == [] && Goes(a, top, minTs, maxTs, b)
    ensures NoneIsBehind(b)
  {
    assert AllOk(a) by {
      hide RungOk;
    }
    hide RungsOk, Held, Begins, FirstLadder, RungOk, AllOk, NoneIsBehind, WeaklySorted;
    if Held(a.rungs) != multiset{} {
      BeginLeavesNoneBehind(a, b, true);
    } else {
      var f :| FirstLadder(f, top, minTs, maxTs) && Begins(f, b, false);
      FirstHasNoneBehind(f, top, minTs, maxTs);
      BeginLeavesNoneBehind(f, b, false);
    }
  }

  lemma FirstHasNoneBehind(f: Ladder, top: seq<Event>, minTs: nat, maxTs: nat)
    requires FirstLadder(f, top, minTs, maxTs)
    ensures AllOk(f) && NoneIsBehind(f)
  {
    FirstLadderIsTidy(f, top, minTs, maxTs);
    RungHas(f.rungs, 1, 0);
    assert ApartAt(f, 0);
    hide RungsOk, RungOk, NoneBehind;
  }

  lemma StepLeavesNoneBehind(a: Ladder, b: Ladder)
    requires LadderOk(a) && NoneIsBehind(a) && Step(a, b)
    ensures NoneIsBehind(b)
  {
    hide LadderOk, NoneIsBehind, InsertedNear, ErasedNear, Goes;
    if e, topStart :| InsertedNear(a, b, e, topStart) {
      InsertLeavesNoneBehind(a, b, e, topStart);
    } else if e, outcome :| ErasedNear(a, b, e, outcome) {
      EraseLeavesNoneBehind(a, b, e, outcome);
    } else if a.bottom == [] && exists top, minTs, maxTs :: Goes(a, top, minTs, maxTs, b) {
      var top, minTs, maxTs :| Goes(a, top, minTs, maxTs, b);
      GoesLeavesNoneBehind(a, top, minTs, maxTs, b);
    } else if b != a {
      NoRungNoneBehind(b);
    }
  }

  lemma NoRungNoneBehind(l: Ladder)
    requires l.nRung == 0
    ensures NoneIsBehind(l)
  {
  }

  lemma {:induction false} RunsLeaveNoneBehind(run: seq<Ladder>, k: nat)
    requires IsRun(run) && k < |run|
    ensures NoneIsBehind(run[k])
  {
    hide LadderOk, Step, NoneIsBehind;
    if k == 0 {
      NoRungNoneBehind(run[0]);
    } else {
      RunsLeaveNoneBehind(run, k - 1);
      assert Step(run[k - 1], run[k - 1 + 1]);
      StepLeavesNoneBehind(run[k - 1], run[k]);
    }
  }

  /** erase() does not find the first event of bottom if and only if some rung has not passed its time. */
  lemma FirstIsErasedExactly(l: Ladder, now: Ladder, outcome: Erasure)
    requires l.bottom != [] && l.bottom[0] !in Held(l.rungs) && ErasedNear(l, now, l.bottom[0], outcome)
    ensures outcome == Erased(true) <==> forall i :: 0 <= i < l.nRung ==> l.bottom[0].body.ts < l.rungs[i].current
  {
    var e := l.bottom[0];
    var r := Chosen(l.rungs, l.nRung, e.body.ts);
    hide Chosen, Removed, Slot, Held, Poured;
    if r < l.nRung {
      var j := Slot(l.rungs[r], e.body.ts);
      if e in l.rungs[r].buckets[j] {
        PouredHas(l.rungs[r].buckets, e);
        PartOfHeld(l.rungs, r, e);
      }
    }
  }

  lemma InUse(rungs: seq<Rung>, nRung: nat, i: nat, x: Event)
    requires RungsOk(rungs, nRung) && i < |rungs| && x in Poured(rungs[i].buckets)
    ensures i < nRung
  {
    PouredEmpty(rungs[i].buckets);
    hide Poured;
  }

  /** In every run of the queue, ordered or not: when the event that begin() returns is then found by
      erase(), it is a least one of all. */
  lemma WhatIsTakenIsLeast(run: seq<Ladder>, k: nat, now: Ladder, outcome: Erasure)
    requires IsRun(run) && k < |run| && run[k].bottom != [] && run[k].bottom[0] !in Held(run[k].rungs)
    requires ErasedNear(run[k], now, run[k].bottom[0], outcome) && outcome == Erased(true)
    ensures forall x :: x in All(run[k]) ==> !Before(x, run[k].bottom[0])
  {
    var l := run[k];
    RunsLeaveNoneBehind(run, k);
    FirstIsErasedExactly(l, now, outcome);
    FirstIsEarliest(l.bottom);
    assert LadderOk(l);
    hide IsRun, Held, Poured, ErasedNear, WeaklySorted, RungsOk;
    forall x | x in All(l)
      ensures !Before(x, l.bottom[0])
    {
      if x in Held(l.rungs) {
        var i := RungOf(l.rungs, x);
        InUse(l.rungs, l.nRung, i, x);
        assert NoneBehind(l.rungs[i]);
      }
    }
  }
}
