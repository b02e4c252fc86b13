/** Runs of the ladder queue from its constructor that get it out of order: begin() divides the only
    bucket of a rung, which stays in use and starts over. */
module LadderRuns {
  import opened Events
  import opened LadderQueues
  import opened LadderOrder

  /** The first event, a late one, and k for one time in between, as they lie in top. */
  function Crowd(k: nat): (list: seq<Event>)
    ensures |list| == k + 2
    ensures forall x :: x in list ==> x == At(1, 0) || x.body.ts == 1006 || x.body.ts == 1015
  {
    if k == 0 then [At(1015, 0), At(1, 0)] else [At(1006, k)] + Crowd(k - 1)
  }

  ghost predicate IsCrowd(list: seq<Event>) {
    && |list| == 52 && multiset(list)[At(1, 0)] == 1 && At(1006, 1) in list && At(1015, 0) in list
    && forall x :: x in list ==> x == At(1, 0) || x.body.ts == 1006 || x.body.ts == 1015
  }

  lemma {:induction false} CrowdHas(k: nat)
    ensures multiset(Crowd(k))[At(1, 0)] == 1 && At(1015, 0) in Crowd(k) && (k > 0 ==> At(1006, 1) in Crowd(k))
  {
    if k > 0 {
      CrowdHas(k - 1);
      var e, rest := At(1006, k), Crowd(k - 1);
      assert Crowd(k) == [e] + rest && (k == 1 ==> e == At(1006, 1));
      hide Crowd;
      OneMore(e, rest);
    }
  }

  lemma OneMore(e: Event, list: seq<Event>)
    ensures forall x :: x in list ==> x in [e] + list
    ensures forall x :: multiset([e] + list)[x] == if x == e then multiset(list)[x] + 1 else multiset(list)[x]
    ensures e in [e] + list
  {
    assert multiset([e] + list) == multiset{e} + multiset(list);
    assert ([e] + list)[0] == e;
  }

  lemma CrowdIs(k: nat)
    requires k == 50
    ensures IsCrowd(Crowd(k))
  {
    CrowdHas(k);
    hide Crowd;
  }

  lemma CrowdGrows(k: nat)
    ensures Crowd(0) == [At(1015, 0), At(1, 0)] && Crowd(k + 1) == [At(1006, k + 1)] + Crowd(k)
  {
  }

  /** What is elsewhere in no bucket is in its own as often as in the rung. */
  lemma {:induction false} CountInBucket(buckets: seq<seq<Event>>, j: nat, x: Event)
    requires j < |buckets| && forall k :: 0 <= k < |buckets| && k != j ==> x !in buckets[k]
    ensures Poured(buckets)[x] == multiset(buckets[j])[x]
  {
    if j == 0 {
      PouredHas(buckets[1..], x);
    } else {
      CountInBucket(buckets[1..], j - 1, x);
      assert x !in buckets[0];
    }
  }

  lemma NotElsewhere(r: Rung, k: nat, x: Event)
    requires Placed(r) && k < |r.buckets| && x.body.ts >= r.start && Slot(r, x.body.ts) != k
    ensures x !in r.buckets[k]
  {
    hide Slot;
  }

  lemma CountInSlot(r: Rung, j: nat, x: Event)
    requires Placed(r) && j < |r.buckets| && x.body.ts >= r.start
    ensures multiset(r.buckets[j])[x] == if Slot(r, x.body.ts) == j then Poured(r.buckets)[x] else 0
  {
    hide Slot;
    if Slot(r, x.body.ts) == j {
      forall k | 0 <= k < |r.buckets| && k != j
        ensures x !in r.buckets[k]
      {
        NotElsewhere(r, k, x);
      }
      CountInBucket(r.buckets, j, x);
    } else {
      NotElsewhere(r, j, x);
    }
  }

  /** Rung 0 when top went there. */
  ghost predicate HoldsCrowd(r: Rung, all: seq<Event>) {
    && RungOk(r) && r.start == 1 && r.width == 20 && |r.buckets| >= 104 && Poured(r.buckets) == multiset(all) && IsCrowd(all)
  }

  lemma CrowdInBucket(r: Rung, all: seq<Event>, j: nat, x: Event)
    requires HoldsCrowd(r, all) && j < |r.buckets|
    ensures multiset(r.buckets[j])[x] == if j == (if x == At(1, 0) then 0 else 50) then multiset(all)[x] else 0
  {
    hide Poured, Slot;
    if x in all {
      CrowdSlot(r, x);
      CountInSlot(r, j, x);
    } else {
      PouredHas(r.buckets, x);
      assert x !in multiset(all);
      assert x !in r.buckets[j];
    }
  }

  lemma CrowdSlot(r: Rung, x: Event)
    requires r.start == 1 && r.width == 20 && |r.buckets| >= 104 && (x == At(1, 0) || x.body.ts == 1006 || x.body.ts == 1015)
    ensures x.body.ts >= r.start && Slot(r, x.body.ts) == if x == At(1, 0) then 0 else 50
  {
  }

  /** One event is in bucket 0, the others in bucket 50. */
  lemma CrowdIsSplit(r: Rung, all: seq<Event>)
    requires HoldsCrowd(r, all)
    ensures multiset(r.buckets[0]) == multiset{At(1, 0)}
    ensures multiset(r.buckets[50]) + multiset{At(1, 0)} == multiset(all)
    ensures forall j :: 0 <= j < |r.buckets| && j != 0 && j != 50 ==> r.buckets[j] == []
  {
    assert |r.buckets| >= 104 && multiset(all)[At(1, 0)] == 1;
    hide *;
    forall x
      ensures multiset(r.buckets[0])[x] == if x == At(1, 0) then multiset(all)[x] else 0
      ensures multiset(r.buckets[50])[x] == if x == At(1, 0) then 0 else multiset(all)[x]
    {
      CrowdInBucket(r, all, 0, x);
      CrowdInBucket(r, all, 50, x);
    }
    SplitInTwo(multiset(r.buckets[0]), multiset(r.buckets[50]), multiset(all), At(1, 0));
    forall j | 0 <= j < |r.buckets| && j != 0 && j != 50
      ensures r.buckets[j] == []
    {
      forall x
        ensures multiset(r.buckets[j])[x] == 0
      {
        CrowdInBucket(r, all, j, x);
      }
      HasNone(r.buckets[j]);
    }
  }

  lemma HasNone(list: seq<Event>)
    requires forall x: Event :: multiset(list)[x] == 0
    ensures list == []
  {
    assert multiset(list) == multiset{};
    assert |multiset(list)| == |list|;
  }

  lemma SplitInTwo(a: multiset<Event>, b: multiset<Event>, all: multiset<Event>, e: Event)
    requires forall x: Event :: a[x] == if x == e then all[x] else 0
    requires forall x: Event :: b[x] == if x == e then 0 else all[x]
    requires all[e] == 1
    ensures a == multiset{e} && b + multiset{e} == all
  {
  }

  /** Rung 0 is the only one, and bucket 50 its only bucket with events: it is overfull. */
  ghost predicate OneBucket(l: Ladder) {
    && l.nRung == 1 <= |l.rungs|
    && var r := l.rungs[0];
    && RungOk(r) && r.start == 1 && r.width == 20 && r.current == 1001 && |r.buckets| >= 104
    && (forall j :: 0 <= j < |r.buckets| && j != 50 ==> r.buckets[j] == [])
    && |r.buckets[50]| == 51 && (forall x :: x in r.buckets[50] ==> x.body.ts == 1006 || x.body.ts == 1015)
    && At(1006, 1) in r.buckets[50] && At(1015, 0) in r.buckets[50]
  }

  lemma CrowdWithoutFirst(list: seq<Event>, all: seq<Event>)
    requires multiset(list) + multiset{At(1, 0)} == multiset(all) && IsCrowd(all)
    ensures |list| == 51 && At(1006, 1) in list && At(1015, 0) in list
    ensures forall x :: x in list ==> x.body.ts == 1006 || x.body.ts == 1015
  {
    OneLess(list, all, At(1, 0));
  }

  lemma OneLess(list: seq<Event>, all: seq<Event>, e: Event)
    requires multiset(list) + multiset{e} == multiset(all) && multiset(all)[e] == 1
    ensures |list| == |all| - 1 && e !in list && forall x :: x != e ==> (x in list <==> x in all)
  {
    assert |multiset(list) + multiset{e}| == |multiset(all)|;
    forall x
      ensures multiset(list)[x] == if x == e then 0 else multiset(all)[x]
      ensures x in list <==> x in multiset(list)
      ensures x in all <==> x in multiset(all)
    {
      assert (multiset(list) + multiset{e})[x] == multiset(all)[x];
    }
  }

  /** The first bucket may be poured at once. */
  lemma NoTurnAtFirst(a: Ladder, m: Ladder, d: nat, j: nat)
    requires 0 < a.nRung <= |a.rungs| && Turns(a, m, d) && FirstNonempty(a.rungs[a.nRung - 1].buckets, j)
    requires var r := a.rungs[a.nRung - 1]; |r.buckets[j]| <= THRESHOLD || r.width <= MIN_BUCKET_WIDTH
    ensures m == a
  {
    hide Turn;
    forall b
      ensures !Turn(a, b)
    {
      NoTurn(a, b, j);
    }
  }

  lemma NoTurn(a: Ladder, b: Ladder, j: nat)
    requires 0 < a.nRung <= |a.rungs| && FirstNonempty(a.rungs[a.nRung - 1].buckets, j)
    requires var r := a.rungs[a.nRung - 1]; |r.buckets[j]| <= THRESHOLD || r.width <= MIN_BUCKET_WIDTH
    ensures !Turn(a, b)
  {
    var r := a.rungs[a.nRung - 1];
    assert r.buckets[j] != [];
    hide Divided, RungOk, Restarted;
    forall i: nat
      ensures !DividesLast(a, b, i)
    {
      if FirstNonempty(r.buckets, i) {
        SameFirst(r.buckets, i, j);
      }
    }
  }

  lemma SameFirst(buckets: seq<seq<Event>>, i: nat, j: nat)
    requires FirstNonempty(buckets, i) && FirstNonempty(buckets, j)
    ensures i == j
  {
    assert buckets[i] != [] && buckets[j] != [];
  }

  lemma FirstBegin(all: seq<Event>, b: Ladder)
    requires IsCrowd(all) && BeginsFromTop(all, 1, 1015, b)
    ensures OneBucket(b) && b.bottom == [At(1, 0)]
  {
    hide Turns, Probed, Drawn, Poured, RungOk;
    var a :| FirstLadder(a, all, 1, 1015) && Begins(a, b, false);
    var d, m, p, j :| Turns(a, m, d) && Probed(m, p, j) && Drawn(p, b, j, false);
    FirstIsCrowd(a, all);
    hide *;
    FirstMayBePoured(a, all);
    NoTurnAtFirst(a, m, d, 0);
    FirstIsPoured(a, all, p, b, j);
  }

  lemma FirstIsCrowd(a: Ladder, all: seq<Event>)
    requires FirstLadder(a, all, 1, 1015) && IsCrowd(all)
    ensures a.nRung == 1 <= |a.rungs| && a.bottom == [] && HoldsCrowd(a.rungs[0], all)
  {
    RungHas(a.rungs, 1, 0);
    hide IsCrowd, Poured, RungOk;
    assert RungWidth(1014, 52) == 20;
  }

  lemma FirstMayBePoured(a: Ladder, all: seq<Event>)
    requires a.nRung == 1 <= |a.rungs| && HoldsCrowd(a.rungs[0], all)
    ensures FirstNonempty(a.rungs[0].buckets, 0) && |a.rungs[0].buckets[0]| <= THRESHOLD
  {
    CrowdIsSplit(a.rungs[0], all);
    OneInBucket(a.rungs[0].buckets[0], At(1, 0));
  }

  lemma OneInBucket(list: seq<Event>, e: Event)
    requires multiset(list) == multiset{e}
    ensures list == [e]
  {
    assert |list| == |multiset(list)| == 1;
    assert list[0] in multiset(list);
  }

  lemma FirstIsPoured(a: Ladder, all: seq<Event>, p: Ladder, b: Ladder, j: nat)
    requires a.nRung == 1 <= |a.rungs| && a.bottom == [] && HoldsCrowd(a.rungs[0], all) && Probed(a, p, j) && Drawn(p, b, j, false)
    ensures OneBucket(b) && b.bottom == [At(1, 0)]
  {
    var r, q := a.rungs[0], p.rungs[0];
    FirstMayBePoured(a, all);
    SameFirst(r.buckets, 0, j);
    CrowdIsSplit(r, all);
    CrowdWithoutFirst(r.buckets[50], all);
    OneInBucket(b.bottom, At(1, 0));
    hide IsCrowd, Poured, RungOk;
    assert Without(q, 0).buckets[50] != [];
    assert LostBucket(q, b.rungs[0], 0);
    NowAt(b.rungs[0], 50);
  }

  lemma NowAt(r: Rung, j: nat)
    requires Restarted(r) && FirstNonempty(r.buckets, j)
    ensures r.current == BucketStart(r, j)
  {
    assert r.buckets[j] != [];
    var k: nat :| FirstNonempty(r.buckets, k) && r.current == BucketStart(r, k);
    SameFirst(r.buckets, j, k);
  }

  /** The overfull bucket has been divided: rung 0 is empty and starts over. */
  ghost predicate StartsOver(l: Ladder) {
    && l.nRung == 2 <= |l.rungs| && l.rungs[0].current == l.rungs[0].start == 1 && l.rungs[0].width == 20
    && l.rungs[0].buckets != [] && AllEmpty(l.rungs[0].buckets)
  }

  /** Its part, whose buckets are too narrow to be divided. */
  ghost predicate IsPart(r: Rung) {
    && RungOk(r) && r.start == 1001 && r.width == 1 && |r.buckets| == 50
    && (forall x :: x in Poured(r.buckets) ==> x.body.ts == 1006 || x.body.ts == 1015)
    && At(1006, 1) in Poured(r.buckets) && At(1015, 0) in Poured(r.buckets)
  }

  lemma OverfullIsFirst(l: Ladder)
    requires OneBucket(l)
    ensures FirstNonempty(l.rungs[0].buckets, 50)
  {
  }

  lemma NotProbed(a: Ladder, p: Ladder, j: nat)
    requires OneBucket(a)
    ensures !Probed(a, p, j)
  {
    OverfullIsFirst(a);
    hide RungOk;
    if FirstNonempty(a.rungs[0].buckets, j) {
      SameFirst(a.rungs[0].buckets, 50, j);
    }
  }

  lemma OverfullIsDivided(a: Ladder, b: Ladder)
    requires OneBucket(a) && a.bottom == [] && Turn(a, b)
    ensures StartsOver(b) && b.bottom == [] && IsPart(b.rungs[1])
  {
    OverfullIsFirst(a);
    var r := a.rungs[0];
    assert r.buckets[50] != [];
    var j: nat :| DividesLast(a, b, j);
    SameFirst(r.buckets, 50, j);
    assert b.rungs[0].buckets == Without(r, 50).buckets && AllEmpty(b.rungs[0].buckets);
    DividedPours(r.buckets[50], BucketStart(r, 50), r.width);
    assert RungWidth(20, 51) == 1;
    hide RungOk, Poured, Divided;
  }

  /** The two times are in different buckets. */
  lemma TwoBuckets(r: Rung)
    requires IsPart(r)
    ensures r.buckets[5] != [] && r.buckets[14] != []
  {
    InItsSlot(r, At(1006, 1));
    InItsSlot(r, At(1015, 0));
  }

  lemma InItsSlot(r: Rung, x: Event)
    requires Placed(r) && x in Poured(r.buckets)
    ensures x.body.ts >= r.start && x in r.buckets[Slot(r, x.body.ts)]
  {
    PouredHas(r.buckets, x);
    var j: nat :| j < |r.buckets| && x in r.buckets[j];
    assert InSlot(r, j, x);
  }

  lemma PartIsPoured(a: Ladder, p: Ladder, b: Ladder, j: nat)
    requires StartsOver(a) && IsPart(a.rungs[1]) && a.bottom == [] && Probed(a, p, j) && Drawn(p, b, j, true)
    ensures StartsOver(b) && b.bottom != [] && forall x :: x in b.bottom ==> x.body.ts >= 1006
  {
    var r, q := a.rungs[1], p.rungs[1];
    TwoBuckets(r);
    assert q.buckets == r.buckets;
    assert !AllEmpty(Without(q, j).buckets) by {
      assert Without(q, j).buckets[5] != [] || Without(q, j).buckets[14] != [];
    }
    assert |multiset(b.bottom)| == |multiset(r.buckets[j])|;
    forall x | x in b.bottom
      ensures x.body.ts >= 1006
    {
      assert x in multiset(b.bottom) && x in r.buckets[j];
      PouredHas(r.buckets, x);
    }
  }

  lemma SecondBegin(a: Ladder, b: Ladder)
    requires OneBucket(a) && a.bottom == [] && Begins(a, b, true)
    ensures StartsOver(b) && b.bottom != [] && forall x :: x in b.bottom ==> x.body.ts >= 1006
  {
    hide Probed, Drawn, Turn, RungOk, AllEmpty, IsPart;
    var d: nat, m, p, j: nat :| Turns(a, m, d) && Probed(m, p, j) && Drawn(p, b, j, true);
    NotProbed(a, p, j);
    assert d > 0;
    var k :| Turn(a, k) && Turns(k, m, d - 1);
    OverfullIsDivided(a, k);
    PartIsFirst(k, m, d - 1);
    PartIsPoured(m, p, b, j);
  }

  lemma PartIsFirst(a: Ladder, m: Ladder, d: nat)
    requires a.nRung == 2 <= |a.rungs| && IsPart(a.rungs[1]) && Turns(a, m, d)
    ensures m == a
  {
    TwoBuckets(a.rungs[1]);
    var j := FirstWithEvents(a.rungs[1].buckets);
    hide Turns, RungOk, Poured;
    NoTurnAtFirst(a, m, d, j);
  }

  /** A queue with 52 events, all in top. */
  method Gather() returns (q: LadderQueue)
    ensures fresh(q) && fresh(q.rung) && q.Valid() && IsCrowd(q.top) && q.minTs == 1 && q.maxTs == 1015
    ensures q.topStart == 0 && q.nRung == 0 && q.bottom == []
  {
    q := new LadderQueue();
    CrowdGrows(0);
    hide LadderQueue.Valid, LadderQueue.Contents, LadderQueue.IsOrdered, Crowd, IsCrowd;
    q.Insert(At(1, 0));
    q.Insert(At(1015, 0));
    for k := 0 to 50
      invariant fresh(q) && fresh(q.rung) && q.Valid() && q.top == Crowd(k) && q.minTs == 1 && q.maxTs == 1015
      invariant q.topStart == 0 && q.nRung == 0 && q.bottom == []
    {
      CrowdGrows(k);
      q.Insert(At(1006, k + 1));
    }
    CrowdIs(50);
  }

  lemma FirstIsAll(q: LadderQueue)
    requires q.Valid() && q.nRung == 0 && IsCrowd(q.top)
    ensures q.Contents() != multiset{} && Held(q.rung[..]) == multiset{} && !Doomed(q.rung[..], q.nRung)
  {
    RungsHave(q.rung[..], q.nRung);
    hide RungsOk, Held;
    assert At(1006, 1) in q.Contents();
  }

  lemma FromTop(a: Ladder, all: seq<Event>, b: Ladder)
    requires Goes(a, all, 1, 1015, b) && Held(a.rungs) == multiset{} && IsCrowd(all)
    ensures OneBucket(b) && b.bottom == [At(1, 0)]
  {
    hide IsCrowd, BeginsFromTop, Begins, Held;
    FirstBegin(all, b);
  }

  /** The first event of the queue is taken to bottom ... */
  method FirstComes() returns (q: LadderQueue, front: Front)
    ensures fresh(q) && fresh(q.rung) && q.Valid() && OneBucket(q.Ladders()) && q.bottom == [At(1, 0)]
    ensures q.maxTs == q.topStart == 1015 && q.top == [] && front == First(At(1, 0))
  {
    q := Gather();
    FirstIsAll(q);
    ghost var was := q.Ladders();
    ghost var all := q.top;
    assert Held(was.rungs) == multiset{} && q.maxTs <= UINT_MAX;
    hide *;
    front := q.Begin();
    FromTop(was, all, q.Ladders());
  }

  lemma BottomLosesFirst(was: Ladder, now: Ladder, outcome: Erasure)
    requires OneBucket(was) && was.bottom == [At(1, 0)] && ErasedNear(was, now, At(1, 0), outcome)
    ensures OneBucket(now) && now.bottom == [] && outcome == Erased(true)
  {
    ChosenIsFirst(was.rungs, was.nRung, 1, 1);
    hide OneBucket, Chosen;
  }

  /** ... and from the queue. */
  method FirstIsTaken() returns (q: LadderQueue)
    ensures fresh(q) && fresh(q.rung) && q.Valid() && OneBucket(q.Ladders()) && q.bottom == []
    ensures q.maxTs == q.topStart == 1015 && q.top == []
  {
    var front;
    q, front := FirstComes();
    hide LadderQueue.Valid, LadderQueue.Contents, OneBucket, ErasedNear, Loses;
    ghost var was := q.Ladders();
    var outcome := q.Erase(front.event);
    BottomLosesFirst(was, q.Ladders(), outcome);
  }

  lemma OneBucketGoesOn(q: LadderQueue)
    requires q.Valid() && OneBucket(q.Ladders())
    ensures q.Contents() != multiset{} && Held(q.rung[..]) != multiset{} && !Doomed(q.rung[..], q.nRung)
  {
    PouredHas(q.rung[0].buckets, At(1006, 1));
    PartOfHeld(q.rung[..], 0, At(1006, 1));
    assert At(1006, 1) in q.Contents();
    OneBucketIsNarrow(q.rung[..]);
  }

  lemma OneBucketIsNarrow(rungs: seq<Rung>)
    requires RungsOk(rungs, 1) && rungs[0].width == 20
    ensures !Doomed(rungs, 1)
  {
    hide Doomed;
    PowerIsPositive(51, 6);
    assert Power(51, 7) == 51 * Power(51, 6);
    EightRungsAreEnough(rungs, 1);
  }

  lemma FromOneBucket(a: Ladder, top: seq<Event>, minTs: nat, maxTs: nat, b: Ladder)
    requires Goes(a, top, minTs, maxTs, b) && Held(a.rungs) != multiset{} && OneBucket(a) && a.bottom == []
    ensures StartsOver(b) && b.bottom != [] && forall x :: x in b.bottom ==> x.body.ts >= 1006
  {
    hide OneBucket, BeginsFromTop, Begins, Held, StartsOver;
    SecondBegin(a, b);
  }

  /** begin() divides the only bucket. */
  method LadderStartsOver() returns (q: LadderQueue, front: Front)
    ensures fresh(q) && fresh(q.rung) && q.Valid() && StartsOver(q.Ladders()) && q.topStart == 1015
    ensures q.bottom != [] && front == First(q.bottom[0]) && front.event in q.Contents()
    ensures forall x :: x in q.bottom ==> x.body.ts >= 1006
  {
    q := FirstIsTaken();
    OneBucketGoesOn(q);
    ghost var was, minTs := q.Ladders(), q.minTs;
    assert Held(was.rungs) != multiset{} && q.maxTs <= UINT_MAX;
    hide *;
    front := q.Begin();
    FromOneBucket(was, q.top, minTs, q.maxTs, q.Ladders());
  }

  lemma InEmptyRung(was: Ladder, now: Ladder, e: Event, outcome: Erasure)
    requires StartsOver(was) && was.nRung <= |was.rungs| && ErasedNear(was, now, e, outcome) && e.body.ts >= 1
    ensures outcome == EraseFailed && now == was
  {
    ChosenIsFirst(was.rungs, was.nRung, e.body.ts, 0);
    hide Chosen;
    var r := was.rungs[0];
    assert r.buckets[Slot(r, e.body.ts)] == [];
    assert now.rungs == was.rungs;
  }

  lemma IntoEmptyRung(was: Ladder, now: Ladder, e: Event, topStart: nat)
    requires StartsOver(was) && InsertedNear(was, now, e, topStart) && e.body.ts >= 1
    ensures now.bottom == was.bottom && now.nRung == 2
  {
    ChosenIsFirst(was.rungs, was.nRung, e.body.ts, 0);
    hide Chosen, Put, InOrder, Fits;
  }

  /** Then erase() fails an assertion for the very event that begin() has returned: it is in bottom, but
      looked for in the rung that has started over. */
  method EraseFails() returns (q: LadderQueue, front: Front, outcome: Erasure)
    ensures fresh(q) && q.Valid() && front.First? && front.event in q.Contents() && outcome == EraseFailed
  {
    q, front := LadderStartsOver();
    assert front.event in q.bottom && q.bottom[0] in multiset(q.bottom) && front.event.body.ts <= 1015;
    ghost var was := q.Ladders();
    hide StartsOver, LadderQueue.Valid, LadderQueue.Contents, ErasedNear, Loses;
    outcome := q.Erase(front.event);
    InEmptyRung(was, q.Ladders(), front.event, outcome);
  }

  /** And begin() returns an event although an earlier one is in the queue. */
  method BeginIsNotLeast() returns (q: LadderQueue, front: Front, earlier: Event)
    ensures fresh(q) && q.Valid() && front.First? && earlier in q.Contents() && earlier.body.ts < front.event.body.ts
  {
    q, front := LadderStartsOver();
    earlier := At(500, 0);
    ghost var was := q.Ladders();
    assert q.bottom == was.bottom && earlier.body.ts == 500;
    hide StartsOver, LadderQueue.Valid, LadderQueue.Contents, LadderQueue.IsOrdered, InsertedNear, Goes, Doomed, Held, Overflows,
         Before, At;
    q.Insert(earlier);
    IntoEmptyRung(was, q.Ladders(), earlier, q.topStart);
    assert q.bottom == was.bottom;
    front := q.Begin();
    assert front.event in was.bottom;
  }
}
