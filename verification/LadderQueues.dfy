/** The ladder queue: events far in the future lie unsorted in `top`, nearer ones in the buckets of up
    to eight rungs, and the nearest ones sorted in `bottom`.  Transfers between them lose nothing, and
    of the assertions of insert() and begin() only one can ever fail. */
module LadderQueues {
  import opened Events
  import opened Queues

  const MAX_RUNG_CNT: nat := 8
  const THRESHOLD: nat := 50
  const MAX_BUCKET_CNT: nat := THRESHOLD
  const MIN_BUCKET_WIDTH: nat := 1

  // ------------------------------------------------------------------------------------------
  // Bottom
  // ------------------------------------------------------------------------------------------

  /** The contents of a multiset<Event, compareEvents>, equal keys allowed. */
  predicate WeaklySorted(q: seq<Event>) {
    forall a, b :: 0 <= a < b < |q| ==> !Before(q[b], q[a])
  }

  lemma NotBeforeIsTransitive(a: Event, b: Event, c: Event)
    ensures !Before(a, b) && !Before(b, c) ==> !Before(a, c)
    ensures Before(a, b) ==> !Before(b, a)
  {
  }

  lemma PrependKeepsOrder(x: Event, q: seq<Event>)
    requires WeaklySorted(q) && forall k :: 0 <= k < |q| ==> !Before(q[k], x)
    ensures WeaklySorted([x] + q)
  {
    hide Before;
  }

  /** What comes before the first comes before all. */
  lemma BeforeFirst(q: seq<Event>, e: Event)
    requires WeaklySorted(q) && q != [] && Before(e, q[0])
    ensures forall k :: 0 <= k < |q| ==> !Before(q[k], e)
  {
    hide Before;
    forall k | 0 <= k < |q|
      ensures !Before(q[k], e)
    {
      NotBeforeIsTransitive(e, q[0], e);
      NotBeforeIsTransitive(q[0], e, q[k]);
      NotBeforeIsTransitive(q[k], q[0], e);
    }
  }

  lemma {:induction false} InsertKeepsOrder(q: seq<Event>, e: Event)
    requires WeaklySorted(q)
    ensures WeaklySorted(Insert(q, e)) && multiset(Insert(q, e)) == multiset(q) + multiset{e}
  {
    hide Before;
    if q == [] {
      PrependKeepsOrder(e, q);
    } else if Before(e, q[0]) {
      BeforeFirst(q, e);
      PrependKeepsOrder(e, q);
    } else {
      var rest := Insert(q[1..], e);
      InsertKeepsOrder(q[1..], e);
      assert q == [q[0]] + q[1..];
      assert Insert(q, e) == [q[0]] + rest;
      hide Insert;
      forall k | 0 <= k < |rest|
        ensures !Before(rest[k], q[0])
      {
        assert rest[k] in multiset(rest);
        assert rest[k] == e || rest[k] in q[1..];
      }
      PrependKeepsOrder(q[0], rest);
    }
  }

  lemma FirstIsEarliest(q: seq<Event>)
    requires WeaklySorted(q) && q != []
    ensures forall x :: x in q ==> q[0].body.ts <= x.body.ts && !Before(x, q[0])
  {
    forall x | x in q
      ensures !Before(x, q[0])
    {
      var k :| 0 <= k < |q| && q[k] == x;
    }
  }

  // ------------------------------------------------------------------------------------------
  // One rung
  // ------------------------------------------------------------------------------------------

  /** rung_[i], bucket_width_[i], last_nonempty_bucket_[i], r_start_[i] and r_current_[i] */
  datatype Rung = Rung(buckets: seq<seq<Event>>, width: nat, lastNonempty: nat, start: nat, current: nat)

  function Min(a: nat, b: nat): nat { if b < a then b else a }

  /** The bucket for time ts. */
  function Slot(r: Rung, ts: nat): (j: nat)
    requires r.width > 0 && r.buckets != [] && ts >= r.start
    ensures j < |r.buckets|
  {
    Min((ts - r.start) / r.width, |r.buckets| - 1)
  }

  lemma QuotientBelow(x: nat, w: nat, j: nat)
    requires w > 0 && x < j * w
    ensures x / w < j
  {
    assert (j - x / w) * w == j * w - (x / w) * w > 0;
    PositiveFactor(j - x / w, w);
  }

  lemma PositiveFactor(y: int, w: nat)
    requires y * w > 0
    ensures y > 0
  {
  }

  lemma DivisionGrows(a: nat, b: nat, w: nat)
    requires a <= b && w > 0
    ensures a / w <= b / w
  {
    assert (b / w + 1) * w == (b / w) * w + w;
    QuotientBelow(a, w, b / w + 1);
  }

  lemma QuotientTimesDivisor(x: nat, w: nat, j: nat)
    requires w > 0 && j <= x / w
    ensures j * w <= x
  {
    assert (x / w - j) * w >= 0;
  }

  /** A later slot holds later times. */
  lemma SlotGrows(r: Rung, a: nat, b: nat)
    requires r.width > 0 && r.buckets != [] && a >= r.start && b >= r.start
    ensures Slot(r, a) < Slot(r, b) ==> a < b
  {
    if b <= a {
      DivisionGrows(b - r.start, a - r.start, r.width);
    }
  }

  function BucketStart(r: Rung, j: nat): (start: nat)
    ensures start >= r.start
  {
    r.start + j * r.width
  }

  /** The start of its bucket is not later than a time. */
  lemma SlotStartsEarly(r: Rung, ts: nat)
    requires r.width > 0 && r.buckets != [] && ts >= r.start
    ensures BucketStart(r, Slot(r, ts)) <= ts
  {
    QuotientTimesDivisor(ts - r.start, r.width, Slot(r, ts));
  }

  predicate InSlot(r: Rung, j: nat, e: Event)
    requires r.width > 0 && r.buckets != []
  {
    e.body.ts >= r.start && Slot(r, e.body.ts) == j
  }

  /** Every event is in its bucket. */
  ghost predicate Placed(r: Rung) {
    && r.width > 0 && r.buckets != []
    && forall j, e :: 0 <= j < |r.buckets| && e in r.buckets[j] ==> InSlot(r, j, e)
  }

  /** lastNonempty is one more than the index of the last bucket that is not empty, or 0. */
  ghost predicate LastIsExact(r: Rung) {
    && r.lastNonempty <= |r.buckets|
    && (r.lastNonempty > 0 ==> r.buckets[r.lastNonempty - 1] != [])
    && forall j :: r.lastNonempty <= j < |r.buckets| ==> r.buckets[j] == []
  }

  /** r_current_ is the start of a bucket. */
  ghost predicate Aligned(r: Rung)
    requires r.width > 0 && r.buckets != []
  {
    r.start <= r.current && r.current == BucketStart(r, Slot(r, r.current))
  }

  lemma AlignedAt(r: Rung, j: nat)
    requires r.width > 0 && j < |r.buckets| && r.current == BucketStart(r, j)
    ensures Aligned(r) && Slot(r, r.current) == j
  {
    ProductOverFactor(j, r.width);
  }

  lemma ProductOverFactor(j: nat, w: nat)
    requires w > 0
    ensures j * w / w == j
  {
    var q := j * w / w;
    assert j * w == q * w + j * w % w;
    assert (1 - (j - q)) * w == w - (j * w - q * w);
    PositiveFactor(1 - (j - q), w);
    assert (j + 1) * w == j * w + w;
    QuotientBelow(j * w, w, j + 1);
  }

  lemma AlignedFrame(r: Rung, r': Rung)
    requires r.width > 0 && r.buckets != [] && |r'.buckets| == |r.buckets|
    requires r'.width == r.width && r'.start == r.start && r'.current == r.current
    ensures Aligned(r') <==> Aligned(r)
  {
  }

  /** Whatever is not before the current start is in a bucket that is not either. */
  lemma SlotFromCurrent(r: Rung, ts: nat)
    requires r.width > 0 && r.buckets != [] && Aligned(r) && ts >= r.current
    ensures BucketStart(r, Slot(r, ts)) >= r.current
  {
    DivisionGrows(r.current - r.start, ts - r.start, r.width);
    var a, b := Slot(r, r.current), Slot(r, ts);
    assert a <= b;
    hide Slot;
    Larger(b, a, r.width);
  }

  ghost predicate RungOk(r: Rung) {
    Placed(r) && LastIsExact(r) && Aligned(r)
  }

  ghost predicate AllEmpty(buckets: seq<seq<Event>>) {
    forall j :: 0 <= j < |buckets| ==> buckets[j] == []
  }

  /** The events of all buckets. */
  function Poured(buckets: seq<seq<Event>>): multiset<Event> {
    if buckets == [] then multiset{} else multiset(buckets[0]) + Poured(buckets[1..])
  }

  lemma Exchange(a: multiset<Event>, p: multiset<Event>, q: multiset<Event>, x: multiset<Event>, y: multiset<Event>)
    requires p + x == q + y
    ensures (a + p) + x == (a + q) + y
  {
    forall e: Event
      ensures ((a + p) + x)[e] == ((a + q) + y)[e]
    {
      assert (p + x)[e] == (q + y)[e];
    }
  }

  lemma Cancel(p: multiset<Event>, x: multiset<Event>, q: multiset<Event>, d: multiset<Event>)
    requires p + x == q + (d + x)
    ensures p == q + d
  {
    forall e: Event
      ensures p[e] == (q + d)[e]
    {
      assert (p + x)[e] == (q + (d + x))[e];
    }
  }

  lemma {:induction false} PouredUpdate(b: seq<seq<Event>>, j: nat, q: seq<Event>)
    requires j < |b|
    ensures Poured(b[j := q]) + multiset(b[j]) == Poured(b) + multiset(q)
  {
    if j == 0 {
      assert b[0 := q][1..] == b[1..];
    } else {
      PouredUpdate(b[1..], j - 1, q);
      assert b[j := q][1..] == b[1..][j - 1 := q];
      Exchange(multiset(b[0]), Poured(b[1..][j - 1 := q]), Poured(b[1..]), multiset(b[j]), multiset(q));
    }
  }

  lemma {:induction false} PouredEmpty(b: seq<seq<Event>>)
    ensures Poured(b) == multiset{} <==> AllEmpty(b)
  {
    if b != [] {
      PouredEmpty(b[1..]);
      assert AllEmpty(b) <==> b[0] == [] && AllEmpty(b[1..]);
      assert |multiset(b[0])| == |b[0]|;
    }
  }

  lemma {:induction false} PouredHas(b: seq<seq<Event>>, e: Event)
    ensures e in Poured(b) <==> exists j: nat :: j < |b| && e in b[j]
  {
    if b != [] {
      PouredHas(b[1..], e);
      if j: nat :| j < |b| && e in b[j] {
        assert j > 0 ==> e in b[1..][j - 1];
      }
      if e in Poured(b[1..]) {
        var j: nat :| j < |b[1..]| && e in b[1..][j];
        assert e in b[j + 1];
      }
      if e in b[0] {
        assert 0 < |b|;
      }
    }
  }

  /** push_front into the right bucket; lastNonempty follows. */
  function Put(r: Rung, e: Event): Rung
    requires r.width > 0 && r.buckets != [] && e.body.ts >= r.start
  {
    var j := Slot(r, e.body.ts);
    r.(buckets := r.buckets[j := [e] + r.buckets[j]],
       lastNonempty := if r.lastNonempty < j + 1 then j + 1 else r.lastNonempty)
  }

  lemma PutKeepsOk(r: Rung, e: Event)
    requires RungOk(r) && e.body.ts >= r.start
    ensures RungOk(Put(r, e)) && Poured(Put(r, e).buckets) == Poured(r.buckets) + multiset{e}
    ensures |Put(r, e).buckets| == |r.buckets|
  {
    PutKeepsPlaced(r, e);
    PutKeepsLast(r, e);
    PutPours(r, e, Slot(r, e.body.ts));
    hide Slot, Poured, Placed, LastIsExact;
  }

  lemma PutKeepsPlaced(r: Rung, e: Event)
    requires Placed(r) && e.body.ts >= r.start
    ensures Placed(Put(r, e))
  {
    hide Slot;
    var r' := Put(r, e);
    forall k, x | 0 <= k < |r'.buckets| && x in r'.buckets[k]
      ensures InSlot(r', k, x)
    {
      SameSlots(r, r', x.body.ts);
      if x != e {
        assert x in r.buckets[k];
      }
    }
  }

  lemma PutKeepsLast(r: Rung, e: Event)
    requires LastIsExact(r) && r.width > 0 && r.buckets != [] && e.body.ts >= r.start
    ensures LastIsExact(Put(r, e))
  {
    hide Slot;
  }

  lemma PutPours(r: Rung, e: Event, j: nat)
    requires j < |r.buckets|
    ensures Poured(r.buckets[j := [e] + r.buckets[j]]) == Poured(r.buckets) + multiset{e}
  {
    PouredUpdate(r.buckets, j, [e] + r.buckets[j]);
    hide Poured;
    assert multiset([e] + r.buckets[j]) == multiset{e} + multiset(r.buckets[j]);
    Cancel(Poured(r.buckets[j := [e] + r.buckets[j]]), multiset(r.buckets[j]), Poured(r.buckets), multiset{e});
  }

  lemma SameSlots(r: Rung, r': Rung, ts: nat)
    requires r.width > 0 && r.buckets != [] && r'.width == r.width && r'.start == r.start && |r'.buckets| == |r.buckets|
    ensures ts >= r.start ==> Slot(r', ts) == Slot(r, ts)
  {
  }

  /** A rung that is no longer in use. */
  function Closed(r: Rung): Rung {
    r.(width := 0, lastNonempty := 0, start := 0, current := 0)
  }

  /** Bucket j is emptied. */
  function Without(r: Rung, j: nat): Rung
    requires j < |r.buckets|
  {
    r.(buckets := r.buckets[j := []])
  }

  lemma WithoutKeepsPlaced(r: Rung, j: nat)
    requires Placed(r) && j < |r.buckets|
    ensures Placed(Without(r, j)) && Poured(Without(r, j).buckets) + multiset(r.buckets[j]) == Poured(r.buckets)
  {
    PouredUpdate(r.buckets, j, []);
    var r' := Without(r, j);
    forall k, x | 0 <= k < |r'.buckets| && x in r'.buckets[k]
      ensures InSlot(r', k, x)
    {
      assert x in r.buckets[k];
      SameSlots(r, r', x.body.ts);
    }
  }

  ghost predicate FirstNonempty(buckets: seq<seq<Event>>, j: nat) {
    j < |buckets| && buckets[j] != [] && forall k :: 0 <= k < j ==> buckets[k] == []
  }

  /** Whatever is in the first bucket with events is earlier than the rest of the rung. */
  lemma FirstBucketIsEarliest(r: Rung, j: nat, x: Event, y: Event)
    requires Placed(r) && FirstNonempty(r.buckets, j)
    requires x in r.buckets[j] && y in Poured(Without(r, j).buckets)
    ensures x.body.ts < y.body.ts
  {
    PouredHas(Without(r, j).buckets, y);
    var k: nat :| k < |r.buckets| && y in Without(r, j).buckets[k];
    assert k > j && y in r.buckets[k];
    assert InSlot(r, j, x) && InSlot(r, k, y);
    SlotGrows(r, x.body.ts, y.body.ts);
  }

  /** The search for the first bucket with events. */
  method FindNonempty(buckets: seq<seq<Event>>, from: nat) returns (j: nat)
    requires from <= |buckets|
    ensures from <= j <= |buckets| && (j < |buckets| ==> buckets[j] != [])
    ensures forall k :: from <= k < j ==> buckets[k] == []
  {
    j := from;
    while j < |buckets| && buckets[j] == []
      invariant from <= j <= |buckets|
      invariant forall k :: from <= k < j ==> buckets[k] == []
    {
      j := j + 1;
    }
  }

  /** After bucket j of a rung went to the next rung: its current start and last bucket. */
  method Recalculate(r: Rung, j: nat) returns (r': Rung)
    requires Placed(r) && j < |r.buckets| && forall k :: 0 <= k <= j ==> r.buckets[k] == []
    ensures r' == r.(lastNonempty := r'.lastNonempty, current := r'.current) && RungOk(r')
    ensures if AllEmpty(r.buckets) then r'.current == r.start
            else exists k: nat :: FirstNonempty(r.buckets, k) && r'.current == BucketStart(r, k)
  {
    ghost var first := 0;
    var bucketFound, current, last := false, r.current, r.lastNonempty;
    for index := j + 1 to |r.buckets|
      invariant !bucketFound ==> forall k :: 0 <= k < index ==> r.buckets[k] == []
      invariant bucketFound ==> Aligned(r.(current := current)) && 0 < last <= index && r.buckets[last - 1] != []
      invariant bucketFound ==> forall k :: last <= k < index ==> r.buckets[k] == []
      invariant bucketFound ==> FirstNonempty(r.buckets, first) && current == BucketStart(r, first)
    {
      if r.buckets[index] != [] {
        if !bucketFound {
          bucketFound := true;
          first := index;
          current := BucketStart(r, index);
          AlignedAt(r.(current := current), index);
        }
        last := index + 1;
      }
    }
    if !bucketFound {
      last := 0;
      current := r.start;
      AlignedAt(r.(current := current), 0);
    }
    AlignedFrame(r.(current := current), r.(lastNonempty := last, current := current));
    r' := r.(lastNonempty := last, current := current);
    forall k, x | 0 <= k < |r'.buckets| && x in r'.buckets[k]
      ensures InSlot(r', k, x)
    {
      SameSlots(r, r', x.body.ts);
    }
  }

  // ------------------------------------------------------------------------------------------
  // All rungs
  // ------------------------------------------------------------------------------------------

  function Held(rungs: seq<Rung>): multiset<Event> {
    if rungs == [] then multiset{} else Poured(rungs[0].buckets) + Held(rungs[1..])
  }

  lemma {:induction false} HeldUpdate(rungs: seq<Rung>, i: nat, r: Rung)
    requires i < |rungs|
    ensures Held(rungs[i := r]) + Poured(rungs[i].buckets) == Held(rungs) + Poured(r.buckets)
  {
    if i == 0 {
      assert rungs[0 := r][1..] == rungs[1..];
    } else {
      HeldUpdate(rungs[1..], i - 1, r);
      assert rungs[i := r][1..] == rungs[1..][i - 1 := r];
      Exchange(Poured(rungs[0].buckets), Held(rungs[1..][i - 1 := r]), Held(rungs[1..]),
               Poured(rungs[i].buckets), Poured(r.buckets));
    }
  }

  /** A rung gains d. */
  lemma HeldGains(rungs: seq<Rung>, i: nat, r: Rung, d: multiset<Event>)
    requires i < |rungs| && Poured(r.buckets) == Poured(rungs[i].buckets) + d
    ensures Held(rungs[i := r]) == Held(rungs) + d
  {
    HeldUpdate(rungs, i, r);
    hide Held, Poured;
    assert Poured(r.buckets) == d + Poured(rungs[i].buckets);
    Cancel(Held(rungs[i := r]), Poured(rungs[i].buckets), Held(rungs), d);
  }

  lemma {:induction false} HeldEmpty(rungs: seq<Rung>)
    requires forall i :: 0 <= i < |rungs| ==> AllEmpty(rungs[i].buckets)
    ensures Held(rungs) == multiset{}
  {
    if rungs != [] {
      PouredEmpty(rungs[0].buckets);
      HeldEmpty(rungs[1..]);
    }
  }

  function Empties(n: nat): seq<seq<Event>> {
    seq(n, i => [])
  }

  /** The first nRung rungs are in use; the others are empty. */
  ghost predicate RungsOk(rungs: seq<Rung>, nRung: nat) {
    && |rungs| == MAX_RUNG_CNT && nRung <= MAX_RUNG_CNT
    && (forall i :: 0 < i < MAX_RUNG_CNT ==> |rungs[i].buckets| == MAX_BUCKET_CNT)
    && (forall i :: 0 <= i < nRung ==> RungOk(rungs[i]))
    && (forall i :: nRung <= i < MAX_RUNG_CNT ==> AllEmpty(rungs[i].buckets))
  }

  /** A rung loses d. */
  lemma HeldLoses(rungs: seq<Rung>, i: nat, r: Rung, d: multiset<Event>)
    requires i < |rungs| && Poured(r.buckets) + d == Poured(rungs[i].buckets)
    ensures Held(rungs[i := r]) + d == Held(rungs)
  {
    HeldGains(rungs[i := r], i, rungs[i], d);
    assert rungs[i := r][i := rungs[i]] == rungs;
  }

  /** All is well but perhaps for rung i, which is in use. */
  ghost predicate OthersOk(rungs: seq<Rung>, nRung: nat, i: nat) {
    && |rungs| == MAX_RUNG_CNT && i < nRung <= MAX_RUNG_CNT
    && (forall k :: 0 < k < MAX_RUNG_CNT ==> |rungs[k].buckets| == MAX_BUCKET_CNT)
    && (forall k :: 0 <= k < nRung && k != i ==> RungOk(rungs[k]))
    && (forall k :: nRung <= k < MAX_RUNG_CNT ==> AllEmpty(rungs[k].buckets))
  }

  lemma Apart(rungs: seq<Rung>, nRung: nat, i: nat)
    requires RungsOk(rungs, nRung) && i < nRung
    ensures OthersOk(rungs, nRung, i) && RungOk(rungs[i])
  {
    hide RungOk, AllEmpty;
  }

  lemma Together(rungs: seq<Rung>, nRung: nat, i: nat, r: Rung)
    requires OthersOk(rungs, nRung, i) && |r.buckets| == |rungs[i].buckets|
    ensures OthersOk(rungs[i := r], nRung, i)
    ensures RungOk(r) ==> RungsOk(rungs[i := r], nRung)
    ensures i == nRung - 1 && AllEmpty(r.buckets) ==> RungsOk(rungs[i := r], nRung - 1)
  {
    hide RungOk, AllEmpty;
  }

  /** The last rung in use is given up. */
  lemma CloseKeepsRungs(rungs: seq<Rung>, nRung: nat)
    requires RungsOk(rungs, nRung) && nRung > 0 && AllEmpty(rungs[nRung - 1].buckets)
    ensures var rungs' := rungs[nRung - 1 := Closed(rungs[nRung - 1])];
            RungsOk(rungs', nRung - 1) && Held(rungs') == Held(rungs)
  {
    Apart(rungs, nRung, nRung - 1);
    hide RungsOk, OthersOk, RungOk, AllEmpty, Held, Poured;
    HeldGains(rungs, nRung - 1, Closed(rungs[nRung - 1]), multiset{});
    Together(rungs, nRung, nRung - 1, Closed(rungs[nRung - 1]));
  }

  /** A new rung comes into use. */
  lemma OpenKeepsRungs(rungs: seq<Rung>, nRung: nat, r: Rung)
    requires RungsOk(rungs, nRung) && nRung < MAX_RUNG_CNT && AllEmpty(r.buckets)
    requires r.width > 0 && r.buckets != [] && r.lastNonempty == 0 && r.start == r.current
    requires nRung > 0 ==> |r.buckets| == MAX_BUCKET_CNT
    ensures RungsOk(rungs[nRung := r], nRung + 1) && Held(rungs[nRung := r]) == Held(rungs)
  {
    PouredEmpty(r.buckets);
    PouredEmpty(rungs[nRung].buckets);
    AlignedAt(r, 0);
    assert RungOk(r);
    hide RungOk, AllEmpty, Held, Poured;
    HeldGains(rungs, nRung, r, multiset{});
    assert RungsOk(rungs[nRung := r], nRung + 1);
  }

  /** Bucket j of a rung was emptied, as were all before it; lastNonempty is not adjusted yet. */
  ghost predicate OpenAt(r: Rung, j: nat) {
    && Placed(r) && Aligned(r)
    && j < r.lastNonempty <= |r.buckets|
    && (forall k :: 0 <= k <= j ==> r.buckets[k] == [])
    && (r.lastNonempty > j + 1 ==> r.buckets[r.lastNonempty - 1] != [])
    && (forall k :: r.lastNonempty <= k < |r.buckets| ==> r.buckets[k] == [])
  }

  lemma WithoutIsOpen(rungs: seq<Rung>, nRung: nat, i: nat, j: nat)
    requires RungsOk(rungs, nRung) && i < nRung && FirstNonempty(rungs[i].buckets, j)
    ensures var r := rungs[i];
            && OthersOk(rungs[i := Without(r, j)], nRung, i) && OpenAt(Without(r, j), j)
            && Held(rungs[i := Without(r, j)]) + multiset(r.buckets[j]) == Held(rungs)
  {
    var r := rungs[i];
    Apart(rungs, nRung, i);
    WithoutIsOpenAt(r, j);
    WithoutKeepsPlaced(r, j);
    hide RungsOk, OthersOk, RungOk, OpenAt, Placed, Held, Poured;
    HeldLoses(rungs, i, Without(r, j), multiset(r.buckets[j]));
    Together(rungs, nRung, i, Without(r, j));
  }

  lemma WithoutIsOpenAt(r: Rung, j: nat)
    requires RungOk(r) && FirstNonempty(r.buckets, j)
    ensures OpenAt(Without(r, j), j)
  {
    WithoutKeepsPlaced(r, j);
    AlignedFrame(r, Without(r, j));
    hide Placed, Aligned;
  }

  lemma ClearedIsOk(rungs: seq<Rung>, nRung: nat, i: nat, j: nat, r: Rung)
    requires RungsOk(rungs, nRung) && i < nRung && FirstNonempty(rungs[i].buckets, j)
    requires RungOk(r) && r.buckets == Without(rungs[i], j).buckets
    ensures RungsOk(rungs[i := r], nRung) && Held(rungs[i := r]) + multiset(rungs[i].buckets[j]) == Held(rungs)
  {
    Apart(rungs, nRung, i);
    WithoutKeepsPlaced(rungs[i], j);
    hide RungsOk, OthersOk, RungOk, Placed, Held, Poured;
    HeldLoses(rungs, i, r, multiset(rungs[i].buckets[j]));
    Together(rungs, nRung, i, r);
  }

  lemma CloseOpenRung(rungs: seq<Rung>, nRung: nat, j: nat)
    requires nRung > 0 && OthersOk(rungs, nRung, nRung - 1)
    requires OpenAt(rungs[nRung - 1], j) && rungs[nRung - 1].lastNonempty == j + 1
    ensures var rungs' := rungs[nRung - 1 := Closed(rungs[nRung - 1])];
            RungsOk(rungs', nRung - 1) && Held(rungs') == Held(rungs)
  {
    assert AllEmpty(rungs[nRung - 1].buckets);
    hide RungsOk, OthersOk, RungOk, OpenAt, Placed, Held, Poured, AllEmpty;
    HeldGains(rungs, nRung - 1, Closed(rungs[nRung - 1]), multiset{});
    Together(rungs, nRung, nRung - 1, Closed(rungs[nRung - 1]));
  }

  lemma AdjustOpenRung(rungs: seq<Rung>, nRung: nat, i: nat, j: nat, current: nat)
    requires OthersOk(rungs, nRung, i) && OpenAt(rungs[i], j)
    requires rungs[i].lastNonempty > j + 1 && Aligned(rungs[i].(current := current))
    ensures var rungs' := rungs[i := rungs[i].(current := current)];
            RungsOk(rungs', nRung) && Held(rungs') == Held(rungs)
  {
    var r := rungs[i].(current := current);
    MovedIsOk(rungs[i], current);
    assert RungOk(r);
    hide RungsOk, OthersOk, RungOk, OpenAt, Placed, Held, Poured;
    HeldGains(rungs, i, r, multiset{});
    Together(rungs, nRung, i, r);
  }

  /** The next bucket with events is the first one now. */
  lemma AdvancedIsOk(rungs: seq<Rung>, nRung: nat, j: nat, next: nat)
    requires 0 < nRung && OthersOk(rungs, nRung, nRung - 1) && OpenAt(rungs[nRung - 1], j)
    requires j < next < rungs[nRung - 1].lastNonempty && rungs[nRung - 1].buckets[next] != []
    requires var r := rungs[nRung - 1]; forall k :: j < k < next ==> r.buckets[k] == []
    ensures var r := rungs[nRung - 1];
            var q := r.(current := BucketStart(r, next));
            && RungsOk(rungs[nRung - 1 := q], nRung) && Held(rungs[nRung - 1 := q]) == Held(rungs)
            && RungOk(q) && Restarted(q)
  {
    var r := rungs[nRung - 1];
    var q := r.(current := BucketStart(r, next));
    AlignedAt(q, next);
    RestartedAt(r, q, next);
    hide Placed, Aligned, Held, Poured, OthersOk, Restarted;
    AdjustOpenRung(rungs, nRung, nRung - 1, j, q.current);
    RungHas(rungs[nRung - 1 := q], nRung, nRung - 1);
  }

  lemma ProbedAt(r: Rung, j: nat)
    requires r.width > 0 && r.buckets != [] && j <= |r.buckets| && forall k :: 0 <= k < j ==> r.buckets[k] == []
    requires j < |r.buckets| ==> r.buckets[j] != []
    ensures var q := r.(current := if j < |r.buckets| then BucketStart(r, j) else r.start);
            && Aligned(q)
            && if j == |r.buckets| then AllEmpty(q.buckets) else FirstNonempty(q.buckets, j) && q.current == BucketStart(q, j)
  {
    hide Aligned;
    AlignedAt(r.(current := if j < |r.buckets| then BucketStart(r, j) else r.start), if j < |r.buckets| then j else 0);
  }

  /** r_current_ may be moved. */
  lemma MovedIsOk(r: Rung, current: nat)
    requires Placed(r) && Aligned(r.(current := current))
    ensures Placed(r.(current := current))
    ensures LastIsExact(r) ==> RungOk(r.(current := current))
  {
    var r' := r.(current := current);
    forall k, x | 0 <= k < |r'.buckets| && x in r'.buckets[k]
      ensures InSlot(r', k, x)
    {
      SameSlots(r, r', x.body.ts);
    }
  }

  lemma MoveCurrent(rungs: seq<Rung>, nRung: nat, i: nat, current: nat)
    requires RungsOk(rungs, nRung) && i < nRung && rungs[i].width > 0 && rungs[i].buckets != []
    requires Aligned(rungs[i].(current := current))
    ensures var rungs' := rungs[i := rungs[i].(current := current)];
            RungsOk(rungs', nRung) && Held(rungs') == Held(rungs)
  {
    var r := rungs[i].(current := current);
    Apart(rungs, nRung, i);
    MovedIsOk(rungs[i], current);
    hide RungsOk, OthersOk, RungOk, Held, Poured;
    HeldGains(rungs, i, r, multiset{});
    Together(rungs, nRung, i, r);
  }

  // ------------------------------------------------------------------------------------------
  // The queue
  // ------------------------------------------------------------------------------------------

  datatype Outcome = Created | WidthIsStatic | TooManyRungs

  datatype Found = NoBucket | Bucket(index: nat) | Overflow

  /** What begin() returns, or the failure of the assertion that a ninth rung is not needed. */
  datatype Front = Nothing | First(event: Event) | AssertionFailed

  /** Only buckets and lastNonempty differ. */
  predicate SameFrame(r: Rung, r': Rung) {
    r.width == r'.width && r.start == r'.start && r.current == r'.current && |r.buckets| == |r'.buckets|
  }

  lemma RungsHave(rungs: seq<Rung>, nRung: nat)
    requires RungsOk(rungs, nRung)
    ensures |rungs| == MAX_RUNG_CNT && nRung <= MAX_RUNG_CNT
    ensures nRung > 0 ==> RungOk(rungs[nRung - 1]) && rungs[nRung - 1].width > 0 && rungs[nRung - 1].buckets != []
    ensures nRung < MAX_RUNG_CNT ==> AllEmpty(rungs[nRung].buckets) && (nRung > 0 ==> |rungs[nRung].buckets| == MAX_BUCKET_CNT)
    ensures nRung == 0 ==> Held(rungs) == multiset{}
  {
    if nRung == 0 {
      HeldEmpty(rungs);
    }
  }

  lemma RungHas(rungs: seq<Rung>, nRung: nat, i: nat)
    requires RungsOk(rungs, nRung) && i < nRung
    ensures |rungs| == MAX_RUNG_CNT && RungOk(rungs[i]) && rungs[i].width > 0 && rungs[i].buckets != []
    ensures rungs[i].start <= rungs[i].current
  {
  }

  lemma PutKeepsFrame(r: Rung, e: Event)
    requires r.width > 0 && r.buckets != [] && e.body.ts >= r.start
    ensures SameFrame(Put(r, e), r)
  {
    hide Slot;
  }

  lemma PutIntoRungs(rungs: seq<Rung>, nRung: nat, i: nat, e: Event)
    requires RungsOk(rungs, nRung) && i < nRung && e.body.ts >= rungs[i].start
    ensures rungs[i].width > 0 && rungs[i].buckets != []
    ensures var r := Put(rungs[i], e);
            && RungsOk(rungs[i := r], nRung) && SameFrame(r, rungs[i])
            && Held(rungs[i := r]) == Held(rungs) + multiset{e}
            && Poured(r.buckets) == Poured(rungs[i].buckets) + multiset{e}
  {
    RungHas(rungs, nRung, i);
    PutKeepsOk(rungs[i], e);
    PutKeepsFrame(rungs[i], e);
    Apart(rungs, nRung, i);
    hide RungOk, Held, Poured, RungsOk, OthersOk, Slot, Put;
    var r := Put(rungs[i], e);
    HeldGains(rungs, i, r, multiset{e});
    Together(rungs, nRung, i, r);
  }

  lemma AtLeastOne(x: nat, n: nat)
    requires x >= n > 0
    ensures x / n >= 1
  {
    DivisionGrows(n, x, n);
  }

  /** The events of a bucket are not before its start. */
  lemma BucketStartsEarly(r: Rung, j: nat)
    requires Placed(r) && j < |r.buckets|
    ensures forall e :: e in r.buckets[j] ==> e.body.ts >= BucketStart(r, j)
  {
    forall e | e in r.buckets[j]
      ensures e.body.ts >= BucketStart(r, j)
    {
      assert InSlot(r, j, e);
      SlotStartsEarly(r, e.body.ts);
    }
  }

  ghost predicate Overflows(r: Rung) {
    r.width > MIN_BUCKET_WIDTH && exists j: nat :: FirstNonempty(r.buckets, j) && |r.buckets[j]| > THRESHOLD
  }

  /** The width of n buckets that cover a range, rounded up. */
  function RungWidth(range: nat, n: nat): (w: nat)
    requires n > 0
    ensures w >= MIN_BUCKET_WIDTH
  {
    if range == 0 then MIN_BUCKET_WIDTH
    else
      AtLeastOne(range + n - 1, n);
      (range + n - 1) / n
  }

  /** The width of n buckets that cover a range, but at least the least width. */
  function BottomWidth(range: nat, n: nat): (w: nat)
    requires n > 0
    ensures w >= MIN_BUCKET_WIDTH
  {
    if range / n < MIN_BUCKET_WIDTH then MIN_BUCKET_WIDTH else range / n
  }

  /** The buckets of a rung cover the range, and narrower ones would not; buckets made for a transfer
      from bottom are as wide as fits into the range. */
  lemma WidthsAreExact(range: nat, n: nat)
    requires n > 0
    ensures range <= RungWidth(range, n) * n && (range > 0 ==> (RungWidth(range, n) - 1) * n < range)
    ensures BottomWidth(range, n) > 1 ==> BottomWidth(range, n) * n <= range
    ensures range < (BottomWidth(range, n) + 1) * n
  {
    var w, v := (range + n - 1) / n, range / n;
    assert range + n - 1 == w * n + (range + n - 1) % n;
    assert range == v * n + range % n;
    assert (w - 1) * n == w * n - n && (v + 1) * n == v * n + n && (1 + 1) * n == n + n;
  }

  /** A bucket that is not the last one holds the times from its start to the next one's. */
  lemma SlotIsExact(r: Rung, ts: nat)
    requires r.width > 0 && r.buckets != [] && ts >= r.start
    ensures var j := Slot(r, ts);
            BucketStart(r, j) <= ts && (j + 1 < |r.buckets| ==> ts < BucketStart(r, j + 1))
  {
    SlotStartsEarly(r, ts);
    var j := (ts - r.start) / r.width;
    assert ts - r.start == j * r.width + (ts - r.start) % r.width && (j + 1) * r.width == j * r.width + r.width;
  }

  // ------------------------------------------------------------------------------------------
  // The order of rungs and bottom
  // ------------------------------------------------------------------------------------------

  ghost predicate Precedes(a: multiset<Event>, b: multiset<Event>) {
    forall x, y :: x in a && y in b ==> x.body.ts < y.body.ts
  }

  /** Whatever is in a later rung or in bottom is earlier than what the rungs before it hold. */
  ghost predicate InOrder(rungs: seq<Rung>, nRung: nat, bottom: seq<Event>) {
    && nRung <= |rungs|
    && (forall i, j :: 0 <= i < j < nRung ==> Precedes(Poured(rungs[j].buckets), Poured(rungs[i].buckets)))
    && (forall i :: 0 <= i < nRung ==> Precedes(multiset(bottom), Poured(rungs[i].buckets)))
  }

  /** Only the events count, and rungs at the end may be given up. */
  lemma OrderStays(was: seq<Rung>, n: nat, now: seq<Rung>, n': nat, bottom: seq<Event>)
    requires InOrder(was, n, bottom) && n' <= n && n' <= |now| && forall k :: 0 <= k < n' ==> now[k].buckets == was[k].buckets
    ensures InOrder(now, n', bottom)
  {
    hide Precedes, Poured;
  }

  lemma StaysOrdered(was: seq<Rung>, n: nat, now: seq<Rung>, n': nat, bottom: seq<Event>)
    requires n' <= n <= |was| && n' <= |now| && forall k :: 0 <= k < n' ==> now[k].buckets == was[k].buckets
    ensures InOrder(was, n, bottom) ==> InOrder(now, n', bottom)
  {
    if InOrder(was, n, bottom) {
      OrderStays(was, n, now, n', bottom);
    }
  }

  lemma MovedStaysOrdered(rungs: seq<Rung>, n: nat, i: nat, r: Rung, bottom: seq<Event>)
    requires i < n <= |rungs| && r.buckets == rungs[i].buckets
    ensures InOrder(rungs, n, bottom) ==> InOrder(rungs[i := r], n, bottom)
  {
    hide InOrder;
    StaysOrdered(rungs, n, rungs[i := r], n, bottom);
  }

  lemma OpenedStaysOrdered(rungs: seq<Rung>, n: nat, r: Rung, bottom: seq<Event>)
    requires n < |rungs|
    ensures InOrder(rungs, n, bottom) ==> InOrder(rungs[n := r], n, bottom)
  {
    hide InOrder;
    StaysOrdered(rungs, n, rungs[n := r], n, bottom);
  }

  lemma OneRungIsOrdered(rungs: seq<Rung>)
    requires rungs != []
    ensures InOrder(rungs, 1, [])
  {
    NothingPrecedes(Poured(rungs[0].buckets));
    hide Poured, Precedes;
  }

  lemma PartsPrecede(a: multiset<Event>, a': multiset<Event>, b: multiset<Event>, b': multiset<Event>)
    requires Precedes(a, b) && a' <= a && b' <= b
    ensures Precedes(a', b')
  {
  }

  lemma NothingPrecedes(b: multiset<Event>)
    ensures Precedes(multiset{}, b) && Precedes(b, multiset{})
  {
  }

  lemma FirstSplitsOff(r: Rung, j: nat)
    requires RungOk(r) && FirstNonempty(r.buckets, j)
    ensures var first, rest, all := multiset(r.buckets[j]), Poured(Without(r, j).buckets), Poured(r.buckets);
            first <= all && rest <= all && Precedes(first, rest)
  {
    WithoutKeepsPlaced(r, j);
    PouredIsEarliest(r, j);
    hide RungOk, Poured;
    var first, rest, all := multiset(r.buckets[j]), Poured(Without(r, j).buckets), Poured(r.buckets);
    assert rest + first == all;
    forall e
      ensures first[e] <= all[e] && rest[e] <= all[e]
    {
      assert (rest + first)[e] == all[e];
    }
  }

  /** A part of the last rung precedes the rungs before it. */
  lemma PartIsLast(rungs: seq<Rung>, n: nat, part: multiset<Event>)
    requires InOrder(rungs, n, []) && n > 0 && part <= Poured(rungs[n - 1].buckets)
    ensures forall k :: 0 <= k < n - 1 ==> Precedes(part, Poured(rungs[k].buckets))
  {
    hide Poured, Precedes;
    forall k | 0 <= k < n - 1
      ensures Precedes(part, Poured(rungs[k].buckets))
    {
      PartsPrecede(Poured(rungs[n - 1].buckets), part, Poured(rungs[k].buckets), Poured(rungs[k].buckets));
    }
  }

  /** The first bucket with events goes to a new rung ... */
  lemma SplitKeepsOrder(was: seq<Rung>, now: seq<Rung>, n: nat, j: nat)
    requires 0 < n < |was| && n < |now| && RungOk(was[n - 1]) && FirstNonempty(was[n - 1].buckets, j)
    requires InOrder(was, n, []) && forall k :: 0 <= k < n - 1 ==> now[k].buckets == was[k].buckets
    requires now[n - 1].buckets == Without(was[n - 1], j).buckets && Poured(now[n].buckets) == multiset(was[n - 1].buckets[j])
    ensures InOrder(now, n + 1, [])
  {
    hide RungOk, FirstNonempty, Without, Poured, Precedes;
    FirstSplitsOff(was[n - 1], j);
    PartIsLast(was, n, Poured(now[n - 1].buckets));
    PartIsLast(was, n, Poured(now[n].buckets));
    forall i, k | 0 <= i < k < n + 1
      ensures Precedes(Poured(now[k].buckets), Poured(now[i].buckets))
    {
      if k < n - 1 {
        assert Precedes(Poured(was[k].buckets), Poured(was[i].buckets));
      }
    }
    forall k | 0 <= k < n + 1
      ensures Precedes(multiset([]), Poured(now[k].buckets))
    {
      NothingPrecedes(Poured(now[k].buckets));
    }
  }

  /** ... or to bottom. */
  lemma PourKeepsOrder(was: seq<Rung>, now: seq<Rung>, n: nat, j: nat, bottom: seq<Event>)
    requires 0 < n <= |was| && n <= |now| && RungOk(was[n - 1]) && FirstNonempty(was[n - 1].buckets, j)
    requires InOrder(was, n, []) && forall k :: 0 <= k < n - 1 ==> now[k].buckets == was[k].buckets
    requires now[n - 1].buckets == Without(was[n - 1], j).buckets && multiset(bottom) == multiset(was[n - 1].buckets[j])
    ensures InOrder(now, n, bottom)
  {
    hide RungOk, FirstNonempty, Without, Poured, Precedes;
    FirstSplitsOff(was[n - 1], j);
    PartIsLast(was, n, Poured(now[n - 1].buckets));
    PartIsLast(was, n, multiset(bottom));
    forall i, k | 0 <= i < k < n
      ensures Precedes(Poured(now[k].buckets), Poured(now[i].buckets))
    {
      if k < n - 1 {
        assert Precedes(Poured(was[k].buckets), Poured(was[i].buckets));
      }
    }
  }

  /** In order, the first event of bottom is a least one of all. */
  lemma FirstIsLeast(rungs: seq<Rung>, nRung: nat, bottom: seq<Event>, x: Event)
    requires RungsOk(rungs, nRung) && InOrder(rungs, nRung, bottom) && WeaklySorted(bottom) && bottom != []
    requires x in Held(rungs) + multiset(bottom)
    ensures !Before(x, bottom[0])
  {
    FirstIsEarliest(bottom);
    if x in Held(rungs) {
      var i := RungOf(rungs, x);
      PouredHas(rungs[i].buckets, x);
      if i < nRung {
        assert Precedes(multiset(bottom), Poured(rungs[i].buckets)) && bottom[0] in multiset(bottom);
      }
    }
  }

  lemma {:induction false} RungOf(rungs: seq<Rung>, x: Event) returns (i: nat)
    requires x in Held(rungs)
    ensures i < |rungs| && x in Poured(rungs[i].buckets)
  {
    if x in Poured(rungs[0].buckets) {
      i := 0;
    } else {
      i := RungOf(rungs[1..], x);
      i := i + 1;
    }
  }

  /** The first rung in use whose current start is not later, or the number of rungs. */
  function Chosen(rungs: seq<Rung>, nRung: nat, ts: nat): (r: nat)
    requires nRung <= |rungs|
    ensures r <= nRung && (r < nRung ==> rungs[r].current <= ts)
    ensures forall i :: 0 <= i < r ==> ts < rungs[i].current
  {
    if nRung == 0 then 0
    else
      var r := Chosen(rungs, nRung - 1, ts);
      if r < nRung - 1 || rungs[r].current <= ts then r else nRung
  }

  lemma {:induction false} ChosenIsFirst(rungs: seq<Rung>, nRung: nat, ts: nat, r: nat)
    requires r <= nRung <= |rungs| && (r < nRung ==> rungs[r].current <= ts) && forall i :: 0 <= i < r ==> ts < rungs[i].current
    ensures r == Chosen(rungs, nRung, ts)
  {
    if nRung > 0 {
      ChosenIsFirst(rungs, nRung - 1, ts, if r < nRung then r else nRung - 1);
    }
  }

  lemma RungOrder(was: seq<Rung>, now: seq<Rung>, n: nat, bottom: seq<Event>, r: nat, e: Event)
    requires r < n <= |was| == |now| && forall k :: 0 <= k < |was| && k != r ==> now[k] == was[k]
    requires Poured(now[r].buckets) == Poured(was[r].buckets) + multiset{e}
    ensures InOrder(was, n, bottom) ==> (InOrder(now, n, bottom) <==> Fits(was, n, bottom, r, e))
  {
    hide InOrder, Fits, Poured;
    if InOrder(was, n, bottom) {
      OrderWithRung(was, now, n, bottom, r, e);
    }
  }

  lemma BottomOrder(rungs: seq<Rung>, n: nat, bottom: seq<Event>, bottom': seq<Event>, e: Event)
    requires multiset(bottom') == multiset(bottom) + multiset{e}
    ensures InOrder(rungs, n, bottom) ==> (InOrder(rungs, n, bottom') <==> Fits(rungs, n, bottom, n, e))
  {
    hide InOrder, Fits, Poured;
    if InOrder(rungs, n, bottom) {
      OrderWithBottom(rungs, n, bottom, bottom', e);
    }
  }

  /** Where an event belongs: after all that is in later rungs and in bottom, before all that is in
      earlier rungs; r is the number of rungs for bottom, or for a new rung that takes over bottom. */
  ghost predicate Fits(rungs: seq<Rung>, nRung: nat, bottom: seq<Event>, r: nat, e: Event) {
    && nRung <= |rungs|
    && (forall i :: 0 <= i < r && i < nRung ==> Precedes(multiset{e}, Poured(rungs[i].buckets)))
    && (forall i :: r < i < nRung ==> Precedes(Poured(rungs[i].buckets), multiset{e}))
    && (r < nRung ==> Precedes(multiset(bottom), multiset{e}))
  }

  lemma MorePrecede(a: multiset<Event>, b: multiset<Event>, e: Event)
    ensures Precedes(a + multiset{e}, b) <==> Precedes(a, b) && Precedes(multiset{e}, b)
    ensures Precedes(b, a + multiset{e}) <==> Precedes(b, a) && Precedes(b, multiset{e})
  {
    forall x, y | Precedes(a + multiset{e}, b) && x in a && y in b
      ensures x.body.ts < y.body.ts
    {
      assert x in a + multiset{e};
    }
    forall x, y | Precedes(b, a + multiset{e}) && x in b && y in a
      ensures x.body.ts < y.body.ts
    {
      assert y in a + multiset{e};
    }
    assert e in a + multiset{e};
    assert forall y | Precedes(a + multiset{e}, b) && y in b :: e.body.ts < y.body.ts;
    assert forall x | Precedes(b, a + multiset{e}) && x in b :: x.body.ts < e.body.ts;
  }

  /** An event in a rung keeps the order exactly if it fits there. */
  lemma OrderWithRung(was: seq<Rung>, now: seq<Rung>, n: nat, bottom: seq<Event>, r: nat, e: Event)
    requires InOrder(was, n, bottom) && r < n <= |now| && forall k :: 0 <= k < n && k != r ==> now[k].buckets == was[k].buckets
    requires Poured(now[r].buckets) == Poured(was[r].buckets) + multiset{e}
    ensures InOrder(now, n, bottom) <==> Fits(was, n, bottom, r, e)
  {
    hide Poured, Precedes;
    forall k | 0 <= k < n
      ensures Precedes(Poured(now[r].buckets), Poured(was[k].buckets)) <==>
              Precedes(Poured(was[r].buckets), Poured(was[k].buckets)) && Precedes(multiset{e}, Poured(was[k].buckets))
      ensures Precedes(Poured(was[k].buckets), Poured(now[r].buckets)) <==>
              Precedes(Poured(was[k].buckets), Poured(was[r].buckets)) && Precedes(Poured(was[k].buckets), multiset{e})
    {
      MorePrecede(Poured(was[r].buckets), Poured(was[k].buckets), e);
    }
    MorePrecede(Poured(was[r].buckets), multiset(bottom), e);
    if InOrder(now, n, bottom) {
      forall i | 0 <= i < r
        ensures Precedes(multiset{e}, Poured(was[i].buckets))
      {
        assert Precedes(Poured(now[r].buckets), Poured(now[i].buckets));
      }
      forall i | r < i < n
        ensures Precedes(Poured(was[i].buckets), multiset{e})
      {
        assert Precedes(Poured(now[i].buckets), Poured(now[r].buckets));
      }
    }
  }

  /** So it is in bottom ... */
  lemma OrderWithBottom(rungs: seq<Rung>, n: nat, bottom: seq<Event>, bottom': seq<Event>, e: Event)
    requires InOrder(rungs, n, bottom) && multiset(bottom') == multiset(bottom) + multiset{e}
    ensures InOrder(rungs, n, bottom') <==> Fits(rungs, n, bottom, n, e)
  {
    hide Poured, Precedes;
    forall k | 0 <= k < n
      ensures Precedes(multiset(bottom'), Poured(rungs[k].buckets)) <==>
              Precedes(multiset(bottom), Poured(rungs[k].buckets)) && Precedes(multiset{e}, Poured(rungs[k].buckets))
    {
      MorePrecede(multiset(bottom), Poured(rungs[k].buckets), e);
    }
  }

  /** ... and in a new rung that takes over bottom. */
  lemma OrderWithNewRung(was: seq<Rung>, now: seq<Rung>, n: nat, bottom: seq<Event>, e: Event)
    requires InOrder(was, n, bottom) && n < |now| && forall k :: 0 <= k < n ==> now[k].buckets == was[k].buckets
    requires Poured(now[n].buckets) == multiset(bottom) + multiset{e}
    ensures InOrder(now, n + 1, []) <==> Fits(was, n, bottom, n, e)
  {
    hide Poured, Precedes;
    forall k | 0 <= k < n
      ensures Precedes(Poured(now[n].buckets), Poured(was[k].buckets)) <==>
              Precedes(multiset(bottom), Poured(was[k].buckets)) && Precedes(multiset{e}, Poured(was[k].buckets))
    {
      MorePrecede(multiset(bottom), Poured(was[k].buckets), e);
    }
    forall k | 0 <= k < n + 1
      ensures Precedes(multiset([]), Poured(now[k].buckets))
    {
      NothingPrecedes(Poured(now[k].buckets));
    }
    if InOrder(now, n + 1, []) {
      forall i | 0 <= i < n
        ensures Precedes(multiset{e}, Poured(was[i].buckets))
      {
        assert Precedes(Poured(now[n].buckets), Poured(now[i].buckets));
      }
    }
  }

  // ------------------------------------------------------------------------------------------
  // When eight rungs are not enough
  // ------------------------------------------------------------------------------------------

  ghost predicate AllFrom(list: seq<Event>, start: nat) {
    forall e :: e in list ==> e.body.ts >= start
  }

  /** The events of a list are put into a rung, one after the other. */
  ghost function PutAll(r: Rung, list: seq<Event>): (r': Rung)
    requires r.width > 0 && r.buckets != [] && AllFrom(list, r.start)
    ensures SameFrame(r', r)
  {
    if list == [] then r
    else
      var e, before := list[|list| - 1], list[..|list| - 1];
      assert e in list && forall x :: x in before ==> x in list;
      PutKeepsFrame(PutAll(r, before), e);
      Put(PutAll(r, before), e)
  }

  /** Events for the start of a rung go to its first bucket. */
  lemma {:induction false} AllAtStart(r: Rung, list: seq<Event>)
    requires r.width > 0 && r.buckets != [] && forall e :: e in list ==> e.body.ts == r.start
    ensures |PutAll(r, list).buckets[0]| == |r.buckets[0]| + |list|
  {
    if list != [] {
      var e, before := list[|list| - 1], list[..|list| - 1];
      assert e in list && forall x :: x in before ==> x in list;
      AllAtStart(r, before);
      PutAtStart(PutAll(r, before), e);
      hide Put;
    }
  }

  lemma PutAtStart(r: Rung, e: Event)
    requires r.width > 0 && r.buckets != [] && e.body.ts == r.start
    ensures |Put(r, e).buckets| == |r.buckets| && |Put(r, e).buckets[0]| == |r.buckets[0]| + 1
  {
    assert Slot(r, e.body.ts) == 0;
  }

  /** A rung for the events of bottom and one more: it starts with the first of them, and if all are for
      one time they share its first bucket. */
  predicate FromBottom(r: Rung, bottom: seq<Event>, event: Event) {
    && bottom != [] && r.start == r.current == Min(bottom[0].body.ts, event.body.ts)
    && ((forall e :: e in bottom ==> e.body.ts == event.body.ts) ==>
          r.buckets != [] && |r.buckets[0]| == |bottom| + 1)
  }

  /** Such a rung is the next in use; it covers the time up to the rung before it, or up to top. */
  ghost predicate Transferred(was: seq<Rung>, now: seq<Rung>, n: nat, bottom: seq<Event>, event: Event, topStart: nat) {
    && |was| == |now| == MAX_RUNG_CNT && n < MAX_RUNG_CNT
    && (forall k :: 0 <= k < n ==> now[k] == was[k])
    && FromBottom(now[n], bottom, event) && Poured(now[n].buckets) == multiset(bottom) + multiset{event}
    && (n == 0 ==> now[0].start <= topStart && now[0].width == BottomWidth(topStart - now[0].start, |bottom|))
    && (n > 0 ==> now[n].start <= was[n - 1].current
                  && now[n].width == BottomWidth(was[n - 1].current - now[n].start, THRESHOLD))
  }

  /** What transferBottom makes of a new rung. */
  lemma TransferredRung(r: Rung, bottom: seq<Event>, event: Event, p: Rung)
    requires r.width > 0 && r.buckets != [] && AllEmpty(r.buckets) && r.start == r.current && bottom != []
    requires AllFrom(bottom, r.start) && event.body.ts >= r.start && p == Put(PutAll(r, bottom), event)
    requires r.start == Min(bottom[0].body.ts, event.body.ts)
    ensures p.width == r.width && p.start == r.start && FromBottom(p, bottom, event)
  {
    PutKeepsFrame(PutAll(r, bottom), event);
    if forall e :: e in bottom ==> e.body.ts == event.body.ts == r.start {
      AllAtStart(r, bottom);
      assert bottom[0] in bottom;
      PutAtStart(PutAll(r, bottom), event);
    }
  }

  lemma TransferIsDone(was: seq<Rung>, now: seq<Rung>, n: nat, bottom: seq<Event>, event: Event, topStart: nat)
    requires |was| == |now| == MAX_RUNG_CNT && n < MAX_RUNG_CNT && FromBottom(now[n], bottom, event)
    requires Poured(now[n].buckets) == (multiset{} + multiset(bottom)) + multiset{event}
    requires forall k :: 0 <= k < MAX_RUNG_CNT && k != n ==> now[k] == was[k]
    requires event.body.ts <= topStart && (n > 0 ==> event.body.ts < was[n - 1].current)
    requires now[n].start <= event.body.ts
    requires now[n].width == if n == 0 then BottomWidth(topStart - now[n].start, |bottom|)
                             else BottomWidth(was[n - 1].current - now[n].start, THRESHOLD)
    ensures Transferred(was, now, n, bottom, event, topStart)
  {
    assert multiset{} + multiset(bottom) == multiset(bottom);
    hide Poured, FromBottom;
  }

  /** Where an event goes that is not for top: to the first rung that has not passed its time, or else
      to bottom, which a new rung takes over if it is full and there is one.  Order is kept exactly if
      it fits there. */
  ghost predicate InsertedNear(was: Ladder, now: Ladder, e: Event, topStart: nat) {
    && was.nRung <= |was.rungs| == |now.rungs| == MAX_RUNG_CNT
    && var r := Chosen(was.rungs, was.nRung, e.body.ts);
    && (if r < was.nRung then
          && was.rungs[r].width > 0 && was.rungs[r].buckets != [] && e.body.ts >= was.rungs[r].start
          && now == was.(rungs := was.rungs[r := Put(was.rungs[r], e)])
        else if |was.bottom| < THRESHOLD || was.nRung == MAX_RUNG_CNT then
          now == was.(bottom := Insert(was.bottom, e))
        else
          && now.nRung == was.nRung + 1 && now.bottom == []
          && Transferred(was.rungs, now.rungs, was.nRung, was.bottom, e, topStart))
    && (InOrder(was.rungs, was.nRung, was.bottom) ==>
          (InOrder(now.rungs, now.nRung, now.bottom) <==> Fits(was.rungs, was.nRung, was.bottom, r, e)))
  }

  lemma InsertedAtRung(was: Ladder, now: Ladder, r: nat, e: Event, topStart: nat)
    requires r < was.nRung <= |was.rungs| == MAX_RUNG_CNT && r == Chosen(was.rungs, was.nRung, e.body.ts)
    requires was.rungs[r].width > 0 && was.rungs[r].buckets != [] && e.body.ts >= was.rungs[r].start
    requires now == was.(rungs := was.rungs[r := Put(was.rungs[r], e)])
    requires InOrder(was.rungs, was.nRung, was.bottom) ==>
               (InOrder(now.rungs, now.nRung, now.bottom) <==> Fits(was.rungs, was.nRung, was.bottom, r, e))
    ensures InsertedNear(was, now, e, topStart)
  {
  }

  lemma InsertedBelowRungs(was: Ladder, now: Ladder, e: Event, topStart: nat)
    requires was.nRung <= |was.rungs| == |now.rungs| == MAX_RUNG_CNT && was.nRung == Chosen(was.rungs, was.nRung, e.body.ts)
    requires if |was.bottom| < THRESHOLD || was.nRung == MAX_RUNG_CNT then now == was.(bottom := Insert(was.bottom, e))
             else && now.nRung == was.nRung + 1 && now.bottom == []
                  && Transferred(was.rungs, now.rungs, was.nRung, was.bottom, e, topStart)
    requires InOrder(was.rungs, was.nRung, was.bottom) ==>
               (InOrder(now.rungs, now.nRung, now.bottom) <==> Fits(was.rungs, was.nRung, was.bottom, was.nRung, e))
    ensures InsertedNear(was, now, e, topStart)
  {
  }

  lemma MoveOut(a: multiset<Event>, b: multiset<Event>, c: multiset<Event>)
    ensures (a + c) + b == (a + b) + c
  {
  }

  lemma InsertedBelow(was: Ladder, now: Ladder, e: Event, topStart: nat)
    requires InsertedNear(was, now, e, topStart) && forall i :: 0 <= i < was.nRung ==> e.body.ts < was.rungs[i].current
    ensures if |was.bottom| < THRESHOLD || was.nRung == MAX_RUNG_CNT then now == was.(bottom := Insert(was.bottom, e))
            else && now.nRung == was.nRung + 1 && now.bottom == []
                 && Transferred(was.rungs, now.rungs, was.nRung, was.bottom, e, topStart)
  {
    hide InOrder, Fits, Transferred, Insert;
    ChosenIsFirst(was.rungs, was.nRung, e.body.ts, was.nRung);
  }

  lemma NewRungOrder(was: seq<Rung>, now: seq<Rung>, n: nat, bottom: seq<Event>, e: Event, topStart: nat)
    requires Transferred(was, now, n, bottom, e, topStart)
    ensures InOrder(was, n, bottom) ==> (InOrder(now, n + 1, []) <==> Fits(was, n, bottom, n, e))
  {
    hide InOrder, Fits, Poured, FromBottom;
    if InOrder(was, n, bottom) {
      OrderWithNewRung(was, now, n, bottom, e);
    }
  }

  lemma SameWidth(r: Rung, r': Rung)
    requires SameFrame(r', r)
    ensures r'.width == r.width && r'.start == r.start && r'.current == r.current && |r'.buckets| == |r.buckets|
  {
  }

  lemma EmptyHoldsNothing(r: Rung)
    requires AllEmpty(r.buckets)
    ensures Poured(r.buckets) == multiset{}
  {
    PouredEmpty(r.buckets);
  }

  lemma SplitIsOrdered(rungs: seq<Rung>, n: nat, j: nat, rest: Rung, part: Rung)
    requires 0 < n < |rungs| && RungOk(rungs[n - 1]) && LostBucket(rungs[n - 1], rest, j)
    requires Poured(part.buckets) == multiset{} + multiset(rungs[n - 1].buckets[j])
    ensures InOrder(rungs, n, []) ==> InOrder(rungs[n := part][n - 1 := rest], n + 1, [])
  {
    hide InOrder, RungOk, FirstNonempty, Poured, Without, Restarted;
    if InOrder(rungs, n, []) {
      SplitKeepsOrder(rungs, rungs[n := part][n - 1 := rest], n, j);
    }
  }

  lemma DividedIs(bucket: seq<Event>, start: nat, width: nat)
    requires bucket != [] && AllFrom(bucket, start)
    ensures var r := Rung(Empties(MAX_BUCKET_CNT), RungWidth(width, |bucket|), 0, start, start);
            r.width > 0 && r.buckets != [] && Divided(bucket, start, width) == PutAll(r, bucket)
  {
  }

  lemma GainedSome(buckets: seq<seq<Event>>, was: multiset<Event>, list: seq<Event>)
    requires Poured(buckets) == was + multiset(list) && list != []
    ensures !AllEmpty(buckets)
  {
    assert list[0] in multiset(list);
    PouredEmpty(buckets);
  }

  lemma CancelSame(p: multiset<Event>, q: multiset<Event>, x: multiset<Event>)
    requires p + x == q + x
    ensures p == q
  {
    assert q + x == q + (multiset{} + x);
    Cancel(p, x, q, multiset{});
  }

  lemma UpdateTwice(rungs: seq<Rung>, i: nat, q: Rung, r: Rung)
    requires i < |rungs|
    ensures rungs[i := q][i := r] == rungs[i := r]
  {
  }

  lemma OneChanged(was: seq<Rung>, now: seq<Rung>, i: nat)
    requires i < |was| == |now| && forall k :: 0 <= k < |was| && k != i ==> now[k] == was[k]
    ensures now == was[i := now[i]]
  {
  }

  lemma TakeNone(list: seq<Event>)
    ensures list[..0] == [] && list[..|list|] == list
  {
  }

  lemma PutAllNone(r: Rung)
    requires r.width > 0 && r.buckets != []
    ensures AllFrom([], r.start) && PutAll(r, []) == r
  {
  }

  /** One more event of the list. */
  lemma PutAllNext(r: Rung, list: seq<Event>, i: nat)
    requires r.width > 0 && r.buckets != [] && AllFrom(list, r.start) && i < |list|
    ensures AllFrom(list[..i], r.start) && AllFrom(list[..i + 1], r.start)
    ensures var p := PutAll(r, list[..i]); p.width > 0 && p.buckets != [] && list[i].body.ts >= p.start
    ensures PutAll(r, list[..i + 1]) == Put(PutAll(r, list[..i]), list[i])
  {
    assert list[..i + 1] == list[..i] + [list[i]];
    assert list[..i + 1][..i] == list[..i];
    hide Put, Slot;
  }

  /** Rung i gains the list and stays in order. */
  lemma {:induction false} SpreadIsOk(rungs: seq<Rung>, nRung: nat, i: nat, list: seq<Event>)
    requires RungsOk(rungs, nRung) && i < nRung && i < |rungs| && AllFrom(list, rungs[i].start)
    requires rungs[i].width > 0 && rungs[i].buckets != []
    ensures IsSpread(rungs, nRung, i, PutAll(rungs[i], list), multiset(list))
  {
    if list == [] {
      assert rungs[i := rungs[i]] == rungs;
    } else {
      var e, before := list[|list| - 1], list[..|list| - 1];
      assert list == before + [e] && e in list && forall x :: x in before ==> x in list;
      SpreadIsOk(rungs, nRung, i, before);
      var r := PutAll(rungs[i], before);
      assert PutAll(rungs[i], list) == Put(r, e);
      hide *;
      SpreadOneMore(rungs, nRung, i, r, e, multiset(before));
    }
  }

  ghost predicate IsSpread(rungs: seq<Rung>, nRung: nat, i: nat, r: Rung, d: multiset<Event>)
    requires i < |rungs|
  {
    && RungsOk(rungs[i := r], nRung) && Held(rungs[i := r]) == Held(rungs) + d
    && Poured(r.buckets) == Poured(rungs[i].buckets) + d
  }

  lemma SpreadOneMore(rungs: seq<Rung>, nRung: nat, i: nat, r: Rung, e: Event, d: multiset<Event>)
    requires i < |rungs| && i < nRung && IsSpread(rungs, nRung, i, r, d)
    requires r.width > 0 && r.buckets != [] && e.body.ts >= r.start
    ensures IsSpread(rungs, nRung, i, Put(r, e), d + multiset{e})
  {
    hide RungsOk, Held, Poured, Put;
    PutIntoRungs(rungs[i := r], nRung, i, e);
    assert rungs[i := r][i := Put(r, e)] == rungs[i := Put(r, e)];
  }

  lemma {:induction false} PutAllKeepsOk(r: Rung, list: seq<Event>)
    requires RungOk(r) && AllFrom(list, r.start)
    ensures RungOk(PutAll(r, list))
  {
    if list != [] {
      var e, before := list[|list| - 1], list[..|list| - 1];
      assert e in list && forall x :: x in before ==> x in list;
      PutAllKeepsOk(r, before);
      PutKeepsOk(PutAll(r, before), e);
      hide RungOk, Put;
    }
  }

  /** The rung that divides a bucket. */
  ghost function Divided(bucket: seq<Event>, start: nat, width: nat): (r: Rung)
    requires bucket != [] && AllFrom(bucket, start)
    ensures RungOk(r) && r.width == RungWidth(width, |bucket|)
  {
    var r := Rung(Empties(MAX_BUCKET_CNT), RungWidth(width, |bucket|), 0, start, start);
    PutAllKeepsOk(r, bucket);
    PutAll(r, bucket)
  }

  /** A bucket is overfull and could be divided, but `left` further rungs are too few for that: of the
      rung that divides it, the first bucket with events is overfull again, and so on. */
  ghost predicate Crowded(bucket: seq<Event>, start: nat, width: nat, left: nat)
    requires AllFrom(bucket, start)
    decreases left, 0
  {
    && |bucket| > THRESHOLD && width > MIN_BUCKET_WIDTH
    && (left > 0 ==> CrowdedRung(Divided(bucket, start, width), left - 1))
  }

  ghost predicate CrowdedRung(r: Rung, left: nat)
    requires RungOk(r)
    decreases left, 1
  {
    exists j: nat :: FirstNonempty(r.buckets, j) && (BucketStartsEarly(r, j); Crowded(r.buckets[j], BucketStart(r, j), r.width, left))
  }

  /** So it is with the last rung that is not empty. */
  ghost predicate Doomed(rungs: seq<Rung>, nRung: nat)
    requires RungsOk(rungs, nRung)
    decreases nRung
  {
    nRung > 0 &&
    if AllEmpty(rungs[nRung - 1].buckets) then Doomed(rungs, nRung - 1)
    else CrowdedRung(rungs[nRung - 1], MAX_RUNG_CNT - nRung)
  }

  // ------------------------------------------------------------------------------------------
  // What erase() does
  // ------------------------------------------------------------------------------------------

  /** What erase() returns, or the failure of an assertion that the event is where it is looked for. */
  datatype Erasure = Erased(status: bool) | EraseFailed

  /** The list without the first occurrence of e, if there is one. */
  function WithoutOne(list: seq<Event>, e: Event): (r: seq<Event>)
    ensures e in list ==> multiset(r) + multiset{e} == multiset(list)
    ensures e !in list ==> r == list
  {
    if list == [] then []
    else
      assert list == [list[0]] + list[1..];
      if list[0] == e then list[1..] else [list[0]] + WithoutOne(list[1..], e)
  }

  lemma FewerInList(list: seq<Event>, e: Event)
    ensures Loses(multiset(list), multiset(WithoutOne(list, e)), e)
    ensures forall x :: x in WithoutOne(list, e) ==> x in list
  {
    if e in list {
      OneIsLost(multiset(list), multiset(WithoutOne(list, e)), e);
    }
    NearIsLess(multiset(list), multiset(WithoutOne(list, e)), e);
    forall x | x in WithoutOne(list, e)
      ensures x in list
    {
      assert x in multiset(WithoutOne(list, e)) && x in multiset(list);
    }
  }

  lemma {:induction false} FirstOccurrence(list: seq<Event>, e: Event, k: nat)
    requires k < |list| && list[k] == e && e !in list[..k]
    ensures WithoutOne(list, e) == list[..k] + list[k + 1..]
  {
    if k > 0 {
      assert list[0] == list[..k][0] && forall x :: x in list[1..][..k - 1] ==> x in list[..k];
      FirstOccurrence(list[1..], e, k - 1);
      assert [list[0]] + list[1..][..k - 1] == list[..k];
    }
  }

  /** The search along a list. */
  method EraseFromList(list: seq<Event>, e: Event) returns (found: bool, r: seq<Event>)
    ensures found <==> e in list
    ensures r == WithoutOne(list, e)
  {
    hide WithoutOne;
    for k := 0 to |list|
      invariant e !in list[..k]
    {
      if list[k] == e {
        FirstOccurrence(list, e, k);
        return true, list[..k] + list[k + 1..];
      }
    }
    assert list[..|list|] == list;
    return false, list;
  }

  /** Rung r has lost event e; an empty rung starts over. */
  ghost predicate Removed(r: Rung, r': Rung, e: Event) {
    && r.width > 0 && r.buckets != [] && e.body.ts >= r.start
    && var j := Slot(r, e.body.ts);
    && r'.buckets == r.buckets[j := WithoutOne(r.buckets[j], e)] && r'.width == r.width && r'.start == r.start
    && RungOk(r') && r'.current == if AllEmpty(r'.buckets) then r.start else r.current
  }

  /** The search backwards for the last bucket with events. */
  method FindLast(buckets: seq<seq<Event>>, end: nat) returns (last: nat)
    requires end <= |buckets|
    ensures last <= end && (last > 0 ==> buckets[last - 1] != []) && forall k :: last <= k < end ==> buckets[k] == []
  {
    last := end;
    while last > 0 && buckets[last - 1] == []
      invariant last <= end && forall k :: last <= k < end ==> buckets[k] == []
    {
      last := last - 1;
    }
  }

  /** The event is taken from its bucket; if that was the last one with events, the last one is found anew. */
  method RemoveFromRung(r: Rung, e: Event) returns (r': Rung)
    requires RungOk(r) && e.body.ts >= r.start && e in r.buckets[Slot(r, e.body.ts)]
    ensures Removed(r, r', e)
  {
    var j := Slot(r, e.body.ts);
    hide Slot, WithoutOne, RungOk;
    var _, list := EraseFromList(r.buckets[j], e);
    var buckets, last, current := r.buckets[j := list], r.lastNonempty, r.current;
    if list == [] && last == j + 1 {
      last := FindLast(buckets, j);
      if last == 0 {
        current := r.start;
      }
    }
    r' := r.(buckets := buckets, lastNonempty := last, current := current);
    IsRemoved(r, r', e, j);
  }

  lemma IsRemoved(r: Rung, r': Rung, e: Event, j: nat)
    requires RungOk(r) && j < |r.buckets| && e.body.ts >= r.start && j == Slot(r, e.body.ts) && e in r.buckets[j]
    requires r' == r.(buckets := r.buckets[j := WithoutOne(r.buckets[j], e)], lastNonempty := r'.lastNonempty, current := r'.current)
    requires if r'.buckets[j] == [] && r.lastNonempty == j + 1 then
               && LastBelow(r', j) && r'.current == if r'.lastNonempty == 0 then r.start else r.current
             else r'.lastNonempty == r.lastNonempty && r'.current == r.current
    ensures Removed(r, r', e)
  {
    FewerArePlaced(r, r', j);
    LastAfterRemoval(r, r', j);
    if r'.lastNonempty == 0 {
      AlignedAt(r', 0);
    } else {
      AlignedFrame(r, r');
    }
    hide Placed, Aligned, Slot, WithoutOne;
  }

  ghost predicate LastBelow(r: Rung, end: nat) {
    && r.lastNonempty <= end <= |r.buckets| && (r.lastNonempty > 0 ==> r.buckets[r.lastNonempty - 1] != [])
    && forall k :: r.lastNonempty <= k < end ==> r.buckets[k] == []
  }

  lemma LastAfterRemoval(r: Rung, r': Rung, j: nat)
    requires LastIsExact(r) && j < |r.buckets| == |r'.buckets| && r.buckets[j] != [] && r'.buckets == r.buckets[j := r'.buckets[j]]
    requires if r'.buckets[j] == [] && r.lastNonempty == j + 1 then LastBelow(r', j) else r'.lastNonempty == r.lastNonempty
    ensures LastIsExact(r') && (AllEmpty(r'.buckets) <==> r'.lastNonempty == 0)
    ensures r'.lastNonempty == 0 ==> r'.buckets[j] == [] && r.lastNonempty == j + 1
  {
    assert r.lastNonempty > j;
  }

  lemma FewerArePlaced(r: Rung, r': Rung, j: nat)
    requires Placed(r) && j < |r.buckets| && r'.width == r.width && r'.start == r.start
    requires exists e :: r'.buckets == r.buckets[j := WithoutOne(r.buckets[j], e)]
    ensures Placed(r')
  {
    var e :| r'.buckets == r.buckets[j := WithoutOne(r.buckets[j], e)];
    forall k, x | 0 <= k < |r'.buckets| && x in r'.buckets[k]
      ensures InSlot(r', k, x)
    {
      assert x in multiset(r'.buckets[k]) && x in r.buckets[k] by {
        if k == j && e in r.buckets[j] {
          assert x in multiset(WithoutOne(r.buckets[j], e)) + multiset{e};
        }
      }
      SameSlots(r, r', x.body.ts);
    }
  }

  /** Nothing but the event and others with its key is lost. */
  ghost predicate Loses(was: multiset<Event>, now: multiset<Event>, e: Event) {
    now <= was && forall x :: !SameKey(x, e) ==> now[x] == was[x]
  }

  lemma LosesNone(m: multiset<Event>, e: Event)
    ensures Loses(m, m, e)
  {
  }

  lemma NearIsLess(was: multiset<Event>, now: multiset<Event>, e: Event)
    requires Loses(was, now, e)
    ensures forall x :: x in now ==> x in was
  {
  }

  lemma OneIsLost(was: multiset<Event>, now: multiset<Event>, e: Event)
    requires now + multiset{e} == was
    ensures Loses(was, now, e)
  {
    forall x
      ensures now[x] <= was[x] && (x != e ==> now[x] == was[x])
    {
      assert was[x] == (now + multiset{e})[x];
    }
  }

  lemma LosesThere(a: multiset<Event>, a': multiset<Event>, b: multiset<Event>, e: Event)
    requires Loses(a, a', e)
    ensures Loses(a + b, a' + b, e) && Loses(b + a, b + a', e)
  {
    hide SameKey;
  }

  /** The event is in the bucket for its time, or an assertion fails. */
  ghost predicate FromBucket(r: Rung, r': Rung, e: Event, outcome: Erasure) {
    && r.width > 0 && r.buckets != [] && e.body.ts >= r.start
    && if e in r.buckets[Slot(r, e.body.ts)] then outcome == Erased(true) && Removed(r, r', e)
       else outcome == EraseFailed && r' == r
  }

  /** Where erase() looks for an event that is not in top, and what it leaves. */
  ghost predicate ErasedNear(was: Ladder, now: Ladder, e: Event, outcome: Erasure) {
    && was.nRung == now.nRung <= |was.rungs| == |now.rungs| == MAX_RUNG_CNT
    && var r := Chosen(was.rungs, was.nRung, e.body.ts);
    if r < was.nRung then
      FromBucket(was.rungs[r], now.rungs[r], e, outcome) && now == was.(rungs := was.rungs[r := now.rungs[r]])
    else
      && now == was.(bottom := Events.Erase(was.bottom, e))
      && outcome == if was.bottom == [] then EraseFailed else Erased(true)
  }

  lemma ErasedAtRung(was: Ladder, r: nat, q: Rung, e: Event, outcome: Erasure)
    requires r < was.nRung <= |was.rungs| == MAX_RUNG_CNT && r == Chosen(was.rungs, was.nRung, e.body.ts)
    requires FromBucket(was.rungs[r], q, e, outcome)
    ensures ErasedNear(was, was.(rungs := was.rungs[r := q]), e, outcome)
  {
  }

  lemma ErasedBelowRungs(was: Ladder, now: Ladder, e: Event, outcome: Erasure)
    requires was.nRung <= |was.rungs| == MAX_RUNG_CNT && was.nRung == Chosen(was.rungs, was.nRung, e.body.ts)
    requires now == was.(bottom := Events.Erase(was.bottom, e))
    requires outcome == if was.bottom == [] then EraseFailed else Erased(true)
    ensures ErasedNear(was, now, e, outcome)
  {
  }

  // ------------------------------------------------------------------------------------------
  // What begin() does to the rungs
  // ------------------------------------------------------------------------------------------

  /** Rungs, how many are in use, and bottom. */
  datatype Ladder = Ladder(rungs: seq<Rung>, nRung: nat, bottom: seq<Event>)

  /** The first nRung rungs but for the last of them are the same. */
  ghost predicate SameBut(a: Ladder, b: Ladder, n: nat) {
    && n <= |a.rungs| && n <= |b.rungs| && b.bottom == a.bottom
    && forall k :: 0 <= k < n ==> b.rungs[k] == a.rungs[k]
  }

  /** The current start is that of the first bucket with events, or that of the rung if there is none. */
  ghost predicate Restarted(r: Rung) {
    if AllEmpty(r.buckets) then r.current == r.start
    else exists j: nat :: FirstNonempty(r.buckets, j) && r.current == BucketStart(r, j)
  }

  /** A rung has lost its first bucket with events. */
  ghost predicate LostBucket(was: Rung, now: Rung, j: nat) {
    && FirstNonempty(was.buckets, j) && now.buckets == Without(was, j).buckets
    && now.width == was.width && now.start == was.start && RungOk(now) && Restarted(now)
  }

  /** The first bucket of rung r, which is overfull, has gone to a new rung. */
  ghost predicate Divides(r: Rung, rest: Rung, part: Rung, j: nat) {
    && LostBucket(r, rest, j) && |r.buckets[j]| > THRESHOLD && r.width > MIN_BUCKET_WIDTH
    && AllFrom(r.buckets[j], BucketStart(r, j)) && part == Divided(r.buckets[j], BucketStart(r, j), r.width)
  }

  /** One turn of the loop of recurseRung: the last rung is closed if it is empty, or else divided. */
  ghost predicate Turn(a: Ladder, b: Ladder) {
    && 0 < a.nRung <= |a.rungs| == |b.rungs| == MAX_RUNG_CNT && SameBut(a, b, a.nRung - 1)
    && if AllEmpty(a.rungs[a.nRung - 1].buckets) then b.nRung == a.nRung - 1
       else && b.nRung == a.nRung + 1 <= MAX_RUNG_CNT
            && exists j :: DividesLast(a, b, j)
  }

  ghost predicate DividesLast(a: Ladder, b: Ladder, j: nat) {
    && 0 < a.nRung < |a.rungs| == |b.rungs|
    && Divides(a.rungs[a.nRung - 1], b.rungs[a.nRung - 1], b.rungs[a.nRung], j)
  }

  ghost predicate Turns(a: Ladder, b: Ladder, d: nat)
    decreases d
  {
    if d == 0 then a == b else exists m :: Turn(a, m) && Turns(m, b, d - 1)
  }

  /** Then the first bucket of the last rung may be poured; its start has been looked up. */
  ghost predicate Probed(a: Ladder, b: Ladder, j: nat) {
    && 0 < a.nRung == b.nRung <= |a.rungs| == |b.rungs| == MAX_RUNG_CNT && SameBut(a, b, a.nRung - 1)
    && var r := a.rungs[a.nRung - 1];
    && FirstNonempty(r.buckets, j) && (|r.buckets[j]| <= THRESHOLD || r.width <= MIN_BUCKET_WIDTH)
    && b.rungs[a.nRung - 1] == r.(current := BucketStart(r, j))
  }

  /** Bottom has taken it. */
  ghost predicate Drawn(a: Ladder, b: Ladder, j: nat, closeMore: bool) {
    && 0 < a.nRung <= |a.rungs| == |b.rungs| == MAX_RUNG_CNT && a.bottom == []
    && var n, r := a.nRung, a.rungs[a.nRung - 1];
    && FirstNonempty(r.buckets, j) && multiset(b.bottom) == multiset(r.buckets[j])
    && b.nRung <= n && (forall k :: 0 <= k < b.nRung && k < n - 1 ==> b.rungs[k] == a.rungs[k])
    && if AllEmpty(Without(r, j).buckets) then
         && b.nRung < n && (!closeMore ==> b.nRung == n - 1)
         && (forall k :: b.nRung <= k < n - 1 ==> AllEmpty(a.rungs[k].buckets))
         && (closeMore && b.nRung > 0 ==> !AllEmpty(b.rungs[b.nRung - 1].buckets))
       else b.nRung == n && LostBucket(r, b.rungs[n - 1], j)
  }

  /** The same, when bottom has the bucket and the last rung does not any more. */
  ghost predicate Adjusted(a: Ladder, b: Ladder, closeMore: bool) {
    && 0 < a.nRung <= |a.rungs| == |b.rungs| == MAX_RUNG_CNT && b.bottom == a.bottom
    && var n, r := a.nRung, a.rungs[a.nRung - 1];
    && b.nRung <= n && (forall k :: 0 <= k < b.nRung && k < n - 1 ==> b.rungs[k] == a.rungs[k])
    && if AllEmpty(r.buckets) then
         && b.nRung < n && (!closeMore ==> b.nRung == n - 1)
         && (forall k :: b.nRung <= k < n - 1 ==> AllEmpty(a.rungs[k].buckets))
         && (closeMore && b.nRung > 0 ==> !AllEmpty(b.rungs[b.nRung - 1].buckets))
       else && b.nRung == n && b.rungs[n - 1].buckets == r.buckets && b.rungs[n - 1].width == r.width
            && b.rungs[n - 1].start == r.start && RungOk(b.rungs[n - 1]) && Restarted(b.rungs[n - 1])
  }

  lemma AdjustedIsDrawn(p: Ladder, a: Ladder, b: Ladder, j: nat, closeMore: bool)
    requires 0 < p.nRung <= |p.rungs| == MAX_RUNG_CNT && p.bottom == [] && FirstNonempty(p.rungs[p.nRung - 1].buckets, j)
    requires a.nRung == p.nRung && a.rungs == p.rungs[p.nRung - 1 := Without(p.rungs[p.nRung - 1], j)]
    requires multiset(a.bottom) == multiset(p.rungs[p.nRung - 1].buckets[j]) && Adjusted(a, b, closeMore)
    ensures Drawn(p, b, j, closeMore)
  {
    var n := p.nRung;
    var r := p.rungs[n - 1];
    assert a.rungs[n - 1] == Without(r, j);
    assert forall k :: 0 <= k < n - 1 ==> a.rungs[k] == p.rungs[k];
    hide RungOk, Restarted, AllEmpty, FirstNonempty, Poured;
  }

  lemma AdjustedByClosing(a: Ladder, b: Ladder, closeMore: bool)
    requires 0 < a.nRung <= |a.rungs| == |b.rungs| == MAX_RUNG_CNT && b.bottom == a.bottom && b.nRung < a.nRung
    requires AllEmpty(a.rungs[a.nRung - 1].buckets) && forall k :: 0 <= k < b.nRung ==> b.rungs[k] == a.rungs[k]
    requires if closeMore then
               && (forall k :: b.nRung <= k < a.nRung - 1 ==> AllEmpty(a.rungs[k].buckets))
               && (b.nRung > 0 ==> !AllEmpty(b.rungs[b.nRung - 1].buckets))
             else b.nRung == a.nRung - 1
    ensures Adjusted(a, b, closeMore)
  {
  }

  lemma AdjustedByAdvancing(a: Ladder, q: Rung, closeMore: bool)
    requires 0 < a.nRung <= |a.rungs| == MAX_RUNG_CNT && !AllEmpty(a.rungs[a.nRung - 1].buckets)
    requires q == a.rungs[a.nRung - 1].(current := q.current) && RungOk(q) && Restarted(q)
    ensures Adjusted(a, a.(rungs := a.rungs[a.nRung - 1 := q]), closeMore)
  {
    hide RungOk, Restarted, AllEmpty;
  }

  /** A ladder that was made of all events of top. */
  ghost predicate FirstLadder(a: Ladder, top: seq<Event>, minTs: nat, maxTs: nat) {
    && RungsOk(a.rungs, 1) && a.nRung == 1 && a.bottom == [] && top != [] && minTs <= maxTs
    && var r := a.rungs[0];
    && r.start == r.current == minTs && r.width == RungWidth(maxTs - minTs, |top|)
    && |r.buckets| >= 2 * |top| && Poured(r.buckets) == multiset(top)
  }

  /** The part of begin() that takes a bucket from the rungs, whole. */
  ghost predicate Begins(a: Ladder, b: Ladder, closeMore: bool) {
    exists d, m, p, j :: Turns(a, m, d) && Probed(m, p, j) && Drawn(p, b, j, closeMore)
  }

  lemma ItRestarted(was: Rung, open: Rung, now: Rung, j: nat)
    requires FirstNonempty(was.buckets, j) && open == Without(was, j) && RungOk(now)
    requires now == open.(lastNonempty := now.lastNonempty, current := now.current)
    requires if AllEmpty(open.buckets) then now.current == open.start
             else exists k: nat :: FirstNonempty(open.buckets, k) && now.current == BucketStart(open, k)
    ensures LostBucket(was, now, j)
  {
    hide RungOk, AllEmpty;
    if !AllEmpty(open.buckets) {
      var k: nat :| FirstNonempty(open.buckets, k) && now.current == BucketStart(open, k);
      assert FirstNonempty(now.buckets, k) && now.current == BucketStart(now, k);
    }
  }

  lemma ClosingTurn(a: Ladder, b: Ladder)
    requires 0 < a.nRung <= |a.rungs| == |b.rungs| == MAX_RUNG_CNT && b.nRung == a.nRung - 1 && b.bottom == a.bottom
    requires AllEmpty(a.rungs[a.nRung - 1].buckets) && forall k :: 0 <= k < b.nRung ==> b.rungs[k] == a.rungs[k]
    ensures Turn(a, b)
  {
  }

  lemma DividingTurn(a: Ladder, p: Ladder, b: Ladder, j: nat)
    requires 0 < a.nRung == p.nRung < |a.rungs| == |p.rungs| == |b.rungs| == MAX_RUNG_CNT
    requires b.nRung == a.nRung + 1 && b.bottom == a.bottom
    requires forall k :: 0 <= k < a.nRung - 1 ==> b.rungs[k] == a.rungs[k]
    requires p.rungs[a.nRung - 1] == a.rungs[a.nRung - 1].(current := p.rungs[a.nRung - 1].current)
    requires Divides(p.rungs[a.nRung - 1], b.rungs[a.nRung - 1], b.rungs[a.nRung], j)
    ensures Turn(a, b)
  {
    var r, q := a.rungs[a.nRung - 1], p.rungs[a.nRung - 1];
    assert BucketStart(q, j) == BucketStart(r, j);
    hide RungOk, Restarted, Divided, BucketStart, AllFrom;
    assert DividesLast(a, b, j);
  }

  lemma LookedUp(a: Ladder, b: Ladder, j: nat)
    requires 0 < a.nRung == b.nRung <= |a.rungs| == |b.rungs| == MAX_RUNG_CNT && b.bottom == a.bottom
    requires forall k :: 0 <= k < a.nRung - 1 ==> b.rungs[k] == a.rungs[k]
    requires var r, q := a.rungs[a.nRung - 1], b.rungs[a.nRung - 1];
             && q == r.(current := q.current) && FirstNonempty(q.buckets, j) && q.current == BucketStart(q, j)
             && (|q.buckets[j]| <= THRESHOLD || q.width <= MIN_BUCKET_WIDTH)
    ensures Probed(a, b, j)
  {
    assert BucketStart(b.rungs[a.nRung - 1], j) == BucketStart(a.rungs[a.nRung - 1], j);
    hide BucketStart;
  }

  ghost predicate BeginsFromTop(top: seq<Event>, minTs: nat, maxTs: nat, b: Ladder) {
    exists a :: FirstLadder(a, top, minTs, maxTs) && Begins(a, b, false)
  }

  /** begin() on an empty bottom: from the rungs, or else from top. */
  ghost predicate Goes(a: Ladder, top: seq<Event>, minTs: nat, maxTs: nat, b: Ladder) {
    if Held(a.rungs) != multiset{} then Begins(a, b, true) else BeginsFromTop(top, minTs, maxTs, b)
  }

  lemma GoesOn(a: Ladder, top: seq<Event>, minTs: nat, maxTs: nat, b: Ladder)
    requires if Held(a.rungs) != multiset{} then Begins(a, b, true) else BeginsFromTop(top, minTs, maxTs, b)
    ensures Goes(a, top, minTs, maxTs, b)
  {
  }

  ghost predicate Ended(a: Ladder, p: Ladder, j: nat) {
    exists d, m :: Turns(a, m, d) && Probed(m, p, j)
  }

  lemma EndsWith(a: Ladder, m: Ladder, d: nat, p: Ladder, j: nat)
    requires Turns(a, m, d) && Probed(m, p, j)
    ensures Ended(a, p, j)
  {
    hide Turns, Probed;
  }

  lemma BeginsWith(a: Ladder, p: Ladder, j: nat, b: Ladder, closeMore: bool)
    requires Ended(a, p, j) && Drawn(p, b, j, closeMore)
    ensures Begins(a, b, closeMore)
  {
    hide Turns, Probed, Drawn;
    var d, m :| Turns(a, m, d) && Probed(m, p, j);
  }

  lemma NoTurns(a: Ladder)
    ensures Turns(a, a, 0)
  {
  }

  lemma RestartedAt(r: Rung, r': Rung, next: nat)
    requires r' == r.(current := BucketStart(r, next)) && FirstNonempty(r.buckets, next)
    ensures Restarted(r')
  {
    assert FirstNonempty(r'.buckets, next) && r'.current == BucketStart(r', next);
  }

  lemma OpenIsEmpty(r: Rung, j: nat)
    requires OpenAt(r, j)
    ensures r.lastNonempty == j + 1 <==> AllEmpty(r.buckets)
  {
  }

  lemma {:induction false} TurnsOn(a: Ladder, b: Ladder, d: nat, c: Ladder)
    requires Turns(a, b, d) && Turn(b, c)
    ensures Turns(a, c, d + 1)
    decreases d
  {
    hide Turn;
    if d == 0 {
      assert Turns(c, c, 0);
    } else {
      var m :| Turn(a, m) && Turns(m, b, d - 1);
      TurnsOn(m, b, d - 1, c);
    }
  }

  lemma CrowdedFirst(r: Rung, j: nat, left: nat)
    requires RungOk(r) && FirstNonempty(r.buckets, j)
    ensures AllFrom(r.buckets[j], BucketStart(r, j))
    ensures CrowdedRung(r, left) <==> Crowded(r.buckets[j], BucketStart(r, j), r.width, left)
  {
    BucketStartsEarly(r, j);
    hide RungOk, Crowded, BucketStart;
  }

  lemma SameCrowd(a: Rung, b: Rung, left: nat)
    requires RungOk(a) && RungOk(b) && a.buckets == b.buckets && a.width == b.width && a.start == b.start
    ensures CrowdedRung(a, left) == CrowdedRung(b, left)
  {
    hide RungOk, Crowded;
    forall j: nat | j < |a.buckets|
      ensures BucketStart(a, j) == BucketStart(b, j)
    {
    }
  }

  /** Only buckets, widths and starts of the rungs in use matter. */
  lemma {:induction false} DoomedBelow(a: seq<Rung>, b: seq<Rung>, nRung: nat)
    requires RungsOk(a, nRung) && RungsOk(b, nRung)
    requires forall i :: 0 <= i < nRung ==> a[i].buckets == b[i].buckets && a[i].width == b[i].width && a[i].start == b[i].start
    ensures Doomed(a, nRung) == Doomed(b, nRung)
  {
    if nRung > 0 {
      RungHas(a, nRung, nRung - 1);
      RungHas(b, nRung, nRung - 1);
      if AllEmpty(a[nRung - 1].buckets) {
        DoomedBelow(a, b, nRung - 1);
      } else {
        SameCrowd(a[nRung - 1], b[nRung - 1], MAX_RUNG_CNT - nRung);
      }
    }
  }

  lemma DoomedLast(rungs: seq<Rung>, nRung: nat, j: nat)
    requires RungsOk(rungs, nRung) && nRung > 0 && FirstNonempty(rungs[nRung - 1].buckets, j)
    ensures var r := rungs[nRung - 1];
            && AllFrom(r.buckets[j], BucketStart(r, j))
            && (Doomed(rungs, nRung) <==> Crowded(r.buckets[j], BucketStart(r, j), r.width, MAX_RUNG_CNT - nRung))
  {
    RungHas(rungs, nRung, nRung - 1);
    CrowdedFirst(rungs[nRung - 1], j, MAX_RUNG_CNT - nRung);
    assert !AllEmpty(rungs[nRung - 1].buckets);
    hide RungsOk, CrowdedRung, Crowded, BucketStart;
  }

  /** Dividing the first bucket changes nothing about it. */
  lemma DividedIsDoomed(was: seq<Rung>, now: seq<Rung>, nRung: nat, j: nat)
    requires RungsOk(was, nRung) && RungsOk(now, nRung + 1) && nRung > 0 && FirstNonempty(was[nRung - 1].buckets, j)
    requires var r := was[nRung - 1];
             && |r.buckets[j]| > THRESHOLD && r.width > MIN_BUCKET_WIDTH && AllFrom(r.buckets[j], BucketStart(r, j))
             && now[nRung] == Divided(r.buckets[j], BucketStart(r, j), r.width)
    requires !AllEmpty(now[nRung].buckets)
    ensures Doomed(now, nRung + 1) == Doomed(was, nRung)
  {
    DoomedLast(was, nRung, j);
    RungHas(now, nRung + 1, nRung);
    hide RungsOk, CrowdedRung, BucketStart, Divided, RungOk;
  }

  function Power(b: nat, e: nat): (p: nat)
  {
    if e == 0 then 1 else b * Power(b, e - 1)
  }

  /** A crowded bucket is wide: each further rung makes buckets narrower by a factor of more than 50. */
  lemma {:induction false} CrowdedIsWide(bucket: seq<Event>, start: nat, width: nat, left: nat)
    requires AllFrom(bucket, start) && Crowded(bucket, start, width, left)
    ensures |bucket| > THRESHOLD && width > Power(THRESHOLD + 1, left)
    decreases left, 0
  {
    if left > 0 {
      CrowdedRungIsWide(Divided(bucket, start, width), left - 1);
      hide RungWidth, AllFrom, RungOk;
      NarrowerByFactor(width, |bucket|, Power(THRESHOLD + 1, left - 1));
    }
  }

  lemma {:induction false} CrowdedRungIsWide(r: Rung, left: nat)
    requires RungOk(r) && CrowdedRung(r, left)
    ensures r.width > Power(THRESHOLD + 1, left) > 0
    decreases left, 1
  {
    PowerIsPositive(THRESHOLD + 1, left);
    var j: nat :| FirstNonempty(r.buckets, j);
    CrowdedFirst(r, j, left);
    hide RungOk, Crowded, CrowdedRung, AllFrom, BucketStart, Power;
    CrowdedIsWide(r.buckets[j], BucketStart(r, j), r.width, left);
  }

  lemma {:induction false} PowerIsPositive(b: nat, e: nat)
    requires b > 0
    ensures Power(b, e) > 0
  {
    if e > 0 {
      PowerIsPositive(b, e - 1);
    }
  }

  lemma NarrowerByFactor(width: nat, n: nat, m: nat)
    requires n > THRESHOLD && RungWidth(width, n) > m > 0
    ensures width > (THRESHOLD + 1) * m
  {
    WidthTimesCount(width, n, m);
    hide RungWidth;
    Larger(n, THRESHOLD + 1, m);
  }

  lemma Larger(a: nat, b: nat, m: nat)
    requires a >= b
    ensures a * m >= b * m
  {
    assert (a - b) * m >= 0;
  }

  lemma WidthTimesCount(width: nat, n: nat, m: nat)
    requires n > 0 && RungWidth(width, n) > m > 0
    ensures n * m < width
  {
    QuotientTimesDivisor(width + n - 1, n, m + 1);
    hide RungWidth;
    assert (m + 1) * n == n * m + n;
  }

  /** What a caller can look at: eight rungs are enough if the overfull rungs are narrow. */
  lemma {:induction false} EightRungsAreEnough(rungs: seq<Rung>, nRung: nat)
    requires RungsOk(rungs, nRung)
    requires forall k :: 0 <= k < nRung ==>
               || rungs[k].width <= Power(THRESHOLD + 1, MAX_RUNG_CNT - 1 - k)
               || forall j :: 0 <= j < |rungs[k].buckets| ==> |rungs[k].buckets[j]| <= THRESHOLD
    ensures !Doomed(rungs, nRung)
  {
    if nRung > 0 {
      RungHas(rungs, nRung, nRung - 1);
      if AllEmpty(rungs[nRung - 1].buckets) {
        EightRungsAreEnough(rungs, nRung - 1);
      } else {
        NotCrowded(rungs[nRung - 1], MAX_RUNG_CNT - nRung);
      }
    }
  }

  lemma NotCrowded(r: Rung, left: nat)
    requires RungOk(r)
    requires r.width <= Power(THRESHOLD + 1, left) || forall j :: 0 <= j < |r.buckets| ==> |r.buckets[j]| <= THRESHOLD
    ensures !CrowdedRung(r, left)
  {
    forall j: nat | FirstNonempty(r.buckets, j)
      ensures AllFrom(r.buckets[j], BucketStart(r, j)) && !Crowded(r.buckets[j], BucketStart(r, j), r.width, left)
    {
      BucketStartsEarly(r, j);
      assert AllFrom(r.buckets[j], BucketStart(r, j));
      if Crowded(r.buckets[j], BucketStart(r, j), r.width, left) {
        CrowdedIsWide(r.buckets[j], BucketStart(r, j), r.width, left);
      }
    }
  }

  /** With eight rungs in use and events in the last one, it is a matter of that one's first bucket. */
  lemma DoomedWithEight(rungs: seq<Rung>)
    requires RungsOk(rungs, MAX_RUNG_CNT) && !AllEmpty(rungs[MAX_RUNG_CNT - 1].buckets)
    ensures Doomed(rungs, MAX_RUNG_CNT) <==> Overflows(rungs[MAX_RUNG_CNT - 1])
  {
    var r := rungs[MAX_RUNG_CNT - 1];
    var j := FirstWithEvents(r.buckets);
    DoomedLast(rungs, MAX_RUNG_CNT, j);
    hide RungsOk, RungOk;
  }

  lemma {:induction false} FirstWithEvents(buckets: seq<seq<Event>>) returns (j: nat)
    requires !AllEmpty(buckets)
    ensures FirstNonempty(buckets, j)
  {
    if buckets[0] != [] {
      j := 0;
    } else {
      j := FirstWithEvents(buckets[1..]);
      j := j + 1;
    }
  }

  /** The last rung is closed. */
  lemma LastDoesNotCount(was: seq<Rung>, now: seq<Rung>, nRung: nat)
    requires RungsOk(was, nRung) && nRung > 0 && AllEmpty(was[nRung - 1].buckets) && RungsOk(now, nRung - 1)
    requires forall k :: 0 <= k < nRung - 1 ==> now[k] == was[k]
    ensures Doomed(now, nRung - 1) == Doomed(was, nRung)
  {
    DoomedBelow(was, now, nRung - 1);
  }

  lemma NoCrowd(r: Rung, j: nat, left: nat)
    requires j < |r.buckets| && |r.buckets[j]| <= THRESHOLD && AllFrom(r.buckets[j], BucketStart(r, j))
    ensures !Crowded(r.buckets[j], BucketStart(r, j), r.width, left)
  {
  }

  lemma NoRungLeft(r: Rung, j: nat, left: nat)
    requires j < |r.buckets| && |r.buckets[j]| > THRESHOLD && AllFrom(r.buckets[j], BucketStart(r, j))
    requires left == 0 || r.width <= MIN_BUCKET_WIDTH
    ensures Crowded(r.buckets[j], BucketStart(r, j), r.width, left) <==> r.width > MIN_BUCKET_WIDTH
  {
  }

  /** Seven further rungs can divide any rung that top fills, times being 32-bit numbers. */
  lemma FirstRungIsNarrow(rungs: seq<Rung>, range: nat, n: nat)
    requires RungsOk(rungs, 1) && n > 0 && range <= UINT_MAX && rungs[0].width == RungWidth(range, n)
    ensures !Doomed(rungs, 1)
  {
    WidthIsSmaller(range, n);
    assert Power(51, 2) == 51 * Power(51, 1) && Power(51, 1) == 51 * Power(51, 0);
    assert Power(51, 4) == 51 * Power(51, 3) && Power(51, 3) == 51 * Power(51, 2);
    assert Power(51, 7) == 51 * Power(51, 6) && Power(51, 6) == 51 * Power(51, 5) && Power(51, 5) == 51 * Power(51, 4);
    EightRungsAreEnough(rungs, 1);
  }

  lemma WidthIsSmaller(range: nat, n: nat)
    requires n > 0
    ensures RungWidth(range, n) <= range + 1
  {
    Larger(n, 1, range);
    assert (range + 1) * n == n * range + n;
    QuotientBelow(range + n - 1, n, range + 1);
  }

  lemma IsInside(buckets: seq<seq<Event>>, j: nat)
    requires FirstNonempty(buckets, j)
    ensures j < |buckets| && buckets[j] != []
  {
  }

  lemma NoneInside(buckets: seq<seq<Event>>)
    requires AllEmpty(buckets)
    ensures buckets == Empties(|buckets|)
  {
  }

  /** A rung without one of its events. */
  lemma RemovedIsOk(rungs: seq<Rung>, nRung: nat, i: nat, r: Rung, e: Event)
    requires RungsOk(rungs, nRung) && i < nRung && Removed(rungs[i], r, e) && e in rungs[i].buckets[Slot(rungs[i], e.body.ts)]
    ensures RungsOk(rungs[i := r], nRung) && Held(rungs[i := r]) + multiset{e} == Held(rungs)
    ensures Loses(Held(rungs), Held(rungs[i := r]), e)
  {
    Apart(rungs, nRung, i);
    RemovedPours(rungs[i], r, e);
    hide RungsOk, OthersOk, RungOk, Held, Poured, Slot, Loses, Removed;
    HeldLoses(rungs, i, r, multiset{e});
    OneIsLost(Held(rungs), Held(rungs[i := r]), e);
    Together(rungs, nRung, i, r);
  }

  lemma RemovedPours(r: Rung, r': Rung, e: Event)
    requires Removed(r, r', e) && e in r.buckets[Slot(r, e.body.ts)]
    ensures Poured(r'.buckets) + multiset{e} == Poured(r.buckets)
  {
    var j := Slot(r, e.body.ts);
    var list := WithoutOne(r.buckets[j], e);
    PouredUpdate(r.buckets, j, list);
    hide Poured, Slot, RungOk, WithoutOne;
    forall x: Event
      ensures (Poured(r'.buckets) + multiset{e})[x] == Poured(r.buckets)[x]
    {
      assert (Poured(r'.buckets) + multiset(r.buckets[j]))[x] == (Poured(r.buckets) + multiset(list))[x];
      assert (multiset(list) + multiset{e})[x] == multiset(r.buckets[j])[x];
    }
  }

  lemma {:induction false} EraseLoses(q: seq<Event>, e: Event)
    ensures Loses(multiset(q), multiset(Events.Erase(q, e)), e)
  {
    if q != [] {
      EraseLoses(q[1..], e);
      assert q == [q[0]] + q[1..];
      var rest := Events.Erase(q[1..], e);
      LosesThere(multiset(q[1..]), multiset(rest), multiset{q[0]}, e);
      assert multiset(q) == multiset{q[0]} + multiset(q[1..]) && multiset([q[0]] + rest) == multiset{q[0]} + multiset(rest);
    }
  }

  lemma {:induction false} EraseKeepsWeakly(q: seq<Event>, e: Event)
    requires WeaklySorted(q)
    ensures WeaklySorted(Events.Erase(q, e))
  {
    hide Before, SameKey;
    if q != [] {
      EraseKeepsWeakly(q[1..], e);
      assert q == [q[0]] + q[1..];
      var rest := Events.Erase(q[1..], e);
      forall k | 0 <= k < |rest|
        ensures !Before(rest[k], q[0])
      {
        assert rest[k] in rest && rest[k] in q[1..];
      }
      PrependKeepsOrder(q[0], rest);
    }
  }

  lemma NothingSorted()
    ensures WeaklySorted([])
  {
  }

  lemma HoldsSome(rungs: seq<Rung>, i: nat, j: nat)
    requires i < |rungs| && FirstNonempty(rungs[i].buckets, j)
    ensures Held(rungs) != multiset{} && !AllEmpty(rungs[i].buckets)
  {
    PouredEmpty(rungs[i].buckets);
    var none := Rung([], 0, 0, 0, 0);
    HeldUpdate(rungs, i, none);
    hide Held;
    var e :| e in Poured(rungs[i].buckets);
    assert e in Held(rungs[i := none]) + Poured(rungs[i].buckets);
  }

  /** Goes down while the loop can give up empty rungs, then while it can split overfull buckets. */
  ghost function Measure(rungs: seq<Rung>, nRung: nat): nat
    requires nRung <= |rungs| == MAX_RUNG_CNT
  {
    if nRung > 0 && !AllEmpty(rungs[nRung - 1].buckets) then MAX_RUNG_CNT - nRung else MAX_RUNG_CNT + 1 + nRung
  }

  lemma MeasureFalls(was: seq<Rung>, n: nat, now: seq<Rung>, n': nat)
    requires n <= |was| == MAX_RUNG_CNT && n' <= |now| == MAX_RUNG_CNT && n > 0
    requires if AllEmpty(was[n - 1].buckets) then n' == n - 1 else n' == n + 1 && !AllEmpty(now[n' - 1].buckets)
    ensures Measure(now, n') < Measure(was, n)
  {
  }

  /** No bucket can be overfull. */
  predicate Few(events: multiset<Event>) { |events| <= THRESHOLD }

  lemma BucketIsPart(rungs: seq<Rung>, i: nat, j: nat)
    requires i < |rungs| && FirstNonempty(rungs[i].buckets, j)
    ensures j < |rungs[i].buckets| && (Few(Held(rungs)) ==> |rungs[i].buckets[j]| <= THRESHOLD)
  {
    var r := rungs[i];
    HeldUpdate(rungs, i, Without(r, j));
    PouredUpdate(r.buckets, j, []);
    hide Held, Poured;
    var rest := Held(rungs[i := Without(r, j)]);
    var a, b := Poured(r.buckets), Poured(Without(r, j).buckets);
    assert |rest + a| == |Held(rungs) + b|;
    assert |b + multiset(r.buckets[j])| == |a + multiset{}|;
  }

  lemma StillHolds(rungs: seq<Rung>, i: nat, j: nat)
    requires i < |rungs| && OpenAt(rungs[i], j) && rungs[i].lastNonempty != j + 1
    ensures Held(rungs) != multiset{}
  {
    var r := rungs[i];
    PouredEmpty(r.buckets);
    assert r.buckets[r.lastNonempty - 1] != [];
    var none := Rung([], 0, 0, 0, 0);
    HeldUpdate(rungs, i, none);
    hide Held;
    var e :| e in Poured(r.buckets);
    assert e in Held(rungs[i := none]) + Poured(r.buckets);
  }

  lemma LastZeroIsEmpty(rungs: seq<Rung>, nRung: nat)
    requires RungsOk(rungs, nRung) && nRung > 0 && rungs[nRung - 1].lastNonempty == 0
    ensures AllEmpty(rungs[nRung - 1].buckets)
  {
    assert RungOk(rungs[nRung - 1]);
  }

  lemma LastNonZeroIsNot(rungs: seq<Rung>, nRung: nat)
    requires RungsOk(rungs, nRung) && nRung > 0 && rungs[nRung - 1].lastNonempty > 0
    ensures !AllEmpty(rungs[nRung - 1].buckets)
  {
    assert RungOk(rungs[nRung - 1]);
    assert rungs[nRung - 1].buckets[rungs[nRung - 1].lastNonempty - 1] != [];
  }

  ghost predicate EarlierThan(a: seq<Event>, b: multiset<Event>) {
    forall x, y :: x in a && y in b ==> x.body.ts < y.body.ts
  }

  lemma FewerEarlier(a: seq<Event>, a': seq<Event>, b: multiset<Event>)
    requires EarlierThan(a, b) && multiset(a') == multiset(a)
    ensures EarlierThan(a', b)
  {
    forall x | x in a'
      ensures x in a
    {
      assert x in multiset(a');
    }
  }

  lemma PouredIsEarliest(r: Rung, j: nat)
    requires RungOk(r) && FirstNonempty(r.buckets, j)
    ensures EarlierThan(r.buckets[j], Poured(Without(r, j).buckets))
  {
    forall x, y | x in r.buckets[j] && y in Poured(Without(r, j).buckets)
      ensures x.body.ts < y.body.ts
    {
      FirstBucketIsEarliest(r, j, x, y);
    }
  }

  /** Bottom has taken the bucket. */
  lemma PouredOut(was: seq<Rung>, n: nat, j: nat, bottom: seq<Event>)
    requires RungsOk(was, n) && 0 < n && FirstNonempty(was[n - 1].buckets, j)
    requires multiset(bottom) == multiset(was[n - 1].buckets[j])
    ensures var now := was[n - 1 := Without(was[n - 1], j)];
            && OthersOk(now, n, n - 1) && OpenAt(now[n - 1], j) && Held(now) + multiset(bottom) == Held(was)
            && EarlierThan(bottom, Poured(now[n - 1].buckets)) && (InOrder(was, n, []) ==> InOrder(now, n, bottom))
  {
    var now := was[n - 1 := Without(was[n - 1], j)];
    RungHas(was, n, n - 1);
    WithoutIsOpen(was, n, n - 1, j);
    PouredIsEarliest(was[n - 1], j);
    hide RungsOk, Held, RungOk, Poured, OthersOk, OpenAt, EarlierThan, FirstNonempty, InOrder;
    FewerEarlier(was[n - 1].buckets[j], bottom, Poured(now[n - 1].buckets));
    if InOrder(was, n, []) {
      PourKeepsOrder(was, now, n, j, bottom);
    }
  }

  class LadderQueue {
    var top: seq<Event>
    var maxTs: nat
    var minTs: nat
    var topStart: nat
    const rung: array<Rung>
    var nRung: nat
    var bottom: seq<Event>

    /** Top holds what is later than topStart, all the rest is not. */
    ghost predicate TopOk()
      reads this, rung
    {
      && (top != [] ==> minTs <= maxTs)
      && (forall e :: e in top ==> topStart < e.body.ts && minTs <= e.body.ts <= maxTs)
      && (forall e :: e in Near() ==> e.body.ts <= topStart)
    }

    ghost predicate Valid()
      reads this, rung
    {
      rung.Length == MAX_RUNG_CNT && RungsOk(rung[..], nRung) && TopOk() && WeaklySorted(bottom)
    }

    /** What is in the rungs and in bottom. */
    ghost function Near(): multiset<Event>
      reads this, rung
    {
      Held(rung[..]) + multiset(bottom)
    }

    /** Everything in the queue. */
    ghost function Contents(): multiset<Event>
      reads this, rung
    {
      multiset(top) + Near()
    }

    constructor ()
      ensures Valid() && fresh(rung) && Contents() == multiset{} && top == [] == bottom && nRung == 0 == topStart
      ensures IsOrdered()
    {
      top, bottom, maxTs, minTs, topStart, nRung := [], [], 0, 0, 0, 0;
      rung := new Rung[MAX_RUNG_CNT](i => Rung(Empties(if i == 0 then 0 else MAX_BUCKET_CNT), 0, 0, 0, 0));
      new;
      assert forall i :: 0 <= i < MAX_RUNG_CNT ==> rung[..][i].buckets == Empties(if i == 0 then 0 else MAX_BUCKET_CNT);
      HeldEmpty(rung[..]);
    }

    method SetRung(i: nat, r: Rung)
      requires i < rung.Length
      modifies rung
      ensures rung[..] == old(rung[..])[i := r]
      ensures forall k :: 0 <= k < rung.Length ==> rung[k] == if k == i then r else old(rung[k])
    {
      rung[i] := r;
    }

    /** The loops that distribute a list over the buckets of a rung. */
    method PutEach(list: seq<Event>, i: nat)
      requires i < rung.Length && rung[i].width > 0 && rung[i].buckets != [] && AllFrom(list, rung[i].start)
      modifies rung
      ensures rung[i] == PutAll(old(rung[i]), list) && forall k :: 0 <= k < rung.Length && k != i ==> rung[k] == old(rung[k])
    {
      ghost var r := rung[i];
      hide *;
      PutAllNone(r);
      TakeNone(list);
      for n := 0 to |list|
        invariant AllFrom(list[..n], r.start) && rung[i] == PutAll(r, list[..n])
        invariant forall k :: 0 <= k < rung.Length && k != i ==> rung[k] == old(rung[k])
      {
        PutAllNext(r, list, n);
        SetRung(i, Put(rung[i], list[n]));
      }
    }

    /** The last rung gains the list. */
    method Spread(list: seq<Event>)
      requires rung.Length == MAX_RUNG_CNT && RungsOk(rung[..], nRung) && 0 < nRung <= MAX_RUNG_CNT
      requires AllFrom(list, rung[nRung - 1].start)
      modifies rung
      ensures RungsOk(rung[..], nRung) && rung[nRung - 1] == PutAll(old(rung[nRung - 1]), list)
      ensures rung[..] == old(rung[..])[nRung - 1 := rung[nRung - 1]]
      ensures forall k :: 0 <= k < MAX_RUNG_CNT && k != nRung - 1 ==> rung[k] == old(rung[k])
      ensures Held(rung[..]) == old(Held(rung[..])) + multiset(list)
      ensures Poured(rung[nRung - 1].buckets) == old(Poured(rung[nRung - 1].buckets)) + multiset(list)
    {
      RungsHave(rung[..], nRung);
      hide RungsOk, Held, Poured, PutAll, AllFrom, RungOk, AllEmpty;
      ghost var was := rung[..];
      SpreadIsOk(was, nRung, nRung - 1, list);
      PutEach(list, nRung - 1);
      OneChanged(was, rung[..], nRung - 1);
    }

    /** More buckets for the first rung, if it has fewer than n. */
    static method Grow(buckets: seq<seq<Event>>, n: nat) returns (b: seq<seq<Event>>)
      requires AllEmpty(buckets)
      ensures AllEmpty(b) && |b| == if |buckets| < n then n else |buckets|
    {
      b := buckets;
      while |b| < n
        invariant AllEmpty(b) && |b| == if |buckets| < |b| <= n then |b| else |buckets|
      {
        b := b + [[]];
      }
    }

    /** The next rung comes into use. */
    method OpenRung(r: Rung)
      requires rung.Length == MAX_RUNG_CNT && RungsOk(rung[..], nRung) && nRung < MAX_RUNG_CNT && AllEmpty(r.buckets)
      requires r.width > 0 && r.buckets != [] && r.lastNonempty == 0 && r.start == r.current
      requires nRung > 0 ==> |r.buckets| == MAX_BUCKET_CNT
      modifies `nRung, rung
      ensures RungsOk(rung[..], nRung) && nRung == old(nRung) + 1
      ensures rung[nRung - 1] == r && Held(rung[..]) == old(Held(rung[..]))
      ensures rung[..] == old(rung[..])[nRung - 1 := r]
    {
      hide RungsOk, AllEmpty, Held;
      OpenKeepsRungs(rung[..], nRung, r);
      SetRung(nRung, r);
      nRung := nRung + 1;
    }

    /** createNewRung, which asserts that there are rungs left: for the first rung it takes over the
        limits of top, a further one divides a bucket of the one before. */
    method CreateNewRung(numEvents: nat, initVal: nat) returns (outcome: Outcome)
      requires rung.Length == MAX_RUNG_CNT && RungsOk(rung[..], nRung) && numEvents > 0 && (nRung == 0 ==> minTs <= maxTs)
      modifies `nRung, `topStart, rung
      ensures RungsOk(rung[..], nRung) && Held(rung[..]) == old(Held(rung[..]))
      ensures outcome == if old(nRung) == 0 then Created
                         else if old(rung[nRung - 1].width) <= MIN_BUCKET_WIDTH then WidthIsStatic
                         else if old(nRung) < MAX_RUNG_CNT then Created
                         else TooManyRungs
      ensures topStart == if old(nRung) == 0 then maxTs else old(topStart)
      ensures if outcome.Created? then
                && nRung == old(nRung) + 1
                && rung[..] == old(rung[..])[nRung - 1 := rung[nRung - 1]]
                && AllEmpty(rung[nRung - 1].buckets)
                && (if nRung == 1 then
                      rung[0].start == minTs && rung[0].width == RungWidth(maxTs - minTs, numEvents)
                      && |rung[0].buckets| >= 2 * numEvents && rung[0].lastNonempty == 0 && rung[0].current == minTs
                    else
                      rung[nRung - 1] == Rung(Empties(MAX_BUCKET_CNT), RungWidth(old(rung[nRung - 1].width), numEvents), 0, initVal, initVal))
              else nRung == old(nRung) && rung[..] == old(rung[..])
    {
      RungsHave(rung[..], nRung);
      hide RungsOk, Held, AllEmpty, RungWidth;
      if nRung == 0 {
        topStart := maxTs;
        var buckets := Grow(rung[0].buckets, 2 * numEvents);
        OpenRung(Rung(buckets, RungWidth(maxTs - minTs, numEvents), 0, minTs, minTs));
        return Created;
      }
      if rung[nRung - 1].width <= MIN_BUCKET_WIDTH {
        return WidthIsStatic;
      }
      if nRung >= MAX_RUNG_CNT {
        return TooManyRungs;
      }
      NoneInside(rung[nRung].buckets);
      OpenRung(Rung(rung[nRung].buckets, RungWidth(rung[nRung - 1].width, numEvents), 0, initVal, initVal));
      return Created;
    }

    method CreateRungForBottomTransfer(startVal: nat)
      requires rung.Length == MAX_RUNG_CNT && RungsOk(rung[..], nRung) && nRung < MAX_RUNG_CNT && bottom != []
      requires if nRung == 0 then topStart >= startVal else rung[nRung - 1].current >= startVal
      modifies `nRung, rung
      ensures RungsOk(rung[..], nRung) && Held(rung[..]) == old(Held(rung[..]))
      ensures nRung == old(nRung) + 1 && rung[nRung - 1].start == rung[nRung - 1].current == startVal
      ensures AllEmpty(rung[nRung - 1].buckets)
      ensures rung[nRung - 1].width == if old(nRung) == 0 then BottomWidth(topStart - startVal, |bottom|)
                                       else BottomWidth(old(rung[nRung - 1].current) - startVal, THRESHOLD)
      ensures rung[..] == old(rung[..])[nRung - 1 := rung[nRung - 1]]
    {
      RungsHave(rung[..], nRung);
      hide RungsOk, Held, AllEmpty, BottomWidth, RungOk;
      var buckets, width;
      if nRung == 0 {
        buckets := Grow(rung[0].buckets, 2 * |bottom|);
        width := BottomWidth(topStart - startVal, |bottom|);
      } else {
        buckets, width := rung[nRung].buckets, BottomWidth(rung[nRung - 1].current - startVal, THRESHOLD);
      }
      OpenRung(Rung(buckets, width, 0, startVal, startVal));
    }

    // ----------------------------------------------------------------------------------------
    // Insert
    // ----------------------------------------------------------------------------------------

    /** The event goes to rung i, whose current start would follow if the bucket were earlier. */
    method InsertIntoRung(event: Event, i: nat)
      requires rung.Length == MAX_RUNG_CNT && RungsOk(rung[..], nRung) && i < nRung && event.body.ts >= rung[i].current
      modifies rung
      ensures RungsOk(rung[..], nRung) && Held(rung[..]) == old(Held(rung[..])) + multiset{event}
      ensures rung[i] == Put(old(rung[i]), event) && rung[..] == old(rung[..])[i := rung[i]]
      ensures Poured(rung[i].buckets) == old(Poured(rung[i].buckets)) + multiset{event}
    {
      RungHas(rung[..], nRung, i);
      SlotFromCurrent(rung[i], event.body.ts);
      PutKeepsFrame(rung[i], event);
      SameWidth(rung[i], Put(rung[i], event));
      hide *;
      var bucketIndex := Slot(rung[i], event.body.ts);
      var r := Put(rung[i], event);
      var tempTs := BucketStart(rung[i], bucketIndex);
      if r.current > tempTs {
        r := r.(current := tempTs);
      }
      PutIntoRungs(rung[..], nRung, i, event);
      SetRung(i, r);
    }

    method InsertIntoBottom(event: Event)
      requires WeaklySorted(bottom)
      modifies `bottom
      ensures WeaklySorted(bottom) && multiset(bottom) == old(multiset(bottom)) + multiset{event}
      ensures bottom == Events.Insert(old(bottom), event)
    {
      InsertKeepsOrder(bottom, event);
      bottom := Events.Insert(bottom, event);
    }

    /** A new rung takes everything from bottom. */
    method SpreadBottom(startVal: nat) returns (ghost r: Rung)
      requires rung.Length == MAX_RUNG_CNT && RungsOk(rung[..], nRung) && nRung < MAX_RUNG_CNT && bottom != []
      requires if nRung == 0 then topStart >= startVal else rung[nRung - 1].current >= startVal
      requires AllFrom(bottom, startVal)
      modifies `nRung, `bottom, rung
      ensures RungsOk(rung[..], nRung) && bottom == [] && nRung == old(nRung) + 1 <= MAX_RUNG_CNT
      ensures Held(rung[..]) == old(Held(rung[..])) + multiset(old(bottom))
      ensures forall k :: 0 <= k < MAX_RUNG_CNT && k != nRung - 1 ==> rung[k] == old(rung[k])
      ensures r.start == r.current == startVal && r.width > 0 && r.buckets != [] && AllEmpty(r.buckets)
      ensures r.width == if old(nRung) == 0 then BottomWidth(topStart - startVal, |old(bottom)|)
                         else BottomWidth(old(rung[nRung - 1].current) - startVal, THRESHOLD)
      ensures rung[nRung - 1] == PutAll(r, old(bottom)) && rung[nRung - 1].start == rung[nRung - 1].current == startVal
      ensures Poured(rung[nRung - 1].buckets) == multiset{} + multiset(old(bottom))
    {
      hide RungsOk, Held, Poured, BottomWidth, PutAll, RungOk, AllEmpty, AllFrom;
      CreateRungForBottomTransfer(startVal);
      RungsHave(rung[..], nRung);
      r := rung[nRung - 1];
      EmptyHoldsNothing(r);
      Spread(bottom);
      bottom := [];
    }

    method TransferStart(event: Event) returns (bucketStartTs: nat)
      requires bottom != [] && WeaklySorted(bottom)
      ensures bucketStartTs == Min(bottom[0].body.ts, event.body.ts) <= event.body.ts && AllFrom(bottom, bucketStartTs)
    {
      FirstIsEarliest(bottom);
      bucketStartTs := bottom[0].body.ts;
      if bucketStartTs > event.body.ts {
        bucketStartTs := event.body.ts;
      }
    }

    /** A new rung takes everything from bottom, and the event. */
    method TransferBottom(event: Event)
      requires rung.Length == MAX_RUNG_CNT && RungsOk(rung[..], nRung) && WeaklySorted(bottom)
      requires nRung < MAX_RUNG_CNT && bottom != []
      requires event.body.ts <= topStart && (nRung > 0 ==> event.body.ts < rung[nRung - 1].current)
      modifies `nRung, `bottom, rung
      ensures RungsOk(rung[..], nRung) && bottom == [] && nRung == old(nRung) + 1
      ensures Held(rung[..]) == old(Held(rung[..])) + multiset(old(bottom)) + multiset{event}
      ensures Poured(rung[nRung - 1].buckets) == (multiset{} + multiset(old(bottom))) + multiset{event}
      ensures Transferred(old(rung[..]), rung[..], old(nRung), old(bottom), event, topStart)
    {
      hide *;
      var bucketStartTs := TransferStart(event);
      ghost var was, list := rung[..], bottom;
      var n := nRung;
      ghost var r := SpreadBottom(bucketStartTs);
      RungHas(rung[..], nRung, n);
      InsertIntoRung(event, n);
      TransferredRung(r, list, event, rung[n]);
      TransferIsDone(was, rung[..], n, list, event, topStart);
    }

    /** The times of all rungs in use are later. */
    ghost predicate BelowRungs(ts: nat)
      reads this, rung
      requires rung.Length == MAX_RUNG_CNT && nRung <= MAX_RUNG_CNT
    {
      forall i :: 0 <= i < nRung ==> ts < rung[i].current
    }

    /** The first rung whose current start is not later. */
    method FindRung(timestamp: nat) returns (rungIndex: nat)
      requires rung.Length == MAX_RUNG_CNT && nRung <= MAX_RUNG_CNT
      ensures rungIndex <= nRung && (rungIndex < nRung ==> rung[rungIndex].current <= timestamp)
      ensures forall i :: 0 <= i < rungIndex ==> timestamp < rung[i].current
      ensures rungIndex == Chosen(rung[..], nRung, timestamp)
    {
      rungIndex := 0;
      while rungIndex < nRung && timestamp < rung[rungIndex].current
        invariant 0 <= rungIndex <= nRung
        invariant forall i :: 0 <= i < rungIndex ==> timestamp < rung[i].current
      {
        rungIndex := rungIndex + 1;
      }
      ChosenIsFirst(rung[..], nRung, timestamp, rungIndex);
    }

    /** No rung takes the event: it goes to bottom, or to a new rung together with all of bottom. */
    method InsertBelowRungs(event: Event)
      requires rung.Length == MAX_RUNG_CNT && RungsOk(rung[..], nRung) && WeaklySorted(bottom)
      requires event.body.ts <= topStart && nRung <= MAX_RUNG_CNT && BelowRungs(event.body.ts)
      modifies `nRung, `bottom, rung
      ensures RungsOk(rung[..], nRung) && WeaklySorted(bottom)
      ensures Held(rung[..]) + multiset(bottom) == old(Held(rung[..]) + multiset(bottom)) + multiset{event}
      ensures old(InOrder(rung[..], nRung, bottom)) ==>
                (InOrder(rung[..], nRung, bottom) <==> old(Fits(rung[..], nRung, bottom, nRung, event)))
      ensures if |old(bottom)| < THRESHOLD || old(nRung) == MAX_RUNG_CNT then
                bottom == Events.Insert(old(bottom), event) && nRung == old(nRung) && rung[..] == old(rung[..])
              else
                && bottom == [] && nRung == old(nRung) + 1
                && Transferred(old(rung[..]), rung[..], old(nRung), old(bottom), event, topStart)
    {
      NothingSorted();
      hide RungsOk, Held, WeaklySorted, Transferred, Events.Insert, InOrder, Fits, Poured;
      ghost var was, n, before := rung[..], nRung, bottom;
      if |bottom| >= THRESHOLD && nRung < MAX_RUNG_CNT {
        TransferBottom(event);
        NewRungOrder(was, rung[..], n, before, event, topStart);
      } else {
        InsertIntoBottom(event);
        BottomOrder(was, n, before, bottom, event);
      }
    }

    method InsertAtRung(event: Event, rungIndex: nat)
      requires rung.Length == MAX_RUNG_CNT && RungsOk(rung[..], nRung) && rungIndex < nRung <= MAX_RUNG_CNT
      requires rung[rungIndex].current <= event.body.ts
      modifies rung
      ensures RungsOk(rung[..], nRung) && Held(rung[..]) == old(Held(rung[..])) + multiset{event}
      ensures old(rung[rungIndex].width > 0 && rung[rungIndex].buckets != [] && event.body.ts >= rung[rungIndex].start)
      ensures rung[..] == old(rung[..][rungIndex := Put(rung[rungIndex], event)])
      ensures old(InOrder(rung[..], nRung, bottom)) ==>
                (InOrder(rung[..], nRung, bottom) <==> old(Fits(rung[..], nRung, bottom, rungIndex, event)))
    {
      RungHas(rung[..], nRung, rungIndex);
      hide RungsOk, Held, Poured, InOrder, Fits, Put, Slot, BucketStart, RungOk;
      ghost var was := rung[..];
      InsertIntoRung(event, rungIndex);
      RungOrder(was, rung[..], nRung, bottom, rungIndex, event);
    }

    ghost function Ladders(): Ladder
      reads this, rung
    {
      Ladder(rung[..], nRung, bottom)
    }

    method InsertNear(event: Event)
      requires rung.Length == MAX_RUNG_CNT && RungsOk(rung[..], nRung) && WeaklySorted(bottom) && event.body.ts <= topStart
      modifies `nRung, `bottom, rung
      ensures RungsOk(rung[..], nRung) && WeaklySorted(bottom)
      ensures Held(rung[..]) + multiset(bottom) == old(Held(rung[..]) + multiset(bottom)) + multiset{event}
      ensures InsertedNear(old(Ladder(rung[..], nRung, bottom)), Ladder(rung[..], nRung, bottom), event, topStart)
    {
      RungsHave(rung[..], nRung);
      ghost var was := Ladder(rung[..], nRung, bottom);
      hide *;
      var rungIndex := FindRung(event.body.ts);
      if rungIndex < nRung {
        InsertAtRung(event, rungIndex);
        InsertedAtRung(was, Ladder(rung[..], nRung, bottom), rungIndex, event, topStart);
        MoveOut(old(Held(rung[..])), multiset(bottom), multiset{event});
      } else {
        assert BelowRungs(event.body.ts);
        InsertBelowRungs(event);
        InsertedBelowRungs(was, Ladder(rung[..], nRung, bottom), event, topStart);
      }
    }

    method InsertEarly(event: Event)
      requires Valid() && event.body.ts <= topStart
      modifies `nRung, `bottom, rung
      ensures Valid() && Contents() == old(Contents()) + multiset{event}
      ensures InsertedNear(old(Ladders()), Ladders(), event, topStart)
    {
      hide RungsOk, WeaklySorted, Held, InsertedNear;
      InsertNear(event);
    }

    lemma AtMostEight()
      requires Valid()
      ensures rung.Length == MAX_RUNG_CNT && nRung <= MAX_RUNG_CNT
    {
    }

    /** No assertion of insert() ever fails, and the event goes where it should: later ones to top. */
    method Insert(event: Event)
      requires Valid()
      modifies this, rung
      ensures Valid() && Contents() == old(Contents()) + multiset{event} && topStart == old(topStart)
      ensures if event.body.ts > topStart then
                top == [event] + old(top) && bottom == old(bottom) && nRung == old(nRung) && rung[..] == old(rung[..])
              else top == old(top) && minTs == old(minTs) && maxTs == old(maxTs)
      ensures maxTs == if event.body.ts > topStart && (old(top) == [] || event.body.ts > old(maxTs)) then event.body.ts
                       else old(maxTs)
      ensures minTs == if event.body.ts > topStart && (old(top) == [] || event.body.ts < old(minTs)) then event.body.ts
                       else old(minTs)
      ensures event.body.ts > topStart ==> (IsOrdered() <==> old(IsOrdered()))
      ensures event.body.ts <= topStart ==> InsertedNear(old(Ladders()), Ladders(), event, topStart)
    {
      hide RungsOk, WeaklySorted, Held, InsertedNear, InOrder;
      if event.body.ts > topStart {
        InsertIntoTop(event);
      } else {
        InsertEarly(event);
      }
    }

    method InsertIntoTop(event: Event)
      requires Valid() && event.body.ts > topStart
      modifies `top, `minTs, `maxTs
      ensures Valid() && Contents() == old(Contents()) + multiset{event} && top == [event] + old(top)
      ensures maxTs == if old(top) == [] || event.body.ts > old(maxTs) then event.body.ts else old(maxTs)
      ensures minTs == if old(top) == [] || event.body.ts < old(minTs) then event.body.ts else old(minTs)
    {
      hide RungsOk, Held, WeaklySorted;
      var timestamp := event.body.ts;
      if top == [] {
        maxTs, minTs := timestamp, timestamp;
      } else {
        if minTs > timestamp {
          minTs := timestamp;
        }
        if maxTs < timestamp {
          maxTs := timestamp;
        }
      }
      top := [event] + top;
    }

    // ----------------------------------------------------------------------------------------
    // Erase
    // ----------------------------------------------------------------------------------------

    /** The event is looked for where it would be inserted now: in top, in the bucket of a rung, or in
        bottom.  If it is not in the bucket, or bottom is empty, an assertion fails. */
    method Erase(event: Event) returns (outcome: Erasure)
      requires Valid()
      modifies this, rung
      ensures Valid() && topStart == old(topStart) && minTs == old(minTs) && maxTs == old(maxTs)
      ensures event.body.ts > topStart ==>
                && top == WithoutOne(old(top), event) && Ladders() == old(Ladders())
                && outcome == if old(top) == [] then EraseFailed else Erased(event in old(top))
      ensures event.body.ts <= topStart ==>
                top == old(top) && ErasedNear(old(Ladders()), Ladders(), event, outcome)
      ensures Loses(old(Contents()), Contents(), event)
    {
      hide RungsOk, WeaklySorted, Held, ErasedNear, Loses, WithoutOne;
      if event.body.ts > topStart {
        outcome := EraseFromTop(event);
      } else {
        outcome := EraseEarly(event);
      }
    }

    method EraseFromTop(event: Event) returns (outcome: Erasure)
      requires Valid()
      modifies `top
      ensures Valid() && top == WithoutOne(old(top), event)
      ensures outcome == if old(top) == [] then EraseFailed else Erased(event in old(top))
      ensures Loses(old(Contents()), Contents(), event)
    {
      hide RungsOk, WeaklySorted, Held, Loses;
      FewerInList(top, event);
      LosesThere(multiset(top), multiset(WithoutOne(top, event)), Near(), event);
      if top == [] {
        return EraseFailed;
      }
      hide WithoutOne;
      var found;
      found, top := EraseFromList(top, event);
      return Erased(found);
    }

    method EraseEarly(event: Event) returns (outcome: Erasure)
      requires Valid() && event.body.ts <= topStart
      modifies `bottom, rung
      ensures Valid() && Loses(old(Contents()), Contents(), event) && ErasedNear(old(Ladders()), Ladders(), event, outcome)
    {
      hide RungsOk, WeaklySorted, Held, ErasedNear, Loses;
      ghost var near := Near();
      outcome := EraseNear(event);
      LosesThere(near, Near(), multiset(top), event);
      NearIsLess(near, Near(), event);
    }

    method EraseNear(event: Event) returns (outcome: Erasure)
      requires rung.Length == MAX_RUNG_CNT && RungsOk(rung[..], nRung) && WeaklySorted(bottom)
      modifies `bottom, rung
      ensures RungsOk(rung[..], nRung) && WeaklySorted(bottom)
      ensures ErasedNear(old(Ladder(rung[..], nRung, bottom)), Ladder(rung[..], nRung, bottom), event, outcome)
      ensures Loses(old(Held(rung[..]) + multiset(bottom)), Held(rung[..]) + multiset(bottom), event)
    {
      RungsHave(rung[..], nRung);
      ghost var was := Ladder(rung[..], nRung, bottom);
      hide *;
      var rungIndex := FindRung(event.body.ts);
      if rungIndex < nRung {
        outcome := EraseFromBucket(event, rungIndex);
        LosesThere(Held(was.rungs), Held(rung[..]), multiset(bottom), event);
        ErasedAtRung(was, rungIndex, rung[rungIndex], event, outcome);
      } else {
        outcome := EraseFromBottom(event);
        LosesThere(multiset(was.bottom), multiset(bottom), Held(rung[..]), event);
        ErasedBelowRungs(was, Ladder(rung[..], nRung, bottom), event, outcome);
      }
    }

    method EraseFromBottom(event: Event) returns (outcome: Erasure)
      requires WeaklySorted(bottom)
      modifies `bottom
      ensures WeaklySorted(bottom) && Loses(multiset(old(bottom)), multiset(bottom), event)
      ensures bottom == Events.Erase(old(bottom), event) && outcome == if old(bottom) == [] then EraseFailed else Erased(true)
    {
      EraseKeepsWeakly(bottom, event);
      EraseLoses(bottom, event);
      hide Loses, WeaklySorted;
      if bottom == [] {
        return EraseFailed;
      }
      bottom := Events.Erase(bottom, event);
      return Erased(true);
    }

    method EraseFromBucket(event: Event, i: nat) returns (outcome: Erasure)
      requires rung.Length == MAX_RUNG_CNT && RungsOk(rung[..], nRung) && i < nRung <= MAX_RUNG_CNT
      requires rung[i].current <= event.body.ts
      modifies rung
      ensures RungsOk(rung[..], nRung) && Loses(old(Held(rung[..])), Held(rung[..]), event)
      ensures FromBucket(old(rung[i]), rung[i], event, outcome) && rung[..] == old(rung[..])[i := rung[i]]
    {
      RungHas(rung[..], nRung, i);
      LosesNone(Held(rung[..]), event);
      ghost var was := rung[..];
      hide RungsOk, Held, Slot, Removed, RungOk, Loses, Poured;
      if event !in rung[i].buckets[Slot(rung[i], event.body.ts)] {
        return EraseFailed;
      }
      var r := RemoveFromRung(rung[i], event);
      RemovedIsOk(was, nRung, i, r, event);
      SetRung(i, r);
      return Erased(true);
    }

    // ----------------------------------------------------------------------------------------
    // Begin
    // ----------------------------------------------------------------------------------------

    /** The first bucket of the last rung that has events; the rung's current start moves there. */
    method ProbeLast() returns (bucketIndex: nat)
      requires rung.Length == MAX_RUNG_CNT && RungsOk(rung[..], nRung) && nRung > 0
      modifies rung
      ensures RungsOk(rung[..], nRung) && Held(rung[..]) == old(Held(rung[..]))
      ensures rung[..] == old(rung[..])[nRung - 1 := rung[nRung - 1]]
      ensures var r := rung[nRung - 1];
              && r == old(rung[nRung - 1]).(current := r.current) && bucketIndex <= |r.buckets|
              && (if bucketIndex == |r.buckets| then AllEmpty(r.buckets)
                  else FirstNonempty(r.buckets, bucketIndex) && r.current == BucketStart(r, bucketIndex))
    {
      RungHas(rung[..], nRung, nRung - 1);
      ghost var was := rung[..];
      var r := rung[nRung - 1];
      bucketIndex := FindNonempty(r.buckets, 0);
      var current := if bucketIndex < |r.buckets| then BucketStart(r, bucketIndex) else r.start;
      ProbedAt(r, bucketIndex);
      hide *;
      MoveCurrent(was, nRung, nRung - 1, current);
      SetRung(nRung - 1, r.(current := current));
    }

    method CloseLast()
      requires rung.Length == MAX_RUNG_CNT && RungsOk(rung[..], nRung) && nRung > 0 && AllEmpty(rung[nRung - 1].buckets)
      modifies `nRung, rung
      ensures RungsOk(rung[..], nRung) && nRung == old(nRung) - 1 && Held(rung[..]) == old(Held(rung[..]))
      ensures forall k :: 0 <= k < nRung ==> rung[k] == old(rung[k])
    {
      RungsHave(rung[..], nRung);
      hide RungsOk, Held, AllEmpty;
      ghost var was := rung[..];
      CloseKeepsRungs(was, nRung);
      SetRung(nRung - 1, Closed(rung[nRung - 1]));
      nRung := nRung - 1;
    }

    /** The first bucket with events is emptied; the rung's current start and last bucket follow. */
    method ClearBucket(k: nat, bucketIndex: nat)
      requires rung.Length == MAX_RUNG_CNT && RungsOk(rung[..], nRung) && k < nRung
      requires FirstNonempty(rung[k].buckets, bucketIndex)
      modifies rung
      ensures RungsOk(rung[..], nRung) && Held(rung[..]) + multiset(old(rung[k].buckets[bucketIndex])) == old(Held(rung[..]))
      ensures LostBucket(old(rung[k]), rung[k], bucketIndex) && rung[..] == old(rung[..])[k := rung[k]]
    {
      ghost var before := rung[..];
      RungHas(before, nRung, k);
      WithoutIsOpenAt(rung[k], bucketIndex);
      var r := Recalculate(Without(rung[k], bucketIndex), bucketIndex);
      ItRestarted(rung[k], Without(rung[k], bucketIndex), r, bucketIndex);
      hide RungsOk, Held, RungOk, Poured, AllEmpty, OpenAt, LostBucket;
      ClearedIsOk(before, nRung, k, bucketIndex, r);
      SetRung(k, r);
    }

    /** The events of a bucket move to the new rung. */
    method SplitBucket(bucketIndex: nat)
      requires rung.Length == MAX_RUNG_CNT && RungsOk(rung[..], nRung) && 2 <= nRung <= MAX_RUNG_CNT
      requires var r := rung[nRung - 2];
               FirstNonempty(r.buckets, bucketIndex) && AllFrom(r.buckets[bucketIndex], rung[nRung - 1].start)
      modifies rung
      ensures RungsOk(rung[..], nRung) && Held(rung[..]) == old(Held(rung[..]))
      ensures nRung <= MAX_RUNG_CNT && !AllEmpty(rung[nRung - 1].buckets)
      ensures rung[nRung - 1] == PutAll(old(rung[nRung - 1]), old(rung[nRung - 2].buckets[bucketIndex]))
      ensures LostBucket(old(rung[nRung - 2]), rung[nRung - 2], bucketIndex)
      ensures rung[..] == old(rung[..])[nRung - 1 := rung[nRung - 1]][nRung - 2 := rung[nRung - 2]]
      ensures Poured(rung[nRung - 1].buckets) == old(Poured(rung[nRung - 1].buckets)) + multiset(old(rung[nRung - 2].buckets[bucketIndex]))
    {
      var k := nRung - 2;
      RungHas(rung[..], nRung, k);
      RungHas(rung[..], nRung, nRung - 1);
      var list := rung[k].buckets[bucketIndex];
      assert list != [];
      hide *;
      ghost var held, poured := Held(rung[..]), Poured(rung[nRung - 1].buckets);
      Spread(list);
      GainedSome(rung[nRung - 1].buckets, poured, list);
      ClearBucket(k, bucketIndex);
      CancelSame(Held(rung[..]), held, multiset(list));
    }

    /** An overfull bucket is split, unless it is too narrow or no rung is left. */
    method TrySplit(bucketIndex: nat) returns (found: Option<Found>)
      requires rung.Length == MAX_RUNG_CNT && RungsOk(rung[..], nRung) && 0 < nRung <= MAX_RUNG_CNT
      requires var r := rung[nRung - 1];
               FirstNonempty(r.buckets, bucketIndex) && AllFrom(r.buckets[bucketIndex], r.current)
               && |r.buckets[bucketIndex]| > THRESHOLD
      modifies `nRung, `topStart, rung
      ensures RungsOk(rung[..], nRung) && Held(rung[..]) == old(Held(rung[..])) && topStart == old(topStart)
      ensures old(InOrder(rung[..], nRung, [])) ==> InOrder(rung[..], nRung, [])
      ensures match found
              case None =>
                && nRung == old(nRung) + 1 <= MAX_RUNG_CNT && !AllEmpty(rung[nRung - 1].buckets)
                && old(rung[nRung - 1].width) > MIN_BUCKET_WIDTH
                && rung[nRung - 1] == old(Divided(rung[nRung - 1].buckets[bucketIndex], rung[nRung - 1].current, rung[nRung - 1].width))
                && LostBucket(old(rung[nRung - 1]), rung[nRung - 2], bucketIndex)
                && rung[..] == old(rung[..])[nRung - 1 := rung[nRung - 1]][nRung - 2 := rung[nRung - 2]]
              case Some(f) =>
                && nRung == old(nRung) && rung[..] == old(rung[..])
                && (if rung[nRung - 1].width <= MIN_BUCKET_WIDTH then f == Bucket(bucketIndex)
                    else f == Overflow && nRung == MAX_RUNG_CNT)
    {
      RungHas(rung[..], nRung, nRung - 1);
      IsInside(rung[nRung - 1].buckets, bucketIndex);
      hide RungsOk, Held, AllEmpty, BucketStart, InOrder, Poured, Without, RungOk, Divided, LostBucket, FirstNonempty, RungWidth,
           Empties, AllFrom;
      ghost var was := rung[..];
      var r := rung[nRung - 1];
      var outcome := CreateNewRung(|r.buckets[bucketIndex]|, r.current);
      if outcome == WidthIsStatic {
        return Some(Bucket(bucketIndex));
      }
      if outcome == TooManyRungs {
        return Some(Overflow);
      }
      OpenedStaysOrdered(was, nRung - 1, rung[nRung - 1], []);
      ghost var part := rung[nRung - 1];
      SplitLast(bucketIndex, r);
      UpdateTwice(was, nRung - 1, part, rung[nRung - 1]);
      return None;
    }

    /** The new rung takes over the bucket. */
    method SplitLast(bucketIndex: nat, ghost r: Rung)
      requires rung.Length == MAX_RUNG_CNT && RungsOk(rung[..], nRung) && 2 <= nRung <= MAX_RUNG_CNT
      requires rung[nRung - 2] == r && RungOk(r) && FirstNonempty(r.buckets, bucketIndex)
      requires AllFrom(r.buckets[bucketIndex], r.current) && AllEmpty(rung[nRung - 1].buckets)
      requires rung[nRung - 1] == Rung(Empties(MAX_BUCKET_CNT), RungWidth(r.width, |r.buckets[bucketIndex]|), 0, r.current, r.current)
      modifies rung
      ensures RungsOk(rung[..], nRung) && Held(rung[..]) == old(Held(rung[..])) && !AllEmpty(rung[nRung - 1].buckets)
      ensures rung[nRung - 1] == Divided(r.buckets[bucketIndex], r.current, r.width)
      ensures LostBucket(r, rung[nRung - 2], bucketIndex)
      ensures rung[..] == old(rung[..])[nRung - 1 := rung[nRung - 1]][nRung - 2 := rung[nRung - 2]]
      ensures old(InOrder(rung[..], nRung - 1, [])) ==> InOrder(rung[..], nRung, [])
    {
      EmptyHoldsNothing(rung[nRung - 1]);
      IsInside(r.buckets, bucketIndex);
      DividedIs(r.buckets[bucketIndex], r.current, r.width);
      hide *;
      ghost var before := rung[..];
      SplitBucket(bucketIndex);
      SplitIsOrdered(before, nRung - 1, bucketIndex, rung[nRung - 2], rung[nRung - 1]);
    }

    /** The last rung has events: its first bucket is fine, or too many, or it is divided. */
    method DivideFirst(bucketIndex: nat) returns (found: Option<Found>)
      requires rung.Length == MAX_RUNG_CNT && RungsOk(rung[..], nRung) && 0 < nRung <= MAX_RUNG_CNT
      requires var r := rung[nRung - 1]; FirstNonempty(r.buckets, bucketIndex) && r.current == BucketStart(r, bucketIndex)
      modifies `nRung, `topStart, rung
      ensures RungsOk(rung[..], nRung) && Held(rung[..]) == old(Held(rung[..])) && topStart == old(topStart)
      ensures match found
              case None => nRung == old(nRung) + 1 <= MAX_RUNG_CNT && !AllEmpty(rung[nRung - 1].buckets)
              case Some(f) => nRung == old(nRung) && !f.NoBucket?
      ensures found.Some? && found.value.Bucket? ==>
                var r, j := rung[nRung - 1], found.value.index;
                FirstNonempty(r.buckets, j) && (|r.buckets[j]| <= THRESHOLD || r.width <= MIN_BUCKET_WIDTH)
      ensures found == Some(Overflow) ==> nRung == MAX_RUNG_CNT && Overflows(rung[MAX_RUNG_CNT - 1])
      ensures old(Doomed(rung[..], nRung)) == if found.Some? then found.value.Overflow? else Doomed(rung[..], nRung)
      ensures |old(rung[nRung - 1].buckets[bucketIndex])| <= THRESHOLD ==> found.Some?
      ensures old(InOrder(rung[..], nRung, [])) ==> InOrder(rung[..], nRung, [])
      ensures found.None? ==>
                && Divides(old(rung[nRung - 1]), rung[nRung - 2], rung[nRung - 1], bucketIndex)
                && forall k :: 0 <= k < nRung - 2 ==> rung[k] == old(rung[k])
      ensures found.Some? ==> rung[..] == old(rung[..]) && (found.value.Bucket? ==> found.value.index == bucketIndex)
    {
      hide RungsOk, Held, AllEmpty, BucketStart, Doomed, Crowded, Divided, FirstNonempty, InOrder, LostBucket;
      ghost var was := rung[..];
      DoomedLast(was, nRung, bucketIndex);
      IsInside(rung[nRung - 1].buckets, bucketIndex);
      if |rung[nRung - 1].buckets[bucketIndex]| <= THRESHOLD {
        NoCrowd(rung[nRung - 1], bucketIndex, MAX_RUNG_CNT - nRung);
        return Some(Bucket(bucketIndex));
      }
      found := TrySplit(bucketIndex);
      if found.None? {
        DividedIsDoomed(was, rung[..], nRung - 1, bucketIndex);
      } else {
        NoRungLeft(rung[nRung - 1], bucketIndex, MAX_RUNG_CNT - nRung);
      }
    }

    /** One turn of the loop of recurseRung. */
    method RecurseStep() returns (found: Option<Found>)
      requires rung.Length == MAX_RUNG_CNT && RungsOk(rung[..], nRung) && 0 < nRung <= MAX_RUNG_CNT
      modifies `nRung, `topStart, rung
      ensures RungsOk(rung[..], nRung) && Held(rung[..]) == old(Held(rung[..])) && topStart == old(topStart)
      ensures nRung <= MAX_RUNG_CNT
      ensures found.None? ==> if old(AllEmpty(rung[nRung - 1].buckets)) then nRung == old(nRung) - 1
                              else nRung == old(nRung) + 1 && !AllEmpty(rung[nRung - 1].buckets)
      ensures found.Some? ==> nRung > 0 && Held(rung[..]) != multiset{} && !found.value.NoBucket?
      ensures found.Some? && found.value.Bucket? ==>
                var r, j := rung[nRung - 1], found.value.index;
                FirstNonempty(r.buckets, j) && (|r.buckets[j]| <= THRESHOLD || r.width <= MIN_BUCKET_WIDTH)
      ensures found == Some(Overflow) ==> nRung == MAX_RUNG_CNT && Overflows(rung[MAX_RUNG_CNT - 1])
      ensures old(Doomed(rung[..], nRung)) == if found.Some? then found.value.Overflow? else Doomed(rung[..], nRung)
      ensures old(Few(Held(rung[..]))) ==> nRung <= old(nRung)
      ensures old(InOrder(rung[..], nRung, [])) ==> InOrder(rung[..], nRung, [])
      ensures found.None? ==> Turn(old(Ladder(rung[..], nRung, bottom)), Ladder(rung[..], nRung, bottom))
      ensures found.Some? && found.value.Bucket? ==> Probed(old(Ladder(rung[..], nRung, bottom)), Ladder(rung[..], nRung, bottom), found.value.index)
    {
      hide *;
      ghost var start := Ladder(rung[..], nRung, bottom);
      ghost var was := rung[..];
      var bucketIndex := ProbeLast();
      ghost var probed := rung[..];
      DoomedBelow(was, probed, nRung);
      StaysOrdered(was, nRung, probed, nRung, []);
      if bucketIndex == |rung[nRung - 1].buckets| {
        CloseLast();
        LastDoesNotCount(probed, rung[..], nRung + 1);
        StaysOrdered(probed, nRung + 1, rung[..], nRung, []);
        ClosingTurn(start, Ladder(rung[..], nRung, bottom));
        return None;
      }
      HoldsSome(rung[..], nRung - 1, bucketIndex);
      BucketIsPart(rung[..], nRung - 1, bucketIndex);
      found := DivideFirst(bucketIndex);
      if found.None? {
        DividingTurn(start, Ladder(probed, nRung - 1, bottom), Ladder(rung[..], nRung, bottom), bucketIndex);
      } else if found.value.Bucket? {
        LookedUp(start, Ladder(rung[..], nRung, bottom), bucketIndex);
      }
    }

    /** What the loop of recurseRung keeps. */
    ghost predicate Recursing(held: multiset<Event>, doomed: bool, few: nat, ordered: bool, start: Ladder)
      reads this, rung
    {
      && rung.Length == MAX_RUNG_CNT && RungsOk(rung[..], nRung) && nRung <= MAX_RUNG_CNT
      && Held(rung[..]) == held && Doomed(rung[..], nRung) == doomed
      && (Few(held) ==> nRung <= few)
      && (ordered ==> InOrder(rung[..], nRung, []))
      && exists d :: Turns(start, Ladder(rung[..], nRung, bottom), d)
    }

    /** What it ends with. */
    ghost predicate Recursed(found: Found, held: multiset<Event>, doomed: bool, few: nat, ordered: bool, start: Ladder)
      reads this, rung
    {
      && rung.Length == MAX_RUNG_CNT && RungsOk(rung[..], nRung) && nRung <= MAX_RUNG_CNT && Held(rung[..]) == held
      && (Few(held) ==> nRung <= few)
      && (ordered ==> InOrder(rung[..], nRung, []))
      && (found.NoBucket? <==> held == multiset{}) && (found.NoBucket? <==> nRung == 0)
      && (found.Overflow? <==> doomed)
      && (found.Overflow? ==> nRung == MAX_RUNG_CNT && Overflows(rung[MAX_RUNG_CNT - 1]))
      && (found.Bucket? ==>
            var r, j := rung[nRung - 1], found.index;
            FirstNonempty(r.buckets, j) && (|r.buckets[j]| <= THRESHOLD || r.width <= MIN_BUCKET_WIDTH))
      && (found.Bucket? ==> Ended(start, Ladder(rung[..], nRung, bottom), found.index))
    }

    method RecurseTurn(ghost held: multiset<Event>, ghost doomed: bool, ghost few: nat, ghost ordered: bool, ghost start: Ladder)
      returns (found: Option<Found>)
      requires Recursing(held, doomed, few, ordered, start) && nRung > 0
      modifies `nRung, `topStart, rung
      ensures topStart == old(topStart)
      ensures found.Some? ==> Recursed(found.value, held, doomed, few, ordered, start)
      ensures found.None? ==> Recursing(held, doomed, few, ordered, start) && nRung <= |rung[..]| == MAX_RUNG_CNT
      ensures found.None? ==> Measure(rung[..], nRung) < old(Measure(rung[..], nRung))
    {
      hide RungsOk, Held, Doomed, Few, InOrder, Measure, AllEmpty, FirstNonempty, Overflows, Turn, Turns, Probed, Ended;
      ghost var was, n := rung[..], nRung;
      ghost var d :| Turns(start, Ladder(rung[..], nRung, bottom), d);
      found := RecurseStep();
      if found.None? {
        MeasureFalls(was, n, rung[..], nRung);
        TurnsOn(start, Ladder(was, n, bottom), d, Ladder(rung[..], nRung, bottom));
      } else if found.value.Bucket? {
        EndsWith(start, Ladder(was, n, bottom), d, Ladder(rung[..], nRung, bottom), found.value.index);
      }
    }

    method RecurseLoop(ghost held: multiset<Event>, ghost doomed: bool, ghost few: nat, ghost ordered: bool, ghost start: Ladder)
      returns (found: Found)
      requires Recursing(held, doomed, few, ordered, start) && nRung <= |rung[..]| == MAX_RUNG_CNT
      modifies `nRung, `topStart, rung
      ensures Recursed(found, held, doomed, few, ordered, start) && topStart == old(topStart)
    {
      hide *;
      while nRung > 0
        invariant Recursing(held, doomed, few, ordered, start) && nRung <= |rung[..]| == MAX_RUNG_CNT && topStart == old(topStart)
        decreases Measure(rung[..], nRung)
      {
        var done := RecurseTurn(held, doomed, few, ordered, start);
        if done.Some? {
          return done.value;
        }
      }
      RecursedToNothing(held, doomed, few, ordered, start);
      return NoBucket;
    }

    lemma RecursedToNothing(held: multiset<Event>, doomed: bool, few: nat, ordered: bool, start: Ladder)
      requires Recursing(held, doomed, few, ordered, start) && nRung == 0
      ensures Recursed(NoBucket, held, doomed, few, ordered, start)
    {
      RungsHave(rung[..], nRung);
    }

    /** recurseRung: closes empty rungs and splits overfull buckets until the last rung's first bucket
        may be poured; gives up if that takes a ninth rung. */
    method RecurseRung() returns (found: Found)
      requires rung.Length == MAX_RUNG_CNT && RungsOk(rung[..], nRung)
      modifies `nRung, `topStart, rung
      ensures Recursed(found, old(Held(rung[..])), old(Doomed(rung[..], nRung)), old(nRung), old(InOrder(rung[..], nRung, [])),
                       old(Ladder(rung[..], nRung, bottom)))
      ensures topStart == old(topStart)
    {
      RungsHave(rung[..], nRung);
      NoTurns(Ladder(rung[..], nRung, bottom));
      hide RungsOk, Held, Doomed, Few, InOrder, Recursed, Turns;
      found := RecurseLoop(Held(rung[..]), Doomed(rung[..], nRung), nRung, InOrder(rung[..], nRung, []),
                           Ladder(rung[..], nRung, bottom));
    }

    /** Bottom takes the first bucket with events; all of it is earlier than what its rung still holds. */
    method Pour(bucketIndex: nat)
      requires rung.Length == MAX_RUNG_CNT && RungsOk(rung[..], nRung) && 0 < nRung <= MAX_RUNG_CNT && bottom == []
      requires FirstNonempty(rung[nRung - 1].buckets, bucketIndex)
      modifies `bottom, rung
      ensures OthersOk(rung[..], nRung, nRung - 1) && OpenAt(rung[nRung - 1], bucketIndex)
      ensures multiset(bottom) == multiset(old(rung[nRung - 1].buckets[bucketIndex]))
      ensures WeaklySorted(bottom) && bottom != [] && Held(rung[..]) + multiset(bottom) == old(Held(rung[..]))
      ensures EarlierThan(bottom, Poured(rung[nRung - 1].buckets))
      ensures rung[..] == old(rung[..][nRung - 1 := Without(rung[nRung - 1], bucketIndex)])
      ensures old(InOrder(rung[..], nRung, [])) ==> InOrder(rung[..], nRung, bottom)
    {
      ghost var before := rung[..];
      var r := rung[nRung - 1];
      var bucket := r.buckets[bucketIndex];
      assert bucket != [];
      hide *;
      FillBottom(bucket);
      PouredOut(before, nRung, bucketIndex, bottom);
      SetRung(nRung - 1, Without(r, bucketIndex));
    }

    method FillBottom(bucket: seq<Event>)
      requires bottom == []
      modifies `bottom
      ensures WeaklySorted(bottom) && multiset(bottom) == multiset(bucket) && |bottom| == |bucket|
    {
      NothingSorted();
      assert bucket[..0] == [];
      for i := 0 to |bucket|
        invariant WeaklySorted(bottom) && multiset(bottom) == multiset(bucket[..i]) && |bottom| == i
      {
        assert bucket[..i + 1] == bucket[..i] + [bucket[i]];
        InsertKeepsOrder(bottom, bucket[i]);
        bottom := Events.Insert(bottom, bucket[i]);
      }
      assert bucket[..|bucket|] == bucket;
    }

    static method FindNext(r: Rung, from: nat) returns (next: nat)
      requires from < r.lastNonempty <= |r.buckets| && r.buckets[r.lastNonempty - 1] != []
      ensures from <= next < r.lastNonempty && r.buckets[next] != [] && forall k :: from <= k < next ==> r.buckets[k] == []
    {
      next := from;
      while next < r.lastNonempty && r.buckets[next] == []
        invariant from <= next < r.lastNonempty && forall k :: from <= k < next ==> r.buckets[k] == []
      {
        next := next + 1;
      }
    }

    /** The rung's current start moves on to the next bucket with events; there is one. */
    method Advance(bucketIndex: nat)
      requires rung.Length == MAX_RUNG_CNT && 0 < nRung <= MAX_RUNG_CNT
      requires OthersOk(rung[..], nRung, nRung - 1) && OpenAt(rung[nRung - 1], bucketIndex)
      requires rung[nRung - 1].lastNonempty != bucketIndex + 1
      modifies rung
      ensures RungsOk(rung[..], nRung) && Held(rung[..]) == old(Held(rung[..])) != multiset{}
      ensures rung[nRung - 1] == old(rung[nRung - 1]).(current := rung[nRung - 1].current)
      ensures rung[..] == old(rung[..])[nRung - 1 := rung[nRung - 1]]
      ensures RungOk(rung[nRung - 1]) && Restarted(rung[nRung - 1])
    {
      StillHolds(rung[..], nRung - 1, bucketIndex);
      ghost var before := rung[..];
      var r := rung[nRung - 1];
      var next := FindNext(r, bucketIndex + 1);
      var current := BucketStart(r, next);
      hide *;
      AdvancedIsOk(before, nRung, bucketIndex, next);
      SetRung(nRung - 1, r.(current := current));
    }

    /** The rung is empty now. */
    method CloseEmptied(bucketIndex: nat)
      requires rung.Length == MAX_RUNG_CNT && 0 < nRung <= MAX_RUNG_CNT
      requires OthersOk(rung[..], nRung, nRung - 1) && OpenAt(rung[nRung - 1], bucketIndex)
      requires rung[nRung - 1].lastNonempty == bucketIndex + 1
      modifies `nRung, rung
      ensures RungsOk(rung[..], nRung) && nRung == old(nRung) - 1 && Held(rung[..]) == old(Held(rung[..]))
      ensures forall k :: 0 <= k < nRung ==> rung[k] == old(rung[k])
    {
      hide RungsOk, Held, AllEmpty, OthersOk, OpenAt;
      ghost var was := rung[..];
      CloseOpenRung(was, nRung, bucketIndex);
      SetRung(nRung - 1, Closed(rung[nRung - 1]));
      nRung := nRung - 1;
    }

    /** Rungs that became empty are closed. */
    method CloseEmptyRungs()
      requires rung.Length == MAX_RUNG_CNT && RungsOk(rung[..], nRung) && nRung <= MAX_RUNG_CNT
      modifies `nRung, rung
      ensures RungsOk(rung[..], nRung) && nRung <= old(nRung) && Held(rung[..]) == old(Held(rung[..]))
      ensures old(InOrder(rung[..], nRung, bottom)) ==> InOrder(rung[..], nRung, bottom)
      ensures forall k :: 0 <= k < nRung ==> rung[k] == old(rung[k])
      ensures forall k :: nRung <= k < old(nRung) ==> AllEmpty(old(rung[k].buckets))
      ensures nRung > 0 ==> !AllEmpty(rung[nRung - 1].buckets)
    {
      hide RungsOk, Held, InOrder, AllEmpty;
      while nRung > 0 && rung[nRung - 1].lastNonempty == 0
        invariant RungsOk(rung[..], nRung) && nRung <= old(nRung) && Held(rung[..]) == old(Held(rung[..]))
        invariant old(InOrder(rung[..], nRung, bottom)) ==> InOrder(rung[..], nRung, bottom)
        invariant forall k :: 0 <= k < nRung ==> rung[k] == old(rung[k])
        invariant forall k :: nRung <= k < old(nRung) ==> AllEmpty(old(rung[k].buckets))
        decreases nRung
      {
        LastZeroIsEmpty(rung[..], nRung);
        ghost var was, n := rung[..], nRung;
        CloseLast();
        StaysOrdered(was, n, rung[..], nRung, bottom);
      }
      if nRung > 0 {
        LastNonZeroIsNot(rung[..], nRung);
      }
    }

    method CloseRest(ghost a: Ladder)
      requires rung.Length == MAX_RUNG_CNT && RungsOk(rung[..], nRung) && nRung < a.nRung <= |a.rungs| == MAX_RUNG_CNT
      requires nRung == a.nRung - 1 && a.bottom == bottom && AllEmpty(a.rungs[nRung].buckets)
      requires forall k :: 0 <= k < nRung ==> rung[k] == a.rungs[k]
      modifies `nRung, rung
      ensures RungsOk(rung[..], nRung) && Held(rung[..]) == old(Held(rung[..])) && nRung < a.nRung
      ensures old(InOrder(rung[..], nRung, bottom)) ==> InOrder(rung[..], nRung, bottom)
      ensures Adjusted(a, Ladder(rung[..], nRung, bottom), true)
    {
      hide *;
      CloseEmptyRungs();
      AdjustedByClosing(a, Ladder(rung[..], nRung, bottom), true);
    }

    /** The last rung has lost its last bucket. */
    method CloseSome(bucketIndex: nat, closeMore: bool)
      requires rung.Length == MAX_RUNG_CNT && 0 < nRung <= MAX_RUNG_CNT
      requires OthersOk(rung[..], nRung, nRung - 1) && OpenAt(rung[nRung - 1], bucketIndex)
      requires rung[nRung - 1].lastNonempty == bucketIndex + 1
      modifies `nRung, rung
      ensures RungsOk(rung[..], nRung) && Held(rung[..]) == old(Held(rung[..])) && nRung < old(nRung)
      ensures old(InOrder(rung[..], nRung, bottom)) ==> InOrder(rung[..], nRung, bottom)
      ensures Adjusted(old(Ladder(rung[..], nRung, bottom)), Ladder(rung[..], nRung, bottom), closeMore)
    {
      OpenIsEmpty(rung[nRung - 1], bucketIndex);
      hide *;
      ghost var was, n := rung[..], nRung;
      CloseEmptied(bucketIndex);
      StaysOrdered(was, n, rung[..], nRung, bottom);
      if closeMore {
        CloseRest(Ladder(was, n, bottom));
      } else {
        AdjustedByClosing(Ladder(was, n, bottom), Ladder(rung[..], nRung, bottom), false);
      }
    }

    /** The last rung has lost its first bucket. */
    method AdjustLast(bucketIndex: nat, closeMore: bool)
      requires rung.Length == MAX_RUNG_CNT && 0 < nRung <= MAX_RUNG_CNT
      requires OthersOk(rung[..], nRung, nRung - 1) && OpenAt(rung[nRung - 1], bucketIndex)
      modifies `nRung, rung
      ensures RungsOk(rung[..], nRung) && Held(rung[..]) == old(Held(rung[..]))
      ensures nRung < old(nRung) || (nRung == old(nRung) && Held(rung[..]) != multiset{})
      ensures old(InOrder(rung[..], nRung, bottom)) ==> InOrder(rung[..], nRung, bottom)
      ensures Adjusted(old(Ladder(rung[..], nRung, bottom)), Ladder(rung[..], nRung, bottom), closeMore)
    {
      OpenIsEmpty(rung[nRung - 1], bucketIndex);
      hide *;
      if rung[nRung - 1].lastNonempty == bucketIndex + 1 {
        CloseSome(bucketIndex, closeMore);
      } else {
        ghost var was, n := rung[..], nRung;
        Advance(bucketIndex);
        MovedStaysOrdered(was, n, n - 1, rung[n - 1], bottom);
        AdjustedByAdvancing(Ladder(was, n, bottom), rung[n - 1], closeMore);
      }
    }

    /** The part of begin() that uses the rungs. */
    method BeginFromRungs(bucketIndex: nat, closeMore: bool)
      requires rung.Length == MAX_RUNG_CNT && RungsOk(rung[..], nRung) && 0 < nRung <= MAX_RUNG_CNT && bottom == []
      requires FirstNonempty(rung[nRung - 1].buckets, bucketIndex)
      modifies `nRung, `bottom, rung
      ensures RungsOk(rung[..], nRung) && WeaklySorted(bottom) && bottom != [] && Near() == old(Near())
      ensures nRung < old(nRung) || (nRung == old(nRung) && Held(rung[..]) != multiset{})
      ensures old(InOrder(rung[..], nRung, [])) ==> InOrder(rung[..], nRung, bottom)
      ensures Drawn(old(Ladder(rung[..], nRung, bottom)), Ladder(rung[..], nRung, bottom), bucketIndex, closeMore)
    {
      RungsHave(rung[..], nRung);
      ghost var p := Ladder(rung[..], nRung, bottom);
      Pour(bucketIndex);
      hide RungsOk, Held, OthersOk, OpenAt, WeaklySorted, InOrder, EarlierThan, Adjusted, Drawn, FirstNonempty, Without;
      ghost var a := Ladder(rung[..], nRung, bottom);
      AdjustLast(bucketIndex, closeMore);
      AdjustedIsDrawn(p, a, Ladder(rung[..], nRung, bottom), bucketIndex, closeMore);
    }

    method OpenFirstRung()
      requires rung.Length == MAX_RUNG_CNT && RungsOk(rung[..], nRung) && nRung == 0
      requires top != [] && minTs <= maxTs && AllFrom(top, minTs)
      modifies `nRung, `topStart, rung
      ensures RungsOk(rung[..], nRung) && nRung == 1 && topStart == maxTs
      ensures minTs <= maxTs && rung[0].width == RungWidth(maxTs - minTs, |top|)
      ensures old(Held(rung[..])) == multiset{} && Held(rung[..]) == multiset(top)
      ensures rung[0].start == rung[0].current == minTs && |rung[0].buckets| >= 2 * |top|
      ensures Poured(rung[0].buckets) == multiset(top)
    {
      hide RungsOk, Held, AllEmpty, AllFrom, PutAll, RungWidth, SameFrame, RungOk, Poured;
      RungsHave(rung[..], nRung);
      var outcome := CreateNewRung(|top|, minTs);
      ghost var r := rung[0];
      EmptyHoldsNothing(r);
      Spread(top);
      SameWidth(r, rung[0]);
      assert multiset{} + multiset(top) == multiset(top);
    }

    /** All events of top go to the first rung of a new ladder. */
    method FillFirstRung()
      requires Valid() && nRung == 0 && bottom == [] && top != []
      modifies `top, `nRung, `topStart, rung
      ensures Valid() && Contents() == old(Contents()) && nRung == 1 && bottom == [] && top == []
      ensures Held(rung[..]) == old(multiset(top)) != multiset{} && (old(maxTs) <= UINT_MAX ==> !Doomed(rung[..], nRung))
      ensures InOrder(rung[..], nRung, []) && topStart == maxTs
      ensures FirstLadder(Ladder(rung[..], nRung, bottom), old(top), minTs, maxTs)
    {
      hide RungsOk, Held, WeaklySorted, Poured;
      OpenFirstRung();
      if maxTs <= UINT_MAX {
        FirstRungIsNarrow(rung[..], maxTs - minTs, |top|);
      }
      assert top[0] in multiset(top);
      OneRungIsOrdered(rung[..]);
      top := [];
    }

    /** Nothing is lost; an event comes out unless the queue is empty, and it is a least one of bottom
        and earlier than everything in top.  The one assertion that can fail is createNewRung's, and
        times being 32-bit numbers it fails exactly if bottom is empty and the rungs are doomed. */
    method Begin() returns (front: Front)
      requires Valid()
      modifies this, rung
      ensures Valid() && Contents() == old(Contents()) && maxTs == old(maxTs)
      ensures front.Nothing? <==> Contents() == multiset{}
      ensures front.Nothing? ==> nRung == 0 && bottom == []
      ensures front.First? ==> bottom != [] && front.event == bottom[0] && front.event in Contents()
      ensures front.First? ==> forall x :: x in bottom ==> !Before(x, front.event)
      ensures front.First? ==> forall x :: x in top ==> front.event.body.ts < x.body.ts
      ensures old(bottom) != [] ==> front.First? && bottom == old(bottom) && rung[..] == old(rung[..])
      ensures front.AssertionFailed? ==> nRung == MAX_RUNG_CNT && Overflows(rung[MAX_RUNG_CNT - 1])
      ensures maxTs <= UINT_MAX ==> (front.AssertionFailed? <==> old(bottom == [] && Doomed(rung[..], nRung)))
      ensures old(nRung == 0 && bottom == [] && Few(multiset(top))) && front.First? ==> nRung == 0 || Held(rung[..]) != multiset{}
      ensures old(IsOrdered()) ==> IsOrdered() && (front.First? ==> forall x :: x in Contents() ==> !Before(x, front.event))
      ensures front.First? && old(bottom) == [] ==> Goes(old(Ladders()), old(top), old(minTs), maxTs, Ladders())
      ensures front.First? ==> if old(bottom) != [] || old(Held(rung[..])) != multiset{} then topStart == old(topStart) && top == old(top)
                               else topStart == maxTs && top == []
      ensures old(bottom) != [] ==> nRung == old(nRung)
    {
      hide RungsOk, Held, WeaklySorted, Doomed, Few, InOrder, Goes, Overflows, Before;
      if bottom != [] {
        front := Least();
      } else {
        front := BeginFromRest();
      }
      if front.First? {
        FirstOfAll();
      }
    }

    ghost predicate IsOrdered()
      reads this, rung
    {
      InOrder(rung[..], nRung, bottom)
    }

    lemma FirstOfAll()
      requires Valid() && bottom != [] && forall x :: x in top ==> bottom[0].body.ts < x.body.ts
      ensures IsOrdered() ==> forall x :: x in Contents() ==> !Before(x, bottom[0])
    {
      if IsOrdered() {
        forall x | x in Contents()
          ensures !Before(x, bottom[0])
        {
          if x in Near() {
            FirstIsLeast(rung[..], nRung, bottom, x);
          }
        }
      }
    }

    method BeginFromRest() returns (front: Front)
      requires Valid() && bottom == []
      modifies `top, `nRung, `topStart, `bottom, rung
      ensures Valid() && Contents() == old(Contents())
      ensures front.Nothing? <==> Contents() == multiset{}
      ensures front.Nothing? ==> nRung == 0 && bottom == []
      ensures front.First? ==> bottom != [] && front.event == bottom[0] && front.event in Near()
      ensures front.First? ==> forall x :: x in bottom ==> !Before(x, front.event)
      ensures front.AssertionFailed? ==> nRung == MAX_RUNG_CNT && Overflows(rung[MAX_RUNG_CNT - 1])
      ensures maxTs <= UINT_MAX ==> (front.AssertionFailed? <==> old(Doomed(rung[..], nRung)))
      ensures old(nRung == 0 && Few(multiset(top))) && front.First? ==> nRung == 0 || Held(rung[..]) != multiset{}
      ensures old(InOrder(rung[..], nRung, [])) ==> InOrder(rung[..], nRung, bottom)
      ensures front.First? ==> Goes(old(Ladder(rung[..], nRung, bottom)), old(top), minTs, maxTs, Ladder(rung[..], nRung, bottom))
      ensures front.First? ==> if old(Held(rung[..])) != multiset{} then topStart == old(topStart) && top == old(top)
                               else topStart == maxTs && top == []
    {
      RungsHave(rung[..], nRung);
      hide RungsOk, Held, WeaklySorted, Doomed, Few, InOrder, Begins, BeginsFromTop, Goes, LadderQueue.Contents, LadderQueue.Near;
      ghost var a, list := Ladder(rung[..], nRung, bottom), top;
      front := BeginFromLadder(true);
      if front.Nothing? && top != [] {
        front := BeginFromTop();
      }
      if front.First? {
        GoesOn(a, list, minTs, maxTs, Ladder(rung[..], nRung, bottom));
      }
    }

    method BeginFromTop() returns (front: Front)
      requires Valid() && nRung == 0 && bottom == [] && top != []
      modifies `top, `nRung, `topStart, `bottom, rung
      ensures Valid() && Contents() == old(Contents()) && Near() == Contents() && top == []
      ensures front.First? ==> bottom != [] && front.event == bottom[0] && front.event in Near()
      ensures front.First? ==> forall x :: x in bottom ==> !Before(x, front.event)
      ensures !front.Nothing? && Contents() != multiset{} && (maxTs <= UINT_MAX ==> front.First?)
      ensures front.AssertionFailed? ==> nRung == MAX_RUNG_CNT && Overflows(rung[MAX_RUNG_CNT - 1])
      ensures old(Few(multiset(top))) && front.First? ==> nRung == 0 || Held(rung[..]) != multiset{}
      ensures InOrder(rung[..], nRung, bottom) && topStart == maxTs
      ensures front.First? ==> BeginsFromTop(old(top), minTs, maxTs, Ladder(rung[..], nRung, bottom))
    {
      hide RungsOk, Held, WeaklySorted, Doomed, Few, InOrder, Begins, FirstLadder;
      FillFirstRung();
      ghost var a := Ladder(rung[..], nRung, bottom);
      front := BeginFromLadder(false);
      assert front.First? ==> FirstLadder(a, old(top), minTs, maxTs) && Begins(a, Ladder(rung[..], nRung, bottom), false);
    }

    method Least() returns (front: Front)
      requires Valid() && bottom != []
      ensures front == First(bottom[0]) && front.event in Near()
      ensures forall x :: x in bottom ==> !Before(x, front.event)
    {
      hide RungsOk, Held, TopOk;
      FirstIsEarliest(bottom);
      front := First(bottom[0]);
      assert bottom[0] in multiset(bottom);
    }

    /** The part of begin() that finds a bucket in the rungs and pours it into bottom. */
    method BeginFromLadder(closeMore: bool) returns (front: Front)
      requires Valid() && bottom == []
      modifies `nRung, `topStart, `bottom, rung
      ensures Valid() && Near() == old(Near()) && Contents() == old(Contents())
      ensures !front.Nothing? || top != [] <==> Contents() != multiset{}
      ensures front.Nothing? ==> Near() == multiset{} && nRung == 0 && bottom == []
      ensures old(Held(rung[..])) != multiset{} ==> !front.Nothing?
      ensures front.First? ==> bottom != [] && front.event == bottom[0] && front.event in Near()
      ensures front.First? ==> forall x :: x in bottom ==> !Before(x, front.event)
      ensures front.AssertionFailed? ==> nRung == MAX_RUNG_CNT && Overflows(rung[MAX_RUNG_CNT - 1])
      ensures front.AssertionFailed? ==> Near() != multiset{}
      ensures front.AssertionFailed? <==> old(Doomed(rung[..], nRung))
      ensures old(Few(Held(rung[..]))) && front.First? ==> nRung < old(nRung) || (nRung == old(nRung) && Held(rung[..]) != multiset{})
      ensures old(InOrder(rung[..], nRung, [])) ==> InOrder(rung[..], nRung, bottom)
      ensures topStart == old(topStart)
      ensures front.First? ==> Begins(old(Ladder(rung[..], nRung, bottom)), Ladder(rung[..], nRung, bottom), closeMore)
    {
      hide RungsOk, Held, WeaklySorted, Doomed, Few, InOrder, Ended, Drawn, Begins;
      ghost var a := Ladder(rung[..], nRung, bottom);
      var found := RecurseRung();
      ghost var p := Ladder(rung[..], nRung, bottom);
      if found.Overflow? {
        var e :| e in Held(rung[..]);
        return AssertionFailed;
      }
      if found.NoBucket? {
        return Nothing;
      }
      BeginFromRungs(found.index, closeMore);
      BeginsWith(a, p, found.index, Ladder(rung[..], nRung, bottom), closeMore);
      front := Least();
    }
  }
  // ------------------------------------------------------------------------------------------
  // A queue that fails
  // ------------------------------------------------------------------------------------------

  function At(ts: nat, gen: nat): Event { Event(Body(1, ts, 0, 0, NoData), gen, true) }

  /** Bottom is filled with events for one time. */
  method FillBottom(q: LadderQueue, ts: nat)
    requires q.Valid() && q.nRung < MAX_RUNG_CNT && ts <= q.topStart && q.BelowRungs(ts)
    requires |q.bottom| < THRESHOLD && forall e :: e in q.bottom ==> ts <= e.body.ts
    modifies q, q.rung
    ensures q.Valid() && q.nRung == old(q.nRung) && q.rung[..] == old(q.rung[..]) && |q.bottom| == THRESHOLD
    ensures q.topStart == old(q.topStart) && q.maxTs == old(q.maxTs) && q.BelowRungs(ts)
    ensures forall e :: e in q.bottom ==> ts <= e.body.ts && (old(q.bottom) == [] ==> e.body.ts == ts)
  {
    ghost var was := q.bottom;
    hide *;
    while |q.bottom| < THRESHOLD
      invariant q.Valid() && q.nRung == old(q.nRung) && q.rung[..] == old(q.rung[..]) && |q.bottom| <= THRESHOLD
      invariant q.topStart == old(q.topStart) && q.maxTs == old(q.maxTs) && q.BelowRungs(ts)
      invariant forall e :: e in q.bottom ==> ts <= e.body.ts && (was == [] ==> e.body.ts == ts)
      decreases THRESHOLD - |q.bottom|
    {
      InsertOne(q, ts);
    }
  }

  method InsertOne(q: LadderQueue, ts: nat)
    requires q.Valid() && q.nRung < MAX_RUNG_CNT && ts <= q.topStart && q.BelowRungs(ts) && |q.bottom| < THRESHOLD
    modifies q, q.rung
    ensures q.Valid() && q.nRung == old(q.nRung) && q.rung[..] == old(q.rung[..]) && |q.bottom| == |old(q.bottom)| + 1
    ensures q.topStart == old(q.topStart) && q.maxTs == old(q.maxTs) && q.BelowRungs(ts)
    ensures forall e :: e in q.bottom ==> e.body.ts == ts || e in old(q.bottom)
  {
    hide RungsOk, Held, WeaklySorted, Events.Insert, LadderQueue.Valid, LadderQueue.Contents, InsertedNear, InOrder;
    q.AtMostEight();
    var e := At(ts, |q.bottom|);
    InsertedHas(q.bottom, e);
    ghost var was := q.Ladders();
    q.Insert(e);
    InsertedBelow(was, q.Ladders(), e, q.topStart);
    assert forall i :: 0 <= i < q.nRung ==> q.rung[i] == q.rung[..][i] == was.rungs[i];
  }

  /** One more such event, and a new rung takes them all. */
  method Fill(q: LadderQueue, ts: nat)
    requires q.Valid() && q.nRung < MAX_RUNG_CNT && ts <= q.topStart && q.BelowRungs(ts)
    requires |q.bottom| < THRESHOLD && forall e :: e in q.bottom ==> ts <= e.body.ts
    modifies q, q.rung
    ensures q.Valid() && q.bottom == [] && q.nRung == old(q.nRung) + 1
    ensures q.topStart == old(q.topStart) && q.maxTs == old(q.maxTs)
    ensures forall k :: 0 <= k < old(q.nRung) ==> q.rung[k] == old(q.rung[k])
    ensures q.rung[q.nRung - 1].current == ts
    ensures old(q.bottom == [] && q.nRung > 0) ==> FilledAt(q.rung[q.nRung - 1], ts, old(q.rung[q.nRung - 1].current))
  {
    hide RungsOk, Held, WeaklySorted, Events.Insert, LadderQueue.Valid, LadderQueue.Contents, FilledAt, Transferred, InsertedNear, InOrder;
    q.AtMostEight();
    FillBottom(q, ts);
    ghost var was := q.Ladders();
    q.Insert(At(ts, THRESHOLD));
    InsertedBelow(was, q.Ladders(), At(ts, THRESHOLD), q.topStart);
    TransferredAt(was.rungs, q.rung[..], was.nRung, was.bottom, At(ts, THRESHOLD), q.topStart);
  }

  lemma TransferredAt(was: seq<Rung>, now: seq<Rung>, n: nat, bottom: seq<Event>, event: Event, topStart: nat)
    requires Transferred(was, now, n, bottom, event, topStart) && |bottom| == THRESHOLD
    requires forall e :: e in bottom ==> event.body.ts <= e.body.ts
    ensures (forall k :: 0 <= k < n ==> now[k] == was[k]) && now[n].current == event.body.ts
    ensures n > 0 && (forall e :: e in bottom ==> e.body.ts == event.body.ts) ==>
              FilledAt(now[n], event.body.ts, was[n - 1].current)
  {
    assert bottom[0] in bottom;
  }

  lemma {:induction false} InsertedHas(q: seq<Event>, e: Event)
    ensures |Events.Insert(q, e)| == |q| + 1 && forall x :: x in Events.Insert(q, e) ==> x == e || x in q
  {
    if q != [] {
      InsertedHas(q[1..], e);
    }
  }

  ghost predicate FilledAt(r: Rung, ts: nat, end: nat) {
    && r.start == ts <= end && r.width == BottomWidth(end - ts, THRESHOLD)
    && r.buckets != [] && |r.buckets[0]| > THRESHOLD
  }

  /** A queue whose only event was moved to bottom. */
  method Primed() returns (q: LadderQueue)
    ensures fresh(q) && fresh(q.rung) && q.Valid() && q.rung.Length == MAX_RUNG_CNT
    ensures q.maxTs == 1000 <= q.topStart && q.nRung == 0 && q.bottom == [At(1000, 0)]
  {
    q := new LadderQueue();
    q.Insert(At(1000, 0));
    hide RungsOk, Held, WeaklySorted;
    var front := q.Begin();
    OneIsInBottom(q.top, Held(q.rung[..]), q.bottom, At(1000, 0));
    assert At(1000, 0) in q.Near();
  }

  lemma OneIsInBottom(top: seq<Event>, held: multiset<Event>, bottom: seq<Event>, e: Event)
    requires multiset(top) + (held + multiset(bottom)) == multiset{e} && bottom != []
    ensures bottom == [e] && held == multiset{}
  {
    assert |multiset(top)| + |held| + |bottom| == |multiset(top) + (held + multiset(bottom))| == 1;
    assert bottom[0] in multiset(top) + (held + multiset(bottom));
  }

  /** Eight times bottom is full of events earlier than all before. */
  method Overcrowd() returns (q: LadderQueue)
    ensures fresh(q) && fresh(q.rung) && q.Valid() && q.maxTs <= UINT_MAX && q.bottom == [] && q.nRung == MAX_RUNG_CNT
    ensures FilledAt(q.rung[MAX_RUNG_CNT - 1], 200, 300)
  {
    q := Primed();
    hide LadderQueue.Valid, FilledAt;
    for k := 0 to MAX_RUNG_CNT
      invariant fresh(q) && fresh(q.rung) && q.Valid() && q.maxTs == 1000 <= q.topStart && q.nRung == k
      invariant q.bottom == if k == 0 then [At(1000, 0)] else []
      invariant q.rung.Length == MAX_RUNG_CNT && forall i :: 0 <= i < k ==> q.rung[i].current == 900 - 100 * i
      invariant k > 1 ==> FilledAt(q.rung[k - 1], 1000 - 100 * k, 1100 - 100 * k)
    {
      Fill(q, 900 - 100 * k);
    }
  }

  lemma FilledIsDoomed(rungs: seq<Rung>)
    requires RungsOk(rungs, MAX_RUNG_CNT) && FilledAt(rungs[MAX_RUNG_CNT - 1], 200, 300)
    ensures Doomed(rungs, MAX_RUNG_CNT)
  {
    assert FirstNonempty(rungs[MAX_RUNG_CNT - 1].buckets, 0);
    DoomedWithEight(rungs);
  }

  /** The assertion can fail: a queue that is used as it should be then gives no event. */
  method BeginFails() returns (q: LadderQueue, front: Front)
    ensures fresh(q) && q.Valid() && front == AssertionFailed && q.Contents() != multiset{}
  {
    q := Overcrowd();
    FilledIsDoomed(q.rung[..]);
    hide RungsOk, Held, WeaklySorted, Doomed, LadderQueue.TopOk, LadderQueue.Contents;
    front := q.Begin();
  }
}
