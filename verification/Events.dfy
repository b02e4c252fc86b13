/** Events, their order, and ordered event queues.

    A logical process (LP) is named by a positive number: its rank among the LP names in string
    order.  Name 0 stands for the empty string, which only the initial event carries.  Times are
    32-bit unsigned integers in the program; `UINT_MAX` is the value it also uses for "infinity". */
module Events {

  const UINT_MAX: nat := 0xFFFF_FFFF

  /** What a model puts into an event; the kernel never looks inside. */
  type Payload(!new, ==)

  datatype Data = NoData | User(payload: Payload)

  /** Everything a model can see of an event: all of it except `generation_` and the type. */
  datatype Body = Body(recv: nat, ts: nat, st: nat, sender: nat, data: Data)

  datatype Event = Event(body: Body, gen: nat, pos: bool)

  /** InitialEvent: the event that "caused" an LP's initial state and initial sends. */
  const INITIAL: Event := Event(Body(0, 0, 0, 0, NoData), 0, true)

  /** NegativeEvent(e): the anti-message of `e`, which does not carry the payload. */
  function NegOf(e: Event): Event {
    Event(e.body.(data := NoData), e.gen, false)
  }

  /** Event::operator== : receiver, payload and type are not compared. */
  predicate SameId(a: Event, b: Event) {
    a.body.ts == b.body.ts && a.body.st == b.body.st && a.body.sender == b.body.sender && a.gen == b.gen
  }

  /** Event::operator< : receive time, then send time, sender name and generation. */
  predicate Less(a: Event, b: Event) {
    a.body.ts < b.body.ts ||
    (a.body.ts == b.body.ts &&
     (a.body.st < b.body.st ||
      (a.body.st == b.body.st &&
       (a.body.sender < b.body.sender ||
        (a.body.sender == b.body.sender && a.gen < b.gen)))))
  }

  /** Event::operator<= and operator>, spelled as the program spells them. */
  predicate AtMost(a: Event, b: Event) { Less(a, b) || SameId(a, b) }
  predicate Greater(a: Event, b: Event) { !AtMost(a, b) }

  /** compareEvents: operator< refined by the type, a negative event before a positive one. */
  predicate Before(a: Event, b: Event) {
    Less(a, b) || (SameId(a, b) && !a.pos && b.pos)
  }

  /** Neither comes before the other: what a std::multiset takes for the same key. */
  predicate SameKey(a: Event, b: Event) { !Before(a, b) && !Before(b, a) }

  /** operator< is a strict total order on identities, and operator> is its converse. */
  lemma LessIsTotalOrder(a: Event, b: Event, c: Event)
    ensures !Less(a, a)
    ensures Less(a, b) && Less(b, c) ==> Less(a, c)
    ensures SameId(a, b) <==> !Less(a, b) && !Less(b, a)
    ensures Greater(a, b) <==> Less(b, a)
    ensures SameId(a, b) ==> (Less(a, c) <==> Less(b, c)) && (Less(c, a) <==> Less(c, b))
  {
  }

  /** What the operators compare, the most significant first; compareEvents adds the type. */
  function KeyOf(e: Event): seq<nat> {
    [e.body.ts, e.body.st, e.body.sender, e.gen, if e.pos then 1 else 0]
  }

  /** The first n parts of two keys are equal. */
  predicate Agree(a: seq<nat>, b: seq<nat>, n: nat)
    requires n <= |a| == |b|
  {
    forall k :: 0 <= k < n ==> a[k] == b[k]
  }

  /** operator< and compareEvents are decided by the first difference. */
  lemma OrderIsLexicographic(a: Event, b: Event)
    ensures Less(a, b) <==> exists k :: 0 <= k < 4 && Agree(KeyOf(a), KeyOf(b), k) && KeyOf(a)[k] < KeyOf(b)[k]
    ensures Before(a, b) <==> exists k :: 0 <= k < 5 && Agree(KeyOf(a), KeyOf(b), k) && KeyOf(a)[k] < KeyOf(b)[k]
    ensures SameId(a, b) <==> Agree(KeyOf(a), KeyOf(b), 4)
  {
    var x, y := KeyOf(a), KeyOf(b);
    if x[0] < y[0] {
      assert Agree(x, y, 0);
    } else if x[0] == y[0] && x[1] < y[1] {
      assert Agree(x, y, 1);
    } else if Agree(x, y, 2) && x[2] < y[2] {
    } else if Agree(x, y, 3) && x[3] < y[3] {
    } else if Agree(x, y, 4) && x[4] < y[4] {
    }
  }

  /** compareEvents is a strict weak order; an event and its anti-message are neighbours in it. */
  lemma AntiMessageIsAdjacent(e: Event, x: Event)
    requires e.pos
    ensures SameId(NegOf(e), e) && Before(NegOf(e), e)
    ensures !(Before(NegOf(e), x) && Before(x, e))
    ensures SameKey(x, e) <==> SameId(x, e) && x.pos
  {
  }

  /** A multiset<Event, compareEvents> with no two equal keys: strictly ascending. */
  predicate Sorted(q: seq<Event>) {
    forall a, b :: 0 <= a < b < |q| ==> Before(q[a], q[b])
  }

  /** A processed queue: strictly ascending under operator<. */
  predicate Ascending(q: seq<Event>) {
    forall a, b :: 0 <= a < b < |q| ==> Less(q[a], q[b])
  }

  /** multiset::insert, which puts an element behind those with the same key. */
  function Insert(q: seq<Event>, e: Event): (r: seq<Event>)
    ensures |r| == |q| + 1
    ensures forall x :: x in r <==> x in q || x == e
    ensures r[0] == e || (q != [] && r[0] == q[0])
  {
    if q == [] || Before(e, q[0]) then [e] + q
    else
      assert q == [q[0]] + q[1..];
      [q[0]] + Insert(q[1..], e)
  }

  /** A queue without equal keys stays that way when a new key is inserted. */
  lemma {:induction false} InsertKeepsSorted(q: seq<Event>, e: Event)
    requires Sorted(q) && forall x :: x in q ==> !SameKey(x, e)
    ensures Sorted(Insert(q, e))
  {
    if q == [] || Before(e, q[0]) {
    } else {
      var rest := Insert(q[1..], e);
      InsertKeepsSorted(q[1..], e);
      assert q[0] in q && Before(q[0], e);
      forall k | 0 <= k < |rest|
        ensures Before(q[0], rest[k])
      {
        assert rest[k] in rest;
      }
    }
  }

  /** Nothing is lost, and one element is new. */
  lemma {:induction false} InsertAddsOne(q: seq<Event>, e: Event)
    ensures multiset(Insert(q, e)) == multiset(q) + multiset{e}
  {
    if q == [] || Before(e, q[0]) {
    } else {
      InsertAddsOne(q[1..], e);
      assert q == [q[0]] + q[1..];
    }
  }

  /** The position of the first element with e's key, or |q| (multiset::find). */
  function Find(q: seq<Event>, e: Event): (k: nat)
    ensures k <= |q|
    ensures k < |q| ==> SameKey(q[k], e)
    ensures forall x :: 0 <= x < k ==> !SameKey(q[x], e)
  {
    if q == [] || SameKey(q[0], e) then 0
    else 1 + Find(q[1..], e)
  }

  /** multiset::erase by key: every element with e's key goes. */
  function Erase(q: seq<Event>, e: Event): (r: seq<Event>)
    ensures |r| <= |q|
    ensures forall x :: x in r <==> x in q && !SameKey(x, e)
    ensures Sorted(q) ==> Sorted(r)
  {
    if q == [] then []
    else
      var rest := Erase(q[1..], e);
      assert q == [q[0]] + q[1..];
      if SameKey(q[0], e) then rest
      else
        assert forall k :: 0 <= k < |rest| ==> rest[k] in rest;
        [q[0]] + rest
  }

  /** Erasing a key that a strictly ascending queue holds removes exactly one element. */
  lemma {:induction false} EraseOne(q: seq<Event>, e: Event)
    requires Sorted(q) && e in q
    ensures |Erase(q, e)| == |q| - 1
    ensures forall x :: x in Erase(q, e) <==> x in q && x != e
    ensures e == q[0] ==> Erase(q, e) == q[1..]
  {
    if SameKey(q[0], e) {
      assert e == q[0];
      EraseNone(q[1..], e);
    } else {
      EraseOne(q[1..], e);
    }
  }

  lemma {:induction false} EraseNone(q: seq<Event>, e: Event)
    requires forall x :: x in q ==> !SameKey(x, e)
    ensures Erase(q, e) == q
  {
    if q != [] {
      EraseNone(q[1..], e);
    }
  }
}
