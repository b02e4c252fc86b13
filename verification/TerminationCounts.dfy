/** What the counters of termination detection mean over a whole run: the token's count, the sticky
    state, and when exactly a process ends the simulation. */
module TerminationCounts {
  import opened Termination

  // ------------------------------------------------------------------------------------------
  // The messages counted
  // ------------------------------------------------------------------------------------------

  /** In step k process i hands a token to the communication manager. */
  predicate Gives(states: seq<Sys>, k: nat, i: nat) {
    && k + 1 < |states| && i < |states[k].nodes| && i < |states[k + 1].nodes|
    && |states[k + 1].nodes[i].outbox| > |states[k].nodes[i].outbox|
  }

  /** All that process i was told to count before step k and after it last gave a token away. */
  function CountedSince(steps: seq<Step>, states: seq<Sys>, k: nat, i: nat): int
    requires k <= |steps|
  {
    if k == 0 || Gives(states, k - 1, i) then 0
    else CountedSince(steps, states, k - 1, i) +
         (if steps[k - 1].UpdateMsgCount? && steps[k - 1].i == i then steps[k - 1].delta else 0)
  }

  /** The process at distance d from a in a ring of n. */
  function Around(a: nat, d: nat, n: nat): int {
    if a + d < n then a + d else a + d - n
  }

  /** The token was created in step passes[0] by its initiator, and passed on by one process after
      the other in the steps that follow in `passes`. */
  predicate Passed(n: nat, steps: seq<Step>, states: seq<Sys>, k: Token, passes: seq<nat>) {
    && k.initiator < n && 1 <= |passes| <= n && k.receiver == Around(k.initiator, |passes|, n)
    && (forall d :: 0 < d < |passes| ==> passes[d - 1] < passes[d])
    && (forall d :: 0 <= d < |passes| ==> passes[d] < |steps| && Gives(states, passes[d], Around(k.initiator, d, n)))
    && (forall d :: 0 <= d < |passes| ==>
          steps[passes[d]] == if d == 0 then Initiate(k.initiator) else ReceiveToken(Around(k.initiator, d, n)))
  }

  /** The sum of what the processes that passed the token had counted when they did. */
  function Sum(n: nat, steps: seq<Step>, states: seq<Sys>, a: nat, passes: seq<nat>): int
    requires a < n && |passes| <= n && forall d :: 0 <= d < |passes| ==> passes[d] < |steps|
  {
    if passes == [] then 0
    else
      var last := |passes| - 1;
      Sum(n, steps, states, a, passes[..last]) + CountedSince(steps, states, passes[last], Around(a, last, n))
  }

  lemma StepCounts(s: Sys, t: Step, i: nat)
    requires Enabled(s, t) && i < |s.nodes|
    ensures |Apply(s, t).nodes| == |s.nodes|
    ensures var (d, d') := (s.nodes[i], Apply(s, t).nodes[i]);
            d'.msgCount == if |d'.outbox| > |d.outbox| then 0
                           else d.msgCount + (if t.UpdateMsgCount? && t.i == i then t.delta else 0)
  {
  }

  lemma {:induction false} CountIsExact(workers: seq<nat>, steps: seq<Step>, states: seq<Sys>, k: nat, i: nat)
    requires Run(workers, steps, states) && k <= |steps| && i < |workers|
    ensures |states[k].nodes| == |workers|
    ensures states[k].nodes[i].msgCount == CountedSince(steps, states, k, i)
    decreases k
  {
    if k > 0 {
      CountIsExact(workers, steps, states, k - 1, i);
      StepCounts(states[k - 1], steps[k - 1], i);
    }
  }

  lemma FirstPass(n: nat, steps: seq<Step>, states: seq<Sys>, k: Token, now: nat)
    requires k.initiator < n && k.receiver == Successor(k.initiator, n) && now < |steps|
    requires Gives(states, now, k.initiator) && steps[now] == Initiate(k.initiator)
    ensures Passed(n, steps, states, k, [now])
    ensures Sum(n, steps, states, k.initiator, [now]) == CountedSince(steps, states, now, k.initiator)
  {
    hide CountedSince;
    assert [now][..0] == [];
  }

  lemma OnePassMore(n: nat, steps: seq<Step>, states: seq<Sys>, k: Token, k': Token, passes: seq<nat>, now: nat)
    requires Passed(n, steps, states, k, passes) && passes[|passes| - 1] < now < |steps|
    requires k.receiver != k.initiator == k'.initiator && k'.receiver == Successor(k.receiver, n)
    requires Gives(states, now, k.receiver) && steps[now] == ReceiveToken(k.receiver)
    ensures Passed(n, steps, states, k', passes + [now])
    ensures Sum(n, steps, states, k.initiator, passes + [now])
         == Sum(n, steps, states, k.initiator, passes) + CountedSince(steps, states, now, k.receiver)
  {
    hide CountedSince, Gives;
    assert (passes + [now])[..|passes|] == passes;
  }

  /** What happens to a token that is on its way in one step. */
  lemma TokenSteps(s: Sys, t: Step, p: Place)
    requires InvAt(s, p) && !p.Held? && Enabled(s, t) && InvAt(Apply(s, t), Moves(s, t, p)) && !Moves(s, t, p).Held?
    ensures var (k, k') := (TokenOf(s, p), TokenOf(Apply(s, t), Moves(s, t, p)));
            && k'.initiator == k.initiator && k'.state == k.state
            && if t.ReceiveToken? then
                 && k.receiver == t.i != k.initiator && k'.receiver == Successor(t.i, |s.nodes|)
                 && k'.count == k.count + s.nodes[t.i].msgCount && s.nodes[t.i].outbox == []
                 && |Apply(s, t).nodes[t.i].outbox| == 1
               else k' == k
  {
    hide NodeOk, TokenOk;
    if !t.ReceiveToken? {
      TokenStays(s, t, p);
    }
  }

  lemma NewToken(s: Sys, i: nat)
    requires InvAt(s, Held(i)) && Enabled(s, Initiate(i)) && InvAt(Apply(s, Initiate(i)), Leaving(i))
    ensures TokenOf(Apply(s, Initiate(i)), Leaving(i)) == Token(Successor(i, |s.nodes|), PASSIVE, i, s.nodes[i].msgCount)
    ensures s.nodes[i].outbox == [] && |Apply(s, Initiate(i)).nodes[i].outbox| == 1
  {
    hide NodeOk, TokenOk;
  }

  lemma InvAtStep(workers: seq<nat>, steps: seq<Step>, states: seq<Sys>, k: nat, p: Place) returns (q: Place)
    requires Run(workers, steps, states) && workers != [] && 0 < k <= |steps| && InvAt(states[k], p)
    ensures InvAt(states[k - 1], q) && p == Moves(states[k - 1], steps[k - 1], q)
    ensures q.Held? && !p.Held? ==> steps[k - 1] == Initiate(q.i) && p == Leaving(q.i)
  {
    q := RunKeepsInv(workers, steps[..k - 1], states[..k]);
    hide InvAt;
    StepKeepsInv(states[k - 1], steps[k - 1], q);
    PlaceIsUnique(states[k], p, Moves(states[k - 1], steps[k - 1], q));
  }

  /** A token that is on its way in state k has come from its initiator through all the processes
      up to its receiver, and its count is the sum of what each of them had counted. */
  predicate Accounted(n: nat, steps: seq<Step>, states: seq<Sys>, k: nat, token: Token, passes: seq<nat>) {
    && token.state == PASSIVE && Passed(n, steps, states, token, passes) && passes[|passes| - 1] < k
    && token.count == Sum(n, steps, states, token.initiator, passes)
  }

  lemma NewIsAccounted(n: nat, steps: seq<Step>, states: seq<Sys>, k: nat, p: Place)
    requires 0 < k <= |steps| == |states| - 1 && |states[k - 1].nodes| == |states[k].nodes| == n
    requires Enabled(states[k - 1], steps[k - 1]) && states[k] == Apply(states[k - 1], steps[k - 1])
    requires steps[k - 1].Initiate? && InvAt(states[k - 1], Held(steps[k - 1].i)) && InvAt(states[k], Leaving(steps[k - 1].i))
    requires states[k - 1].nodes[steps[k - 1].i].msgCount == CountedSince(steps, states, k - 1, steps[k - 1].i)
    ensures Accounted(n, steps, states, k, TokenOf(states[k], Leaving(steps[k - 1].i)), [k - 1])
  {
    var s, i := states[k - 1], steps[k - 1].i;
    hide InvAt, Apply, CountedSince, Sum, Passed;
    NewToken(s, i);
    FirstPass(n, steps, states, Token(Successor(i, n), PASSIVE, i, s.nodes[i].msgCount), k - 1);
  }

  lemma NextIsAccounted(n: nat, steps: seq<Step>, states: seq<Sys>, k: nat, q: Place, passes: seq<nat>)
    returns (passes': seq<nat>)
    requires 0 < k <= |steps| == |states| - 1 && |states[k - 1].nodes| == |states[k].nodes| == n
    requires Enabled(states[k - 1], steps[k - 1]) && states[k] == Apply(states[k - 1], steps[k - 1])
    requires InvAt(states[k - 1], q) && !q.Held?
    requires InvAt(states[k], Moves(states[k - 1], steps[k - 1], q)) && !Moves(states[k - 1], steps[k - 1], q).Held?
    requires states[k - 1].nodes[steps[k - 1].i].msgCount == CountedSince(steps, states, k - 1, steps[k - 1].i)
    requires Accounted(n, steps, states, k - 1, TokenOf(states[k - 1], q), passes)
    ensures Accounted(n, steps, states, k, TokenOf(states[k], Moves(states[k - 1], steps[k - 1], q)), passes')
  {
    var s, t := states[k - 1], steps[k - 1];
    hide InvAt, Apply, Moves, CountedSince, Sum, Passed;
    TokenSteps(s, t, q);
    if t.ReceiveToken? {
      passes' := passes + [k - 1];
      OnePassMore(n, steps, states, TokenOf(s, q), TokenOf(states[k], Moves(s, t, q)), passes, k - 1);
    } else {
      passes' := passes;
    }
  }

  lemma {:induction false} TokenCountIsSum(workers: seq<nat>, steps: seq<Step>, states: seq<Sys>, k: nat, p: Place)
    returns (passes: seq<nat>)
    requires Run(workers, steps, states) && workers != [] && k <= |steps|
    requires InvAt(states[k], p) && !p.Held?
    ensures Accounted(|workers|, steps, states, k, TokenOf(states[k], p), passes)
    decreases k
  {
    if k == 0 {
      StartHasNoToken(workers, p);
      assert false;
    } else {
      var n := |workers|;
      var q := InvAtStep(workers, steps, states, k, p);
      CountIsExact(workers, steps, states, k - 1, 0);
      CountIsExact(workers, steps, states, k - 1, steps[k - 1].i);
      CountIsExact(workers, steps, states, k, 0);
      hide InvAt, At, Moves, Apply, CountedSince, Accounted;
      if q.Held? {
        passes := [k - 1];
        NewIsAccounted(n, steps, states, k, p);
      } else {
        var before := TokenCountIsSum(workers, steps, states, k - 1, q);
        passes := NextIsAccounted(n, steps, states, k, q, before);
      }
    }
  }

  // ------------------------------------------------------------------------------------------
  // The sticky state
  // ------------------------------------------------------------------------------------------

  predicate AllPassive(d: Node) {
    forall t :: 0 <= t < |d.threads| ==> d.threads[t] == PASSIVE
  }

  /** Step f ended the handling of a token by process i, which was passive then and up to state k. */
  predicate PassiveFrom(steps: seq<Step>, states: seq<Sys>, f: nat, k: nat, i: nat) {
    && f < k <= |steps| == |states| - 1 && steps[f] == Finish(i)
    && forall g :: f <= g <= k ==> i < |states[g].nodes| && states[g].nodes[i].state == PASSIVE
  }

  lemma StepKeepsThreads(s: Sys, t: Step, i: nat)
    requires Enabled(s, t) && i < |s.nodes| && (s.nodes[i].threads == [] ==> s.nodes[i].state == ACTIVE)
    ensures |Apply(s, t).nodes| == |s.nodes|
    ensures |Apply(s, t).nodes[i].threads| == |s.nodes[i].threads|
    ensures Apply(s, t).nodes[i].threads == [] ==> Apply(s, t).nodes[i].state == ACTIVE
    ensures var (d, d') := (s.nodes[i], Apply(s, t).nodes[i]);
            && (t == Finish(i) ==> d'.sticky == d.state == d'.state)
            && (t != Finish(i) ==> d'.sticky == d.sticky || (d'.sticky == ACTIVE && d'.state == ACTIVE))
  {
  }

  /** A process is passive exactly when it has worker threads and all of them are passive. */
  lemma {:induction false} StateIsExact(workers: seq<nat>, steps: seq<Step>, states: seq<Sys>, k: nat, i: nat)
    requires Run(workers, steps, states) && k <= |steps| && i < |workers|
    ensures |states[k].nodes| == |workers| && |states[k].nodes[i].threads| == workers[i]
    ensures states[k].nodes[i].state == PASSIVE <==> workers[i] > 0 && AllPassive(states[k].nodes[i])
    ensures states[k].nodes[i].sticky == PASSIVE ==> states[k].nodes[i].state == PASSIVE
    decreases k
  {
    ThreadsStay(workers, steps, states, k, i);
    hide CountActive;
    var p := RunKeepsInv(workers, steps[..k], states[..k + 1]);
    assert NodeOk(states[k].nodes[i]);
  }

  lemma {:induction false} ThreadsStay(workers: seq<nat>, steps: seq<Step>, states: seq<Sys>, k: nat, i: nat)
    requires Run(workers, steps, states) && k <= |steps| && i < |workers|
    ensures |states[k].nodes| == |workers| && |states[k].nodes[i].threads| == workers[i]
    ensures workers[i] == 0 ==> states[k].nodes[i].state == ACTIVE
    decreases k
  {
    if k > 0 {
      ThreadsStay(workers, steps, states, k - 1, i);
      StepKeepsThreads(states[k - 1], steps[k - 1], i);
    }
  }

  /** A process is sticky passive exactly when it has been passive ever since, and while, it last
      handled a token. */
  lemma {:induction false} StickyIsExact(workers: seq<nat>, steps: seq<Step>, states: seq<Sys>, k: nat, i: nat)
    requires Run(workers, steps, states) && k <= |steps| && i < |workers|
    ensures i < |states[k].nodes|
    ensures states[k].nodes[i].sticky == PASSIVE <==> exists f :: PassiveFrom(steps, states, f, k, i)
    decreases k
  {
    StateIsExact(workers, steps, states, k, i);
    if k > 0 {
      var t := steps[k - 1];
      StickyIsExact(workers, steps, states, k - 1, i);
      ThreadsStay(workers, steps, states, k - 1, i);
      StepKeepsThreads(states[k - 1], t, i);
      if states[k].nodes[i].sticky == PASSIVE {
        if t == Finish(i) {
          assert PassiveFrom(steps, states, k - 1, k, i);
        } else {
          var f :| PassiveFrom(steps, states, f, k - 1, i);
          assert PassiveFrom(steps, states, f, k, i);
        }
      }
      forall f: nat | PassiveFrom(steps, states, f, k, i)
        ensures states[k].nodes[i].sticky == PASSIVE
      {
        assert f < k - 1 ==> PassiveFrom(steps, states, f, k - 1, i);
      }
    }
  }

  // ------------------------------------------------------------------------------------------
  // When the simulation ends
  // ------------------------------------------------------------------------------------------

  /** A process that receives a token ends the simulation exactly when it has been passive since it
      last handled a token, all the processes have passed this one on, itself first, and what they
      had counted adds up to nothing. */
  lemma TerminatesExactly(workers: seq<nat>, steps: seq<Step>, states: seq<Sys>, i: nat) returns (passes: seq<nat>)
    requires Run(workers, steps, states) && workers != []
    requires Enabled(states[|steps|], ReceiveToken(i))
    ensures var (s, n) := (states[|steps|], |workers|);
            && Passed(n, steps, states, s.tokens[0], passes)
            && (MustTerminate(s.nodes[i], s.tokens[0]) <==>
                  && (exists f :: PassiveFrom(steps, states, f, |steps|, i))
                  && |passes| == n && steps[passes[0]] == Initiate(i)
                  && Sum(n, steps, states, i, passes) == 0)
  {
    hide CountedSince, Sum, NodeOk, TokenOk;
    var s, n := states[|steps|], |workers|;
    var p := RunKeepsInv(workers, steps, states);
    assert p.Flying?;
    passes := TokenCountIsSum(workers, steps, states, |steps|, p);
    CountIsExact(workers, steps, states, |steps|, 0);
    StickyIsExact(workers, steps, states, |steps|, i);
    assert s.tokens[0].initiator == i <==> |passes| == n;
  }
}
