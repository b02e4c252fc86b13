/** The two GVT managers in the program's own form, for one process. */
module GvtManagers {
  import opened Events
  import M = Mattern
  import L = LocalMinimum
  import S = SynchronousGvt

  /** The messages of sendGVTUpdate, in the order in which they are inserted. */
  function UpdateMessages(n: nat, gvt: nat): (r: seq<M.Update>)
    ensures |r| == n && forall u :: u in r <==> u in M.UpdatesFor(n, gvt)
  {
    var r := seq(n, i requires 0 <= i => M.Update(i, gvt));
    assert forall u :: u in M.UpdatesFor(n, gvt) ==> u == r[u.receiver];
    r
  }

  /** One turn of a loop that takes the minimum of an array. */
  lemma LeastStep(a: seq<nat>, i: nat)
    requires i < |a|
    ensures L.Least(a[..i + 1]) == L.Min(L.Least(a[..i]), a[i])
  {
    assert a[..i + 1][..i] == a[..i];
  }

  class TimeWarpAsynchronousGVTManager {
    const id: nat
    const numProcesses: nat
    const numWorkerThreads: nat
    var color: M.Color
    var initialColor: M.Color
    var whiteMsgCount: int
    var redMsgCount: int
    var minSendTimestamp: nat
    var minRecvTimestamp: nat
    var globalMinClock: nat
    var msgCount: int
    var gvtState: M.GvtState
    var startedLocalGvt: bool
    var startedGlobalGvt: bool
    var gVT: nat
    var localGvtFlag: nat
    const localMin: array<nat>
    const sendMin: array<nat>
    const calculatedMinFlag: array<bool>
    var tokens: seq<M.Token>        // inserted messages
    var updates: seq<M.Update>

    ghost predicate Valid()
      reads this
    {
      && localMin.Length == sendMin.Length == calculatedMinFlag.Length == numWorkerThreads + 1
      && localMin != sendMin
    }

    /** What Mattern's algorithm sees. */
    ghost function Abs(): M.Manager
      reads this
    {
      M.Manager(color, initialColor, whiteMsgCount, redMsgCount, minSendTimestamp, minRecvTimestamp, globalMinClock,
                msgCount, gvtState, startedLocalGvt, startedGlobalGvt, gVT)
    }

    /** What the worker threads see. */
    ghost function Reports(): L.Reports
      reads this, localMin, sendMin, calculatedMinFlag
    {
      L.Reports(localGvtFlag, localMin[..], sendMin[..], calculatedMinFlag[..])
    }

    constructor (id: nat, numProcesses: nat, numWorkerThreads: nat)
      ensures Valid() && this.id == id && this.numProcesses == numProcesses && this.numWorkerThreads == numWorkerThreads
      ensures fresh(localMin) && fresh(sendMin) && fresh(calculatedMinFlag)
      ensures Abs() == M.Manager(M.WHITE, M.WHITE, 0, 0, UINT_MAX, UINT_MAX, globalMinClock, 0, M.IDLE, false, false, 0)
      ensures Reports() == L.Reset(numWorkerThreads).(flag := 0)
    {
      this.id, this.numProcesses, this.numWorkerThreads := id, numProcesses, numWorkerThreads;
      localMin := new nat[numWorkerThreads + 1](i => UINT_MAX);
      sendMin := new nat[numWorkerThreads + 1](i => UINT_MAX);
      calculatedMinFlag := new bool[numWorkerThreads + 1](i => i == numWorkerThreads);
      color, initialColor, whiteMsgCount, redMsgCount := M.WHITE, M.WHITE, 0, 0;
      minSendTimestamp, minRecvTimestamp, msgCount, gVT := UINT_MAX, UINT_MAX, 0, 0;
      gvtState, startedLocalGvt, startedGlobalGvt, localGvtFlag := M.IDLE, false, false, 0;
      globalMinClock := 0;
      tokens, updates := [], [];
      new;
      assert localMin[..] == seq(numWorkerThreads + 1, i => UINT_MAX);
      assert sendMin[..] == seq(numWorkerThreads + 1, i => UINT_MAX);
      assert calculatedMinFlag[..] == seq(numWorkerThreads + 1, i => i == numWorkerThreads);
    }

    method SendEventUpdate(timestamp: nat) returns (c: M.Color)
      modifies this
      ensures Abs() == M.SendEvent(old(Abs()), timestamp) && c == old(color)
      ensures minSendTimestamp == if c != initialColor && timestamp < old(minSendTimestamp) then timestamp else old(minSendTimestamp)
      ensures whiteMsgCount == old(whiteMsgCount) + (if c == M.WHITE then 1 else 0)
           && redMsgCount == old(redMsgCount) + (if c == M.RED then 1 else 0)
      ensures unchanged(`localGvtFlag) && unchanged(`tokens) && unchanged(`updates)
    {
      c := color;
      if c == M.WHITE {
        whiteMsgCount := whiteMsgCount + 1;
      } else {
        redMsgCount := redMsgCount + 1;
      }
      if c != initialColor {
        minSendTimestamp := M.Min(minSendTimestamp, timestamp);
      }
    }

    method ReceiveEventUpdate(timestamp: nat, c: M.Color)
      modifies this
      ensures Abs() == M.ReceiveEvent(old(Abs()), timestamp, c)
      ensures minRecvTimestamp == if c == initialColor && timestamp < old(minRecvTimestamp) then timestamp else old(minRecvTimestamp)
      ensures whiteMsgCount == old(whiteMsgCount) - (if c == M.WHITE then 1 else 0)
           && redMsgCount == old(redMsgCount) - (if c == M.RED then 1 else 0)
      ensures unchanged(`localGvtFlag) && unchanged(`tokens) && unchanged(`updates)
    {
      if c == M.WHITE {
        whiteMsgCount := whiteMsgCount - 1;
      } else {
        redMsgCount := redMsgCount - 1;
      }
      if c == initialColor {
        minRecvTimestamp := M.Min(minRecvTimestamp, timestamp);
      }
    }

    method InitialColorCount() returns (count: int)
      ensures count == M.CountOf(Abs(), initialColor)
    {
      count := if initialColor == M.RED then redMsgCount else whiteMsgCount;
    }

    /** msg_count_ takes the count of the initial colour, which starts again at 0. */
    method HoldCount(count: int)
      modifies this
      ensures Abs() == M.Captured(old(Abs()), count)
      ensures unchanged(`color) && unchanged(`minSendTimestamp) && unchanged(`minRecvTimestamp)
      ensures unchanged(`localGvtFlag) && unchanged(`tokens) && unchanged(`updates)
    {
      var mine := InitialColorCount();
      msgCount := mine + count;
      if initialColor == M.RED {
        redMsgCount := 0;
      } else {
        whiteMsgCount := 0;
      }
    }

    method ResetLocalState()
      requires Valid()
      modifies localMin, sendMin, calculatedMinFlag
      ensures Reports() == L.Reset(numWorkerThreads).(flag := localGvtFlag)
    {
      for i := 0 to numWorkerThreads + 1
        invariant forall k :: 0 <= k < i ==> localMin[k] == UINT_MAX == sendMin[k] && !calculatedMinFlag[k]
      {
        sendMin[i] := UINT_MAX;
        calculatedMinFlag[i] := false;
        localMin[i] := UINT_MAX;
      }
      calculatedMinFlag[numWorkerThreads] := true;
    }

    method SendMatternGVTToken(localMinimum: nat)
      modifies this
      ensures Abs() == old(Abs()).(clock := if id == 0 then UINT_MAX else old(globalMinClock))
      ensures tokens == old(tokens) + [M.NewToken(old(Abs()), id, numProcesses, localMinimum)]
      ensures unchanged(`localGvtFlag) && unchanged(`updates)
    {
      if id == 0 {
        globalMinClock := UINT_MAX;
      }
      var clock := M.Min(M.Min(minRecvTimestamp, localMinimum), globalMinClock);
      tokens := tokens + [M.Token(if id + 1 >= numProcesses then 0 else id + 1, clock, minSendTimestamp, msgCount)];
    }

    method LeastReport() returns (min: nat)
      requires Valid()
      ensures min == L.Least(localMin[..])
    {
      min := UINT_MAX;
      for i := 0 to numWorkerThreads + 1
        invariant min == L.Least(localMin[..i])
      {
        LeastStep(localMin[..], i);
        assert localMin[..][..i + 1] == localMin[..i + 1] && localMin[..][..i] == localMin[..i];
        min := L.Min(min, localMin[i]);
      }
      assert localMin[..localMin.Length] == localMin[..];
    }

    /** The initiator starts a computation: it changes its colour and gives up its count. */
    method StartGlobalGVT()
      modifies this
      ensures Abs() == M.Captured(M.Toggled(old(Abs())), 0).(startedGlobal := true)
      ensures minSendTimestamp == UINT_MAX == minRecvTimestamp && color != old(color) && startedGlobalGvt
      ensures unchanged(`localGvtFlag) && unchanged(`tokens)
    {
      minSendTimestamp, minRecvTimestamp := UINT_MAX, UINT_MAX;
      color := M.Other(color);
      assert Abs() == M.Toggled(old(Abs()));
      hide M.Toggled, M.Captured;
      HoldCount(0);
      startedGlobalGvt := true;
    }

    /** The first half of progressGVT: the local computation starts. */
    method BeginLocalGVT()
      requires Valid() && gvtState == M.LOCAL && localGvtFlag == 0 && !startedLocalGvt
      modifies this, localMin, sendMin, calculatedMinFlag
      ensures Valid() && tokens == old(tokens)
      ensures Abs() == M.Begin(old(Abs()), id) && Reports() == L.Reset(numWorkerThreads)
      ensures id == 0 && !old(startedGlobalGvt) ==>
                minSendTimestamp == UINT_MAX == minRecvTimestamp && color != old(color) && startedGlobalGvt
      ensures startedLocalGvt && localGvtFlag == numWorkerThreads
    {
      if !startedGlobalGvt && id == 0 {
        StartGlobalGVT();
      }
      hide M.Toggled, M.Captured;
      ResetLocalState();
      localGvtFlag := numWorkerThreads;
      startedLocalGvt := true;
    }

    /** The second half: all threads have reported. */
    method EndLocalGVT()
      requires Valid() && gvtState == M.LOCAL && localGvtFlag == 0 && startedLocalGvt
      modifies this
      ensures Valid() && unchanged(`localGvtFlag)
      ensures var min := L.Least(localMin[..]);
              && Abs() == M.Ended(old(Abs()), id, numProcesses, min)
              && tokens == old(tokens) +
                   if numProcesses > 1 then [M.NewToken(old(Abs()), id, numProcesses, min)] else []
      ensures !startedLocalGvt && (if numProcesses > 1 then gvtState == M.GLOBAL && gVT == old(gVT)
                                   else gvtState == M.IDLE && gVT == L.Least(localMin[..]))
    {
      hide L.Least;
      var min := LeastReport();
      if numProcesses > 1 {
        gvtState := M.GLOBAL;
        SendMatternGVTToken(min);
      } else {
        gvtState := M.IDLE;
        gVT := min;
      }
      startedLocalGvt := false;
    }

    /** progressGVT: starts the local computation, or ends it once all threads have reported. */
    method ProgressGVT()
      requires Valid()
      modifies this, localMin, sendMin, calculatedMinFlag
      ensures Valid()
      ensures old(gvtState) != M.LOCAL || old(localGvtFlag) != 0 ==>
                Abs() == old(Abs()) && Reports() == old(Reports()) && tokens == old(tokens)
      ensures old(gvtState) == M.LOCAL && old(localGvtFlag) == 0 && !old(startedLocalGvt) ==>
                Abs() == M.Begin(old(Abs()), id) && Reports() == L.Reset(numWorkerThreads) && tokens == old(tokens)
      ensures old(gvtState) == M.LOCAL && old(localGvtFlag) == 0 && old(startedLocalGvt) ==>
                var min := L.Least(old(localMin[..]));
                && Abs() == M.Ended(old(Abs()), id, numProcesses, min) && Reports() == old(Reports())
                && tokens == old(tokens) +
                     if numProcesses > 1 then [M.NewToken(old(Abs()), id, numProcesses, min)] else []
      ensures old(gvtState) == M.LOCAL && old(localGvtFlag) == 0 ==>
                if old(startedLocalGvt) then !startedLocalGvt && gvtState == (if numProcesses > 1 then M.GLOBAL else M.IDLE)
                else startedLocalGvt && localGvtFlag == numWorkerThreads
    {
      hide M.Begin, M.Ended, M.NewToken, L.Reset, L.Least;
      if gvtState == M.LOCAL {
        if localGvtFlag == 0 && !startedLocalGvt {
          BeginLocalGVT();
        } else if localGvtFlag == 0 && startedLocalGvt {
          EndLocalGVT();
        }
      }
    }

    method ReceiveMatternGVTToken(msg: M.Token)
      modifies this
      ensures Abs() == M.ReceiveToken(old(Abs()), id, msg)
      ensures unchanged(`localGvtFlag) && unchanged(`tokens)
      ensures M.Finishes(id, msg) ==>
                updates == old(updates) + UpdateMessages(numProcesses, M.Min(msg.clock, msg.send))
      ensures !M.Finishes(id, msg) ==> updates == old(updates)
    {
      if id == 0 {
        if msg.count <= 0 {
          SendGVTUpdate(M.Min(msg.clock, msg.send));
          gvtState := M.GLOBAL;
          startedGlobalGvt := false;
        } else {
          minSendTimestamp := M.Min(msg.send, minSendTimestamp);
          HoldCount(msg.count);
          gvtState := M.LOCAL;
        }
      } else {
        PassMatternGVTToken(msg);
      }
    }

    /** A node other than the initiator receives the token. */
    method PassMatternGVTToken(msg: M.Token)
      requires id != 0
      modifies this
      ensures Abs() == M.ReceiveToken(old(Abs()), id, msg)
      ensures old(color) == initialColor ==>
                color != initialColor && minRecvTimestamp == UINT_MAX && minSendTimestamp == M.Min(msg.send, UINT_MAX)
      ensures unchanged(`localGvtFlag) && unchanged(`tokens) && unchanged(`updates)
    {
      if color == initialColor {
        minSendTimestamp, minRecvTimestamp := UINT_MAX, UINT_MAX;
        color := M.Other(color);
      }
      minSendTimestamp := M.Min(msg.send, minSendTimestamp);
      globalMinClock := M.Min(globalMinClock, msg.clock);
      HoldCount(msg.count);
      gvtState := M.LOCAL;
    }

    method SendGVTUpdate(gvt: nat)
      modifies `updates
      ensures updates == old(updates) + UpdateMessages(numProcesses, gvt)
    {
      assert updates == old(updates) + UpdateMessages(numProcesses, gvt)[..0];
      for i := 0 to numProcesses
        invariant updates == old(updates) + UpdateMessages(numProcesses, gvt)[..i]
      {
        updates := updates + [M.Update(i, gvt)];
      }
    }

    method ReceiveGVTUpdate(newGvt: nat)
      modifies this
      ensures Abs() == M.ReceiveUpdate(old(Abs()), newGvt) && gVT == newGvt && globalMinClock == UINT_MAX
      ensures initialColor != old(initialColor) && gvtState == if old(gvtState) == M.LOCAL then M.LOCAL else M.IDLE
      ensures unchanged(`localGvtFlag) && unchanged(`tokens) && unchanged(`updates)
    {
      gVT := newGvt;
      globalMinClock := UINT_MAX;
      initialColor := M.Other(initialColor);
      if gvtState == M.GLOBAL {
        gvtState := M.IDLE;
      }
    }

    method ReportThreadMin(timestamp: nat, threadId: nat, flagRead: nat)
      requires Valid() && threadId < numWorkerThreads
      modifies `localGvtFlag, localMin, calculatedMinFlag
      ensures Reports() == L.ReportMin(old(Reports()), timestamp, threadId, flagRead)
    {
      if flagRead > 0 && !calculatedMinFlag[threadId] {
        localMin[threadId] := L.Min(sendMin[threadId], timestamp);
        calculatedMinFlag[threadId] := true;
        localGvtFlag := if localGvtFlag > 0 then localGvtFlag - 1 else UINT_MAX;
      }
    }

    method ReportThreadSendMin(timestamp: nat, threadId: nat)
      requires Valid() && threadId <= numWorkerThreads
      modifies sendMin
      ensures Reports() == L.ReportSend(old(Reports()), timestamp, threadId)
    {
      if localGvtFlag > 0 && !calculatedMinFlag[threadId] {
        sendMin[threadId] := L.Min(sendMin[threadId], timestamp);
      }
    }
  }

  class TimeWarpSynchronousGVTManager {
    const numWorkerThreads: nat
    var color: S.Color
    var localGvtFlag: bool
    var whiteMsgCount: int
    var recvMin: nat
    const localMin: array<nat>
    const sendMin: array<nat>

    ghost predicate Valid()
      reads this
    {
      localMin.Length == sendMin.Length == numWorkerThreads + 1 && localMin != sendMin
    }

    constructor (numWorkerThreads: nat)
      ensures Valid() && this.numWorkerThreads == numWorkerThreads && fresh(localMin) && fresh(sendMin)
      ensures color == S.WHITE && !localGvtFlag && whiteMsgCount == 0 && recvMin == UINT_MAX
      ensures forall i :: 0 <= i <= numWorkerThreads ==> localMin[i] == UINT_MAX == sendMin[i]
    {
      this.numWorkerThreads := numWorkerThreads;
      localMin := new nat[numWorkerThreads + 1](i => UINT_MAX);
      sendMin := new nat[numWorkerThreads + 1](i => UINT_MAX);
      color, localGvtFlag, whiteMsgCount, recvMin := S.WHITE, false, 0, UINT_MAX;
    }

    /** The fields are those of process d of the protocol. */
    predicate Shows(d: S.Node)
      reads this
    {
      d.white == whiteMsgCount && d.recvMin == recvMin && (color == S.WHITE <==> d.phase == S.Open)
    }

    /** Together with the report of the send's time, this is the protocol's send. */
    method SendEventUpdate() returns (c: S.Color)
      modifies `whiteMsgCount
      ensures forall d, ts :: old(Shows(d)) ==> Shows(S.Noted(d, ts))
      ensures c == color && whiteMsgCount == old(whiteMsgCount) + (if color == S.WHITE then 1 else 0)
    {
      c := color;
      if c == S.WHITE {
        whiteMsgCount := whiteMsgCount + 1;
      }
    }

    /** The protocol's receipt. */
    method ReceiveEventUpdate(timestamp: nat, c: S.Color)
      modifies `whiteMsgCount, `recvMin
      ensures forall d, x: S.Message :: old(Shows(d)) && x.ts == timestamp && x.color == c ==> Shows(S.Received(d, x))
      ensures whiteMsgCount == old(whiteMsgCount) - (if c == S.WHITE then 1 else 0)
      ensures recvMin == if c == S.WHITE then old(recvMin) else S.Min(old(recvMin), timestamp)
    {
      if c == S.WHITE {
        whiteMsgCount := whiteMsgCount - 1;
      } else {
        recvMin := S.Min(recvMin, timestamp);
      }
    }

    method ReportThreadMin(timestamp: nat, threadId: nat, flagRead: bool)
      requires Valid() && threadId < numWorkerThreads
      modifies localMin
      ensures localMin[..] == if flagRead then old(localMin[..])[threadId := timestamp] else old(localMin[..])
    {
      if flagRead {
        localMin[threadId] := timestamp;
      }
    }

    method ReportThreadSendMin(timestamp: nat, threadId: nat)
      requires Valid() && threadId <= numWorkerThreads
      modifies sendMin
      ensures sendMin[..] == if localGvtFlag then old(sendMin[..])[threadId := S.Min(timestamp, old(sendMin[threadId]))]
                             else old(sendMin[..])
    {
      if localGvtFlag {
        sendMin[threadId] := S.Min(timestamp, sendMin[threadId]);
      }
    }

    /** The loop of progressGVT over the reports of the threads, which also resets them. */
    method LocalMin() returns (min: nat)
      requires Valid() && recvMin <= UINT_MAX
      modifies `recvMin, localMin, sendMin
      ensures min == S.Min(old(recvMin), S.Min(L.Least(old(localMin[..])), L.Least(old(sendMin[..]))))
      ensures recvMin == UINT_MAX && forall i :: 0 <= i <= numWorkerThreads ==> localMin[i] == UINT_MAX == sendMin[i]
    {
      hide L.Least;
      ghost var r, a, b := recvMin, localMin[..], sendMin[..];
      min := recvMin;
      recvMin := UINT_MAX;
      NothingSeen(r, a, b);
      for i := 0 to numWorkerThreads + 1
        invariant Valid() && recvMin == UINT_MAX && localMin[..] == Cleared(a, i) && sendMin[..] == Cleared(b, i)
        invariant min == S.Min(r, S.Min(L.Least(a[..i]), L.Least(b[..i])))
      {
        LeastStep(a, i);
        LeastStep(b, i);
        assert Cleared(a, i)[i] == a[i] && Cleared(b, i)[i] == b[i];
        min := S.Min(min, S.Min(localMin[i], sendMin[i]));
        localMin[i] := UINT_MAX;
        sendMin[i] := UINT_MAX;
      }
      assert a[..|a|] == a && b[..|b|] == b;
    }
  }

  function Cleared(a: seq<nat>, i: nat): (r: seq<nat>)
    requires i <= |a|
    ensures |r| == |a| && (forall k :: 0 <= k < i ==> r[k] == UINT_MAX) && (forall k :: i <= k < |a| ==> r[k] == a[k])
  {
    seq(i, k => UINT_MAX) + a[i..]
  }

  lemma NothingSeen(r: nat, a: seq<nat>, b: seq<nat>)
    requires r <= UINT_MAX
    ensures S.Min(r, S.Min(L.Least(a[..0]), L.Least(b[..0]))) == r
    ensures Cleared(a, 0) == a && Cleared(b, 0) == b
  {
  }
}
