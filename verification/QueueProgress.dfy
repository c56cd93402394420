/**
 The shared queue gets somewhere: without new calls and without spurious wakeups only
 finitely many moves are possible, so every call ends or is left waiting for the
 other side.
 */
module QueueProgress {
  import opened Bytes
  import opened RingLayout
  import opened QueueMachine
  import opened QueueInvariant

  /** How much a thread still has to do. A wakeup gives two back, which the waker pays for. */
  function Rank(r: Ring, th: Thread): nat {
    match th
    case Idle => 0
    case Push(data, _, at) =>
      var n := |Frame(data)|;
      (match at
       case AskTail => n + 16
       case AskSize => n + 15
       case Retake => n + 14
       case Test => n + 13
       case Waiting => n + 12
       case LeaveSize => n + 11
       case Wrap => n + 10
       case Fill(k) => if k <= n then n - k + 9 else 9
       case AskCount => 8
       case Count => 7
       case Wake => 6
       case LeaveCount => 2
       case LeaveTail => 1
       case QuitSize => 2
       case QuitTail => 1)
    case Pop(_, _, at, got) =>
      var n := r.dataMax;
      (match at
       case AskHead => n + 16
       case AskSize => n + 15
       case Retake => n + 14
       case Test => n + 13
       case Waiting => n + 12
       case LeaveSize => n + 11
       case ReadSize => n + 10
       case Drain(size) => if |got| <= size then size - |got| + 9 else 9
       case AskCount => 8
       case Count => 7
       case Wake => 6
       case LeaveCount => 2
       case LeaveHead => 1
       case QuitSize => 2
       case QuitHead => 1)
  }

  function Total(r: Ring, threads: seq<Thread>): nat {
    if threads == [] then 0
    else Total(r, threads[..|threads| - 1]) + Rank(r, threads[|threads| - 1])
  }

  lemma {:induction false} TotalUpdate(r: Ring, threads: seq<Thread>, t: nat, th: Thread)
    requires t < |threads|
    ensures Total(r, threads[t := th]) == Total(r, threads) - Rank(r, threads[t]) + Rank(r, th)
    decreases |threads|
  {
    var last := |threads| - 1;
    if t < last {
      TotalUpdate(r, threads[..last], t, th);
      assert threads[t := th][..last] == threads[..last][t := th];
    } else {
      assert threads[t := th][..last] == threads[..last];
    }
  }

  /** At most one thread waits on each condition, because it holds the mutex of its side. */
  lemma BroadcastWakesOne(r: Ring, s: State, poppers: bool)
    requires Owners(s)
    ensures Total(r, Broadcast(s.threads, poppers)) <= Total(r, s.threads) + 2
  {
    var mx := if poppers then s.headMx else s.tailMx;
    if mx.Some? && IsWaiting(s.threads[mx.value]) && s.threads[mx.value].Pop? == poppers {
      assert Broadcast(s.threads, poppers) == s.threads[mx.value := Woken(s.threads[mx.value])];
      TotalUpdate(r, s.threads, mx.value, Woken(s.threads[mx.value]));
    } else {
      assert forall i :: 0 <= i < |s.threads| && IsWaiting(s.threads[i]) && s.threads[i].Pop? == poppers ==>
        if poppers then HasHead(s.threads[i]) else HasTail(s.threads[i]);
      assert Broadcast(s.threads, poppers) == s.threads;
    }
  }

  /** One thread moves on, and has less to do than before. */
  predicate GoesDown(r: Ring, s: State, s': State, t: nat)
    requires t < |s.threads|
  {
    && |s'.threads| == |s.threads|
    && s'.threads == s.threads[t := s'.threads[t]]
    && Rank(r, s'.threads[t]) < Rank(r, s.threads[t])
  }

  lemma WokenOwners(s: State, t: nat, next: Thread)
    requires Owners(s) && t < |s.threads|
    requires HasTail(next) == HasTail(s.threads[t]) && HasHead(next) == HasHead(s.threads[t])
    requires HasSize(next) == HasSize(s.threads[t])
    ensures Owners(s.(threads := s.threads[t := next]))
  {
  }

  /** A broadcast costs its caller more than it gives to the thread it wakes. */
  lemma WakeGoesDown(r: Ring, s: State, t: nat, next: Thread, poppers: bool)
    requires Owners(s) && t < |s.threads| && AtWake(s.threads[t])
    requires HasTail(next) == HasTail(s.threads[t]) && HasHead(next) == HasHead(s.threads[t])
    requires HasSize(next) == HasSize(s.threads[t]) && Rank(r, next) == 2
    ensures Total(r, Broadcast(s.threads[t := next], poppers)) < Total(r, s.threads)
  {
    TotalUpdate(r, s.threads, t, next);
    WokenOwners(s, t, next);
    BroadcastWakesOne(r, s.(threads := s.threads[t := next]), poppers);
  }

  /** The moves of a push that touch mutexes and the count. */
  lemma PushGoesDownControl(r: Ring, s: State, t: nat)
    requires CanMove(r, s, Advance(t)) && s.threads[t].Push?
    requires var at := s.threads[t].pushAt; !at.Wake? && !at.Wrap? && !at.Fill? && !at.Test?
    ensures GoesDown(r, s, AdvancePush(r, s, t), t)
  {
  }

  /** The test, and the moves that write the buffer. */
  lemma PushGoesDownData(r: Ring, s: State, t: nat)
    requires CanMove(r, s, Advance(t)) && s.threads[t].Push?
    requires var at := s.threads[t].pushAt; at.Wrap? || at.Fill? || at.Test?
    ensures GoesDown(r, s, AdvancePush(r, s, t), t)
  {
  }

  lemma PushGoesDown(r: Ring, s: State, t: nat)
    requires CanMove(r, s, Advance(t)) && s.threads[t].Push? && !s.threads[t].pushAt.Wake?
    ensures GoesDown(r, s, AdvancePush(r, s, t), t)
  {
    var at := s.threads[t].pushAt;
    if at.Wrap? || at.Fill? || at.Test? {
      PushGoesDownData(r, s, t);
    } else {
      PushGoesDownControl(r, s, t);
    }
  }

  lemma PushAdvances(r: Ring, s: State, t: nat)
    requires Inv(r, s) && CanMove(r, s, Advance(t)) && s.threads[t].Push?
    ensures Total(r, AdvancePush(r, s, t).threads) < Total(r, s.threads)
  {
    if s.threads[t].pushAt.Wake? {
      WakeGoesDown(r, s, t, s.threads[t].(pushAt := PushAt.LeaveCount), true);
    } else {
      PushGoesDown(r, s, t);
      TotalUpdate(r, s.threads, t, AdvancePush(r, s, t).threads[t]);
    }
  }

  /** The loads of a pop stay inside the buffer, so they go on. */
  lemma HeaderLoads(r: Ring, s: State, t: nat)
    requires Inv(r, s) && CanMove(r, s, Advance(t)) && s.threads[t].Pop? && s.threads[t].popAt.ReadSize?
    ensures InBuffer(r, s, s.head, SIZE_T_BYTES) && DecodeLE(s.mem[s.head..s.head + SIZE_T_BYTES]) <= r.dataMax
  {
    ReadHeader(r, s, t);
    assert Holds(r, s.mem, |s.popped|, s.pushed[|s.popped|]);
  }

  lemma DataLoads(r: Ring, s: State, t: nat)
    requires Inv(r, s) && t < |s.threads| && s.threads[t].Pop? && s.threads[t].popAt.Drain?
    requires |s.threads[t].got| < s.threads[t].popAt.size
    ensures InBuffer(r, s, s.head + SIZE_T_BYTES + |s.threads[t].got|, 1)
  {
    assert Holder(s, s.headMx) == s.threads[t];
    SlotBounds(r, |s.popped|);
    assert Holds(r, s.mem, |s.popped|, s.pushed[|s.popped|]);
  }

  lemma CountPositive(r: Ring, s: State, t: nat)
    requires Inv(r, s) && t < |s.threads| && s.threads[t].Pop? && s.threads[t].popAt.Count?
    ensures s.cur > 0
  {
    assert Holder(s, s.headMx) == s.threads[t];
  }

  /** The moves of a pop that read the buffer or change the count, where they go on. */
  lemma PopGoesDownData(r: Ring, s: State, t: nat)
    requires CanMove(r, s, Advance(t)) && s.threads[t].Pop?
    requires
      var th, at := s.threads[t], s.threads[t].popAt;
      || (at.ReadSize? && InBuffer(r, s, s.head, SIZE_T_BYTES)
          && DecodeLE(s.mem[s.head..s.head + SIZE_T_BYTES]) <= r.dataMax)
      || (at.Drain? && (|th.got| < at.size ==> InBuffer(r, s, s.head + SIZE_T_BYTES + |th.got|, 1)))
      || (at.Count? && s.cur > 0)
    ensures GoesDown(r, s, AdvancePop(r, s, t), t)
  {
  }

  lemma PopGoesDownControl(r: Ring, s: State, t: nat)
    requires CanMove(r, s, Advance(t)) && s.threads[t].Pop?
    requires var at := s.threads[t].popAt; !at.Wake? && !at.ReadSize? && !at.Drain? && !at.Count?
    ensures GoesDown(r, s, AdvancePop(r, s, t), t)
  {
    match s.threads[t].popAt {
      case Test =>
      case QuitHead =>
      case LeaveHead =>
      case _ =>
    }
  }

  lemma PopGoesDown(r: Ring, s: State, t: nat)
    requires Inv(r, s) && CanMove(r, s, Advance(t)) && s.threads[t].Pop? && !s.threads[t].popAt.Wake?
    ensures GoesDown(r, s, AdvancePop(r, s, t), t)
  {
    var at := s.threads[t].popAt;
    if at.ReadSize? {
      HeaderLoads(r, s, t);
      PopGoesDownData(r, s, t);
    } else if at.Drain? {
      if |s.threads[t].got| < at.size {
        DataLoads(r, s, t);
      }
      PopGoesDownData(r, s, t);
    } else if at.Count? {
      CountPositive(r, s, t);
      PopGoesDownData(r, s, t);
    } else {
      PopGoesDownControl(r, s, t);
    }
  }

  lemma PopAdvances(r: Ring, s: State, t: nat)
    requires Inv(r, s) && CanMove(r, s, Advance(t)) && s.threads[t].Pop?
    ensures Total(r, AdvancePop(r, s, t).threads) < Total(r, s.threads)
  {
    if s.threads[t].popAt.Wake? {
      WakeGoesDown(r, s, t, s.threads[t].(popAt := PopAt.LeaveCount), false);
    } else {
      PopGoesDown(r, s, t);
      TotalUpdate(r, s.threads, t, AdvancePop(r, s, t).threads[t]);
    }
  }

  lemma Advances(r: Ring, s: State, t: nat)
    requires Inv(r, s) && CanMove(r, s, Advance(t))
    ensures Inv(r, Apply(r, s, Advance(t)))
    ensures Total(r, Apply(r, s, Advance(t)).threads) < Total(r, s.threads)
  {
    MoveKeepsInv(r, s, Advance(t));
    if s.threads[t].Push? {
      PushAdvances(r, s, t);
    } else {
      PopAdvances(r, s, t);
    }
  }

  /** A run without new calls and spurious wakeups is no longer than the work its first state
      has left; the state it cannot leave is one `StuckMeansFullOrEmpty` describes. */
  lemma {:induction false} RunsEnd(r: Ring, moves: seq<Move>, states: seq<State>, n: nat)
    requires IsRun(r, moves, states) && Inv(r, states[0]) && n <= |moves|
    requires forall i :: 0 <= i < |moves| ==> moves[i].Advance?
    ensures Inv(r, states[n]) && n + Total(r, states[n].threads) <= Total(r, states[0].threads)
  {
    if n > 0 {
      RunsEnd(r, moves, states, n - 1);
      assert Leads(r, moves, states, n - 1);
      Advances(r, states[n - 1], moves[n - 1].t);
    }
  }
}
