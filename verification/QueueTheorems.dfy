/**
 What the invariant of the shared queue gives: it refines a bounded first-in
 first-out list, producers and consumers never touch the same bytes, no wakeup
 is lost and nobody is stuck without reason.
 */
module QueueTheorems {
  import opened Bytes
  import opened RingLayout
  import opened QueueMachine
  import opened QueueInvariant
  import BoundedFifo

  /** The list the shared queue stands for. */
  function Abstract(r: Ring, s: State): BoundedFifo.Fifo
    requires |s.popped| <= |s.pushed|
  {
    BoundedFifo.Fifo(r.max, s.pushed[|s.popped|..])
  }

  // ---- Refinement ------------------------------------------------------------------

  /** The size header at the head is the length of the front element. */
  predicate HeaderReads(r: Ring, s: State) {
    && InBuffer(r, s, s.head, SIZE_T_BYTES)
    && |s.popped| < |s.pushed|
    && DecodeLE(s.mem[s.head..s.head + SIZE_T_BYTES]) == |s.pushed[|s.popped|]|
  }

  /** A push changes the history only where it raises the count. */
  lemma PushHistory(r: Ring, s: State, t: nat)
    requires Inv(r, s) && CanMove(r, s, Advance(t)) && s.threads[t].Push?
    ensures var s' := AdvancePush(r, s, t);
            && s'.popped == s.popped
            && s'.pushed == s.pushed + if s.threads[t].pushAt.Count? then [s.threads[t].data] else []
  {
    if !s.threads[t].pushAt.Count? && !s.threads[t].pushAt.Fill? {
      PushQuiet(r, s, t);
    }
  }

  /** A pop changes the history only where it lowers the count. */
  lemma PopHistory(r: Ring, s: State, t: nat)
    requires Inv(r, s) && CanMove(r, s, Advance(t)) && s.threads[t].Pop?
    ensures var s' := AdvancePop(r, s, t);
            && s'.pushed == s.pushed
            && s'.popped == s.popped + if s.threads[t].popAt.Count? then [s.threads[t].got] else []
    ensures s.threads[t].popAt.Count? ==> |s.popped| < |s.pushed| && s.threads[t].got == s.pushed[|s.popped|]
    ensures s.threads[t].popAt.ReadSize? ==> HeaderReads(r, s)
  {
    match s.threads[t].popAt {
      case Count => PopCounted(r, s, t);
      case ReadSize => ReadHeader(r, s, t);
      case Drain(size) =>
      case _ => PopQuiet(r, s, t);
    }
  }

  /** A history that changes so is a step of the list. */
  lemma PushEvent(r: Ring, s: State, s': State, t: nat)
    requires Inv(r, s) && CanMove(r, s, Advance(t)) && s.threads[t].Push?
    requires s'.popped == s.popped
    requires s'.pushed == s.pushed + if s.threads[t].pushAt.Count? then [s.threads[t].data] else []
    ensures |s'.popped| <= |s'.pushed|
    ensures BoundedFifo.Step(Abstract(r, s), EventOf(r, s, Advance(t)), Abstract(r, s'))
  {
    if s.threads[t].pushAt.Count? {
      assert Holder(s, s.tailMx) == s.threads[t];
    }
  }

  lemma PopEvent(r: Ring, s: State, s': State, t: nat)
    requires Inv(r, s) && CanMove(r, s, Advance(t)) && s.threads[t].Pop?
    requires s'.pushed == s.pushed
    requires s'.popped == s.popped + if s.threads[t].popAt.Count? then [s.threads[t].got] else []
    requires |s'.popped| <= |s'.pushed|
    requires s.threads[t].popAt.Count? ==> |s.popped| < |s.pushed| && s.threads[t].got == s.pushed[|s.popped|]
    requires s.threads[t].popAt.ReadSize? ==> HeaderReads(r, s)
    ensures BoundedFifo.Step(Abstract(r, s), EventOf(r, s, Advance(t)), Abstract(r, s'))
  {
  }

  lemma PushRefines(r: Ring, s: State, t: nat)
    requires Inv(r, s) && CanMove(r, s, Advance(t)) && s.threads[t].Push?
    ensures |AdvancePush(r, s, t).popped| <= |AdvancePush(r, s, t).pushed|
    ensures BoundedFifo.Step(Abstract(r, s), EventOf(r, s, Advance(t)), Abstract(r, AdvancePush(r, s, t)))
  {
    PushHistory(r, s, t);
    PushEvent(r, s, AdvancePush(r, s, t), t);
  }

  lemma PopRefines(r: Ring, s: State, t: nat)
    requires Inv(r, s) && CanMove(r, s, Advance(t)) && s.threads[t].Pop?
    ensures |AdvancePop(r, s, t).popped| <= |AdvancePop(r, s, t).pushed|
    ensures BoundedFifo.Step(Abstract(r, s), EventOf(r, s, Advance(t)), Abstract(r, AdvancePop(r, s, t)))
  {
    PopHistory(r, s, t);
    PopEvent(r, s, AdvancePop(r, s, t), t);
  }

  /** Each move is a step of the bounded list, with the event it shows. */
  lemma MoveRefines(r: Ring, s: State, m: Move)
    requires Inv(r, s) && CanMove(r, s, m)
    ensures Inv(r, Apply(r, s, m))
    ensures BoundedFifo.Step(Abstract(r, s), EventOf(r, s, m), Abstract(r, Apply(r, s, m)))
  {
    MoveKeepsInv(r, s, m);
    if m.Advance? {
      if s.threads[m.t].Push? {
        PushRefines(r, s, m.t);
      } else {
        PopRefines(r, s, m.t);
      }
    }
  }

  /** The events shown by the first `n` moves of a run. */
  function Events(r: Ring, moves: seq<Move>, states: seq<State>, n: nat): (es: seq<BoundedFifo.Event>)
    requires IsRun(r, moves, states) && n <= |moves|
    ensures |es| == n
  {
    if n == 0 then []
    else
      assert Leads(r, moves, states, n - 1);
      Events(r, moves, states, n - 1) + [EventOf(r, states[n - 1], moves[n - 1])]
  }

  lemma RunRefinesOn(r: Ring, s: State, m: Move, es: seq<BoundedFifo.Event>)
    requires Inv(r, s) && CanMove(r, s, m)
    requires BoundedFifo.Run(BoundedFifo.Fifo(r.max, []), es, Abstract(r, s))
    ensures Inv(r, Apply(r, s, m))
    ensures BoundedFifo.Run(BoundedFifo.Fifo(r.max, []), es + [EventOf(r, s, m)], Abstract(r, Apply(r, s, m)))
  {
    MoveRefines(r, s, m);
    BoundedFifo.RunOn(BoundedFifo.Fifo(r.max, []), es, Abstract(r, s), EventOf(r, s, m), Abstract(r, Apply(r, s, m)));
  }

  lemma {:induction false} RunRefines(r: Ring, moves: seq<Move>, states: seq<State>, n: nat)
    requires IsRun(r, moves, states) && Initial(r, states[0]) && n <= |moves|
    ensures Inv(r, states[n])
    ensures BoundedFifo.Run(BoundedFifo.Fifo(r.max, []), Events(r, moves, states, n), Abstract(r, states[n]))
  {
    RunKeepsInv(r, moves, states, n);
    if n == 0 {
    } else {
      RunRefines(r, moves, states, n - 1);
      assert Leads(r, moves, states, n - 1);
      RunRefinesOn(r, states[n - 1], moves[n - 1], Events(r, moves, states, n - 1));
    }
  }

  /** For any number of threads and any interleaving: what has been popped is, in order
      and byte for byte, the beginning of what has been pushed; `cur_size` is the
      difference, never above `max_size`; and no access ever left the buffer. */
  lemma RunSafety(r: Ring, moves: seq<Move>, states: seq<State>, n: nat)
    requires IsRun(r, moves, states) && Initial(r, states[0]) && n <= |moves|
    ensures var s, es := states[n], Events(r, moves, states, n);
            && BoundedFifo.Left(es) <= BoundedFifo.Entered(es)
            && s.cur == |BoundedFifo.Entered(es)| - |BoundedFifo.Left(es)| <= r.max
            && !s.fault
  {
    RunRefines(r, moves, states, n);
    BoundedFifo.RunConserves(r.max, Events(r, moves, states, n), Abstract(r, states[n]));
  }

  // ---- Copies under different locks never meet --------------------------------------

  predicate WritesSlot(th: Thread) {
    th.Push? && th.pushAt.Fill?
  }

  predicate ReadsSlot(th: Thread) {
    th.Pop? && (th.popAt.ReadSize? || th.popAt.Drain?)
  }

  /** A producer inside its copy and a consumer inside its copy, with no common lock,
      work on disjoint slots, both inside the buffer. */
  lemma CopiesDisjoint(r: Ring, s: State, p: nat, c: nat)
    requires Inv(r, s) && p < |s.threads| && c < |s.threads|
    requires WritesSlot(s.threads[p]) && ReadsSlot(s.threads[c])
    ensures s.tail + r.Stride() <= s.head || s.head + r.Stride() <= s.tail
    ensures r.base <= s.tail && s.tail + r.Stride() <= r.End()
    ensures r.base <= s.head && s.head + r.Stride() <= r.End()
  {
    assert Holder(s, s.tailMx) == s.threads[p];
    assert Holder(s, s.headMx) == s.threads[c];
    SlotsApart(r, |s.popped|, |s.pushed|);
    SlotBounds(r, |s.popped|);
    SlotBounds(r, |s.pushed|);
  }

  /** In every state of every run, at most one thread is inside each of the three locked sections. */
  lemma MutexesExclude(r: Ring, moves: seq<Move>, states: seq<State>, i: nat, a: nat, b: nat)
    requires IsRun(r, moves, states) && Initial(r, states[0]) && i < |states|
    requires a < |states[i].threads| && b < |states[i].threads|
    ensures var threads := states[i].threads;
            && (HasTail(threads[a]) && HasTail(threads[b]) ==> a == b)
            && (HasHead(threads[a]) && HasHead(threads[b]) ==> a == b)
            && (HasSize(threads[a]) && HasSize(threads[b]) ==> a == b)
  {
    RunKeepsInv(r, moves, states, i);
  }

  // ---- Waiting ---------------------------------------------------------------------

  /** No lost wakeup: with size_mutex free, a waiter's condition still fails. */
  lemma NoLostWakeup(r: Ring, s: State, t: nat)
    requires Inv(r, s) && s.sizeMx.None? && t < |s.threads| && IsWaiting(s.threads[t])
    ensures s.threads[t].Push? ==> s.cur == r.max
    ensures s.threads[t].Pop? ==> s.cur == 0
  {
    assert WaitAs(r, s, s.threads[t]);
  }

  /** No thread inside a call can take its next step; only new calls and spurious wakeups remain. */
  predicate Stuck(r: Ring, s: State) {
    forall t :: 0 <= t < |s.threads| ==> !CanMove(r, s, Advance(t))
  }

  lemma StuckMutexes(r: Ring, s: State)
    requires Inv(r, s) && Stuck(r, s)
    ensures s.sizeMx.None?
    ensures s.tailMx.Some? ==> IsWaiting(Holder(s, s.tailMx)) && Holder(s, s.tailMx).Push?
    ensures s.headMx.Some? ==> IsWaiting(Holder(s, s.headMx)) && Holder(s, s.headMx).Pop?
  {
    if s.sizeMx.Some? {
      var o := s.sizeMx.value;
      assert HasSize(s.threads[o]);
      assert !CanMove(r, s, Advance(o));
    }
    if s.tailMx.Some? {
      var o := s.tailMx.value;
      assert HasTail(s.threads[o]);
      assert !CanMove(r, s, Advance(o));
    }
    if s.headMx.Some? {
      var o := s.headMx.value;
      assert HasHead(s.threads[o]);
      assert !CanMove(r, s, Advance(o));
    }
  }

  /** No deadlock: when nothing can move, a producer still inside means the queue is full,
      a consumer still inside means it is empty, and with room for one element both cannot be. */
  lemma StuckMeansFullOrEmpty(r: Ring, s: State, t: nat)
    requires Inv(r, s) && Stuck(r, s) && t < |s.threads|
    ensures s.threads[t].Push? ==> s.cur == r.max
    ensures s.threads[t].Pop? ==> s.cur == 0
    ensures r.max > 0 && s.threads[t].Push? ==>
      forall u :: 0 <= u < |s.threads| ==> !s.threads[u].Pop?
  {
    StuckMutexes(r, s);
    forall u | 0 <= u < |s.threads|
      ensures s.threads[u].Push? ==> s.cur == r.max
      ensures s.threads[u].Pop? ==> s.cur == 0
    {
      assert !CanMove(r, s, Advance(u));
      if s.threads[u].Push? {
        assert s.tailMx.Some?;
        assert WaitAs(r, s, Holder(s, s.tailMx));
      }
      if s.threads[u].Pop? {
        assert s.headMx.Some?;
        assert WaitAs(r, s, Holder(s, s.headMx));
      }
    }
  }
}
