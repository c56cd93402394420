/**
 The inductive invariant of the shared queue, and the proof that every move of
 every thread keeps it.
 */
module QueueInvariant {
  import opened Bytes
  import opened Options
  import opened RingLayout
  import opened QueueMachine

  // ---- Who holds which mutex -------------------------------------------------------

  predicate HasTail(th: Thread) {
    th.Push? && !th.pushAt.AskTail?
  }

  predicate HasHead(th: Thread) {
    th.Pop? && !th.popAt.AskHead?
  }

  predicate HasSize(th: Thread) {
    match th
    case Idle => false
    case Push(_, _, at) =>
      at.Test? || at.QuitSize? || at.LeaveSize? || at.Count? || at.Wake? || at.LeaveCount?
    case Pop(_, _, at, _) =>
      at.Test? || at.QuitSize? || at.LeaveSize? || at.Count? || at.Wake? || at.LeaveCount?
  }

  /** A mutex is held by exactly the threads whose program counter says so: at most one. */
  predicate Owners(s: State) {
    && (forall t :: 0 <= t < |s.threads| ==> (HasTail(s.threads[t]) <==> s.tailMx == Some(t)))
    && (forall t :: 0 <= t < |s.threads| ==> (HasHead(s.threads[t]) <==> s.headMx == Some(t)))
    && (forall t :: 0 <= t < |s.threads| ==> (HasSize(s.threads[t]) <==> s.sizeMx == Some(t)))
    && (s.tailMx.Some? ==> s.tailMx.value < |s.threads|)
    && (s.headMx.Some? ==> s.headMx.value < |s.threads|)
    && (s.sizeMx.Some? ==> s.sizeMx.value < |s.threads|)
  }

  // ---- The data and the two ends ---------------------------------------------------

  predicate Core(r: Ring, s: State) {
    && r.dataMax < SIZE_T_LIMIT
    && r.End() <= |s.mem|
    && !s.fault
    && |s.popped| <= |s.pushed|
    && s.popped == s.pushed[..|s.popped|]
    && s.cur == |s.pushed| - |s.popped| <= r.max
    && Stored(r, s.mem, s.pushed, |s.popped|)
  }

  /** What the holder of tail_mutex has established, program point by program point. */
  predicate TailAs(r: Ring, s: State, th: Thread) {
    var slot := r.Slot(|s.pushed|);
    if !HasTail(th) then r.TailAt(s.tail, |s.pushed|)
    else
      match th.pushAt
      case LeaveSize => s.cur < r.max && r.TailAt(s.tail, |s.pushed|)
      case Wrap => s.cur < r.max && r.TailAt(s.tail, |s.pushed|)
      case Fill(k) =>
        && s.cur < r.max && s.tail == slot && slot + r.Stride() <= r.End() <= |s.mem|
        && k <= |Frame(th.data)| && |th.data| <= r.dataMax
        && s.mem[slot..slot + k] == Frame(th.data)[..k]
      case AskCount => s.cur < r.max && s.tail == slot + r.Stride() && Holds(r, s.mem, |s.pushed|, th.data)
      case Count => s.cur < r.max && s.tail == slot + r.Stride() && Holds(r, s.mem, |s.pushed|, th.data)
      case _ => r.TailAt(s.tail, |s.pushed|)
  }

  /** What the holder of head_mutex has established, program point by program point. */
  predicate HeadAs(r: Ring, s: State, th: Thread)
    requires |s.popped| <= |s.pushed| && s.cur == |s.pushed| - |s.popped|
  {
    var c := |s.popped|;
    if !HasHead(th) then s.head == r.Slot(c)
    else
      match th.popAt
      case LeaveSize => s.cur > 0 && s.head == r.Slot(c)
      case ReadSize => s.cur > 0 && s.head == r.Slot(c)
      case Drain(size) =>
        && s.cur > 0 && s.head == r.Slot(c)
        && size == |s.pushed[c]| <= th.room
        && |th.got| <= size && th.got == s.pushed[c][..|th.got|]
      case AskCount => s.cur > 0 && s.head == r.Slot(c + 1) && th.got == s.pushed[c]
      case Count => s.cur > 0 && s.head == r.Slot(c + 1) && th.got == s.pushed[c]
      case _ => s.head == r.Slot(c)
  }

  function Holder(s: State, mx: Option<nat>): Thread {
    if mx.Some? && mx.value < |s.threads| then s.threads[mx.value] else Idle
  }

  predicate Ends(r: Ring, s: State)
    requires |s.popped| <= |s.pushed| && s.cur == |s.pushed| - |s.popped|
  {
    TailAs(r, s, Holder(s, s.tailMx)) && HeadAs(r, s, Holder(s, s.headMx))
  }

  // ---- Waiting and parameters ------------------------------------------------------

  /** A waiter's condition really fails, unless the one who changed it is about to broadcast. */
  predicate WaitAs(r: Ring, s: State, th: Thread) {
    && (th.Push? && th.pushAt.Waiting? ==>
      th.wait && (s.cur == r.max || (Holder(s, s.sizeMx).Pop? && Holder(s, s.sizeMx).popAt.Wake?)))
    && (th.Pop? && th.popAt.Waiting? ==>
      th.wait && (s.cur == 0 || (Holder(s, s.sizeMx).Push? && Holder(s, s.sizeMx).pushAt.Wake?)))
    && (th.Push? ==> r.Fits(th.data))
  }

  predicate Waits(r: Ring, s: State) {
    forall t :: 0 <= t < |s.threads| ==> WaitAs(r, s, s.threads[t])
  }

  predicate Inv(r: Ring, s: State) {
    Core(r, s) && Owners(s) && Ends(r, s) && Waits(r, s)
  }

  lemma InitialInv(r: Ring, s: State)
    requires Initial(r, s)
    ensures Inv(r, s)
  {
  }

  // ---- How a move changes threads and mutexes --------------------------------------

  /** Other threads stay where they are, except that waiters may be woken. */
  predicate OthersStay(s: State, s': State, t: nat) {
    && |s'.threads| == |s.threads|
    && forall i :: 0 <= i < |s.threads| && i != t ==>
      s'.threads[i] == s.threads[i] || (IsWaiting(s.threads[i]) && s'.threads[i] == Woken(s.threads[i]))
  }

  /** A mutex is taken only when free, dropped only by its holder, and otherwise left alone. */
  predicate MutexMoved(had: bool, has: bool, mx: Option<nat>, mx': Option<nat>, t: nat) {
    if had == has then mx' == mx
    else if has then mx.None? && mx' == Some(t)
    else mx'.None?
  }

  predicate MutexesMoved(s: State, s': State, t: nat)
    requires t < |s.threads| == |s'.threads|
  {
    && MutexMoved(HasTail(s.threads[t]), HasTail(s'.threads[t]), s.tailMx, s'.tailMx, t)
    && MutexMoved(HasHead(s.threads[t]), HasHead(s'.threads[t]), s.headMx, s'.headMx, t)
    && MutexMoved(HasSize(s.threads[t]), HasSize(s'.threads[t]), s.sizeMx, s'.sizeMx, t)
  }

  predicate Shape(s: State, s': State, t: nat)
    requires t < |s.threads|
  {
    OthersStay(s, s', t) && MutexesMoved(s, s', t)
  }

  lemma ShapeKeepsOwners(s: State, s': State, t: nat)
    requires t < |s.threads| && Owners(s) && Shape(s, s', t)
    ensures Owners(s')
  {
  }

  lemma PushOthers(r: Ring, s: State, t: nat)
    requires CanMove(r, s, Advance(t)) && s.threads[t].Push?
    ensures OthersStay(s, AdvancePush(r, s, t), t)
  {
    match s.threads[t].pushAt {
      case AskTail =>
      case AskSize =>
      case Test =>
      case Waiting =>
      case Retake =>
      case QuitSize =>
      case QuitTail =>
      case LeaveSize =>
      case Wrap =>
      case Fill(k) =>
      case AskCount =>
      case Count =>
      case Wake =>
      case LeaveCount =>
      case LeaveTail =>
    }
  }

  lemma PushMutexes(r: Ring, s: State, t: nat)
    requires CanMove(r, s, Advance(t)) && s.threads[t].Push? && |AdvancePush(r, s, t).threads| == |s.threads|
    ensures MutexesMoved(s, AdvancePush(r, s, t), t)
  {
    match s.threads[t].pushAt {
      case AskTail =>
      case AskSize =>
      case Test =>
      case Waiting =>
      case Retake =>
      case QuitSize =>
      case QuitTail =>
      case LeaveSize =>
      case Wrap =>
      case Fill(k) =>
      case AskCount =>
      case Count =>
      case Wake =>
      case LeaveCount =>
      case LeaveTail =>
    }
  }

  lemma PushShape(r: Ring, s: State, t: nat)
    requires CanMove(r, s, Advance(t)) && s.threads[t].Push?
    ensures Shape(s, AdvancePush(r, s, t), t)
  {
    PushOthers(r, s, t);
    PushMutexes(r, s, t);
  }

  lemma PopOthers(r: Ring, s: State, t: nat)
    requires CanMove(r, s, Advance(t)) && s.threads[t].Pop?
    ensures OthersStay(s, AdvancePop(r, s, t), t)
  {
    match s.threads[t].popAt {
      case AskHead =>
      case AskSize =>
      case Test =>
      case Waiting =>
      case Retake =>
      case QuitSize =>
      case QuitHead =>
      case LeaveSize =>
      case ReadSize =>
      case Drain(size) =>
      case AskCount =>
      case Count =>
      case Wake =>
      case LeaveCount =>
      case LeaveHead =>
    }
  }

  lemma PopMutexes(r: Ring, s: State, t: nat)
    requires CanMove(r, s, Advance(t)) && s.threads[t].Pop? && |AdvancePop(r, s, t).threads| == |s.threads|
    ensures MutexesMoved(s, AdvancePop(r, s, t), t)
  {
    match s.threads[t].popAt {
      case AskHead =>
      case AskSize =>
      case Test =>
      case Waiting =>
      case Retake =>
      case QuitSize =>
      case QuitHead =>
      case LeaveSize =>
      case ReadSize =>
      case Drain(size) =>
      case AskCount =>
      case Count =>
      case Wake =>
      case LeaveCount =>
      case LeaveHead =>
    }
  }

  lemma PopShape(r: Ring, s: State, t: nat)
    requires CanMove(r, s, Advance(t)) && s.threads[t].Pop?
    ensures Shape(s, AdvancePop(r, s, t), t)
  {
    PopOthers(r, s, t);
    PopMutexes(r, s, t);
  }

  // ---- The data under a move -------------------------------------------------------

  /** A push leaves the consumers' end alone. */
  lemma HeadUntouched(r: Ring, s: State, s': State, t: nat)
    requires Inv(r, s) && t < |s.threads| && s.threads[t].Push? && OthersStay(s, s', t)
    requires s'.threads[t].Push? || s'.threads[t].Idle?
    requires s'.headMx == s.headMx && s'.head == s.head && s'.popped == s.popped
    requires s.pushed <= s'.pushed && s'.cur == |s'.pushed| - |s'.popped|
    ensures |s'.popped| <= |s'.pushed| && HeadAs(r, s', Holder(s', s'.headMx))
  {
    assert |s.pushed| <= |s'.pushed|;
    assert forall i :: 0 <= i < |s.pushed| ==> s'.pushed[i] == s.pushed[i];
  }

  /** A pop leaves the producers' end alone. */
  lemma TailUntouched(r: Ring, s: State, s': State, t: nat)
    requires Inv(r, s) && t < |s.threads| && s.threads[t].Pop? && OthersStay(s, s', t)
    requires s'.threads[t].Pop? || s'.threads[t].Idle?
    requires s'.tailMx == s.tailMx && s'.tail == s.tail && s'.pushed == s.pushed && s'.mem == s.mem
    requires s'.cur <= s.cur
    ensures TailAs(r, s', Holder(s', s'.tailMx))
  {
  }

  /** Storing one more byte of the frame. */
  lemma FillByte(r: Ring, s: State, t: nat)
    requires Inv(r, s) && CanMove(r, s, Advance(t)) && s.threads[t].Push?
    requires s.threads[t].pushAt.Fill? && s.threads[t].pushAt.done < |Frame(s.threads[t].data)|
    ensures Core(r, AdvancePush(r, s, t)) && Ends(r, AdvancePush(r, s, t))
  {
    var s' := AdvancePush(r, s, t);
    var th, k, slot := s.threads[t], s.threads[t].pushAt.done, r.Slot(|s.pushed|);
    assert Holder(s, s.tailMx) == th;
    SlotBounds(r, |s.pushed|);
    assert s'.mem == s.mem[slot + k := Frame(th.data)[k]];
    StoredFrame(r, s.mem, s'.mem, s.pushed, |s.popped|, |s.pushed|);
    assert s'.mem[slot..slot + (k + 1)] == s.mem[slot..slot + k] + [Frame(th.data)[k]];
    assert Frame(th.data)[..k + 1] == Frame(th.data)[..k] + [Frame(th.data)[k]];
    HeadUntouched(r, s, s', t);
  }

  /** The whole frame is in place and the tail moves on. */
  lemma FillDone(r: Ring, s: State, t: nat)
    requires Inv(r, s) && CanMove(r, s, Advance(t)) && s.threads[t].Push?
    requires s.threads[t].pushAt.Fill? && s.threads[t].pushAt.done >= |Frame(s.threads[t].data)|
    ensures Core(r, AdvancePush(r, s, t)) && Ends(r, AdvancePush(r, s, t))
  {
    var s' := AdvancePush(r, s, t);
    var th, slot := s.threads[t], r.Slot(|s.pushed|);
    assert Holder(s, s.tailMx) == th;
    assert WaitAs(r, s, th);
    assert Frame(th.data)[..|Frame(th.data)|] == Frame(th.data);
    HeadUntouched(r, s, s', t);
  }

  /** The count goes up: the element becomes part of the queue. */
  lemma PushCounted(r: Ring, s: State, t: nat)
    requires Inv(r, s) && CanMove(r, s, Advance(t)) && s.threads[t].Push? && s.threads[t].pushAt.Count?
    ensures Core(r, AdvancePush(r, s, t)) && Ends(r, AdvancePush(r, s, t))
  {
    var s' := AdvancePush(r, s, t);
    var th := s.threads[t];
    assert Holder(s, s.tailMx) == th;
    SlotNext(r, |s.pushed|);
    HeadUntouched(r, s, s', t);
    forall i | |s'.popped| <= i < |s'.pushed| ensures Holds(r, s'.mem, i, s'.pushed[i]) {
      assert i < |s.pushed| ==> Holds(r, s.mem, i, s.pushed[i]);
    }
  }

  /** The remaining moves of a push change neither bytes nor counts. */
  lemma PushQuiet(r: Ring, s: State, t: nat)
    requires Inv(r, s) && CanMove(r, s, Advance(t)) && s.threads[t].Push?
    requires !s.threads[t].pushAt.Fill? && !s.threads[t].pushAt.Count?
    ensures var s' := AdvancePush(r, s, t);
            && s'.mem == s.mem && s'.head == s.head && s'.cur == s.cur && s'.headMx == s.headMx
            && s'.pushed == s.pushed && s'.popped == s.popped && s'.fault == s.fault
            && (s.threads[t].pushAt.Wrap? || s'.tail == s.tail)
            && (s'.threads[t].Push? || s'.threads[t].Idle?)
  {
    match s.threads[t].pushAt {
      case AskTail =>
      case AskSize =>
      case Test =>
      case Retake =>
      case QuitSize =>
      case QuitTail =>
      case LeaveSize =>
      case Wrap =>
      case AskCount =>
      case Wake =>
      case LeaveCount =>
      case LeaveTail =>
    }
  }

  lemma PushQuietTail(r: Ring, s: State, t: nat)
    requires Inv(r, s) && CanMove(r, s, Advance(t)) && s.threads[t].Push?
    requires !s.threads[t].pushAt.Fill? && !s.threads[t].pushAt.Count?
    ensures TailAs(r, AdvancePush(r, s, t), Holder(AdvancePush(r, s, t), AdvancePush(r, s, t).tailMx))
  {
    assert s.tailMx == Some(t) ==> Holder(s, s.tailMx) == s.threads[t];
    match s.threads[t].pushAt {
      case AskTail =>
      case AskSize =>
      case Test =>
      case Retake =>
      case QuitSize =>
      case QuitTail =>
      case LeaveSize =>
      case Wrap => SlotBounds(r, |s.pushed|);
      case AskCount =>
      case Wake =>
      case LeaveCount =>
      case LeaveTail =>
    }
  }

  lemma PushEnds(r: Ring, s: State, t: nat)
    requires Inv(r, s) && CanMove(r, s, Advance(t)) && s.threads[t].Push?
    ensures Core(r, AdvancePush(r, s, t)) && Ends(r, AdvancePush(r, s, t))
  {
    var at := s.threads[t].pushAt;
    if at.Fill? && at.done < |Frame(s.threads[t].data)| {
      FillByte(r, s, t);
    } else if at.Fill? {
      FillDone(r, s, t);
    } else if at.Count? {
      PushCounted(r, s, t);
    } else {
      PushQuiet(r, s, t);
      PushQuietTail(r, s, t);
      PushShape(r, s, t);
      HeadUntouched(r, s, AdvancePush(r, s, t), t);
    }
  }

  /** Loading the size header: what is read is the length of the front element. */
  lemma ReadHeader(r: Ring, s: State, t: nat)
    requires Inv(r, s) && CanMove(r, s, Advance(t)) && s.threads[t].Pop? && s.threads[t].popAt.ReadSize?
    ensures Core(r, AdvancePop(r, s, t)) && Ends(r, AdvancePop(r, s, t))
    ensures InBuffer(r, s, s.head, SIZE_T_BYTES) && |s.popped| < |s.pushed|
    ensures DecodeLE(s.mem[s.head..s.head + SIZE_T_BYTES]) == |s.pushed[|s.popped|]|
  {
    var s', c := AdvancePop(r, s, t), |s.popped|;
    assert Holder(s, s.headMx) == s.threads[t];
    SlotBounds(r, c);
    assert Holds(r, s.mem, c, s.pushed[c]);
    HeldElement(r, s.mem, c, s.pushed[c]);
    TailUntouched(r, s, s', t);
  }

  /** The byte at offset `i` of a stored element's data. */
  lemma HeldByte(r: Ring, mem: Bytes, c: nat, data: Bytes, i: nat)
    requires Holds(r, mem, c, data) && i < |data|
    ensures r.Slot(c) + SIZE_T_BYTES + i < |mem| && mem[r.Slot(c) + SIZE_T_BYTES + i] == data[i]
  {
    HeldElement(r, mem, c, data);
    var a := r.Slot(c) + SIZE_T_BYTES;
    assert mem[a..a + |data|][i] == mem[a + i];
  }

  /** Loading one more byte of the front element. */
  lemma DrainByte(r: Ring, s: State, t: nat)
    requires Inv(r, s) && CanMove(r, s, Advance(t)) && s.threads[t].Pop? && s.threads[t].popAt.Drain?
    requires |s.threads[t].got| < s.threads[t].popAt.size
    ensures Core(r, AdvancePop(r, s, t)) && Ends(r, AdvancePop(r, s, t))
  {
    var s', c, th := AdvancePop(r, s, t), |s.popped|, s.threads[t];
    assert Holder(s, s.headMx) == th;
    SlotBounds(r, c);
    assert Holds(r, s.mem, c, s.pushed[c]);
    HeldByte(r, s.mem, c, s.pushed[c], |th.got|);
    assert s.pushed[c][..|th.got| + 1] == s.pushed[c][..|th.got|] + [s.pushed[c][|th.got|]];
    TailUntouched(r, s, s', t);
  }

  /** The whole element has been loaded and the head moves on, round the end of the buffer. */
  lemma DrainDone(r: Ring, s: State, t: nat)
    requires Inv(r, s) && CanMove(r, s, Advance(t)) && s.threads[t].Pop? && s.threads[t].popAt.Drain?
    requires |s.threads[t].got| >= s.threads[t].popAt.size
    ensures Core(r, AdvancePop(r, s, t)) && Ends(r, AdvancePop(r, s, t))
  {
    var s', c, th := AdvancePop(r, s, t), |s.popped|, s.threads[t];
    assert Holder(s, s.headMx) == th;
    SlotNext(r, c);
    assert th.got == s.pushed[c];
    TailUntouched(r, s, s', t);
  }

  /** The count goes down: the element has left the queue, and it was the front one. */
  lemma PopCounted(r: Ring, s: State, t: nat)
    requires Inv(r, s) && CanMove(r, s, Advance(t)) && s.threads[t].Pop? && s.threads[t].popAt.Count?
    ensures Core(r, AdvancePop(r, s, t)) && Ends(r, AdvancePop(r, s, t))
    ensures |s.popped| < |s.pushed| && s.threads[t].got == s.pushed[|s.popped|]
  {
    var s' := AdvancePop(r, s, t);
    assert Holder(s, s.headMx) == s.threads[t];
    assert s'.popped == s.pushed[..|s'.popped|];
    TailUntouched(r, s, s', t);
  }

  /** The remaining moves of a pop change neither bytes nor counts. */
  lemma PopQuiet(r: Ring, s: State, t: nat)
    requires Inv(r, s) && CanMove(r, s, Advance(t)) && s.threads[t].Pop?
    requires !s.threads[t].popAt.ReadSize? && !s.threads[t].popAt.Drain? && !s.threads[t].popAt.Count?
    ensures var s' := AdvancePop(r, s, t);
            && s'.mem == s.mem && s'.tail == s.tail && s'.cur == s.cur && s'.tailMx == s.tailMx
            && s'.pushed == s.pushed && s'.popped == s.popped && s'.fault == s.fault && s'.head == s.head
            && (s'.threads[t].Pop? || s'.threads[t].Idle?)
  {
    match s.threads[t].popAt {
      case AskHead =>
      case AskSize =>
      case Test =>
      case Retake =>
      case QuitSize =>
      case QuitHead =>
      case LeaveSize =>
      case AskCount =>
      case Wake =>
      case LeaveCount =>
      case LeaveHead =>
    }
  }

  lemma PopQuietHead(r: Ring, s: State, t: nat)
    requires Inv(r, s) && CanMove(r, s, Advance(t)) && s.threads[t].Pop?
    requires !s.threads[t].popAt.ReadSize? && !s.threads[t].popAt.Drain? && !s.threads[t].popAt.Count?
    ensures Core(r, AdvancePop(r, s, t))
    ensures HeadAs(r, AdvancePop(r, s, t), Holder(AdvancePop(r, s, t), AdvancePop(r, s, t).headMx))
  {
    PopQuiet(r, s, t);
    assert s.headMx == Some(t) ==> Holder(s, s.headMx) == s.threads[t];
    match s.threads[t].popAt {
      case AskHead =>
      case AskSize =>
      case Test =>
      case Retake =>
      case QuitSize =>
      case QuitHead =>
      case LeaveSize =>
      case AskCount =>
      case Wake =>
      case LeaveCount =>
      case LeaveHead =>
    }
  }

  lemma PopEnds(r: Ring, s: State, t: nat)
    requires Inv(r, s) && CanMove(r, s, Advance(t)) && s.threads[t].Pop?
    ensures Core(r, AdvancePop(r, s, t)) && Ends(r, AdvancePop(r, s, t))
  {
    var at := s.threads[t].popAt;
    if at.ReadSize? {
      ReadHeader(r, s, t);
    } else if at.Drain? {
      if |s.threads[t].got| < at.size {
        DrainByte(r, s, t);
      } else {
        DrainDone(r, s, t);
      }
    } else if at.Count? {
      PopCounted(r, s, t);
    } else {
      PopQuiet(r, s, t);
      PopQuietHead(r, s, t);
      PopShape(r, s, t);
      TailUntouched(r, s, AdvancePop(r, s, t), t);
    }
  }

  // ---- Waiting under a move --------------------------------------------------------

  /** Changing the count, or telling the others that it changed. */
  lemma PushWaitsLoud(r: Ring, s: State, t: nat)
    requires Inv(r, s) && CanMove(r, s, Advance(t)) && s.threads[t].Push?
    requires s.threads[t].pushAt.Count? || s.threads[t].pushAt.Wake?
    ensures Waits(r, AdvancePush(r, s, t))
  {
    PushShape(r, s, t);
  }

  predicate AtWake(th: Thread) {
    (th.Push? && th.pushAt.Wake?) || (th.Pop? && th.popAt.Wake?)
  }

  /** A move that neither changes the count nor wakes anybody leaves the waiters' reasons alone. */
  lemma QuietWaits(r: Ring, s: State, s': State, t: nat)
    requires t < |s.threads| == |s'.threads| && Waits(r, s) && Owners(s) && s'.cur == s.cur
    requires forall i :: 0 <= i < |s.threads| && i != t ==> s'.threads[i] == s.threads[i]
    requires MutexMoved(HasSize(s.threads[t]), HasSize(s'.threads[t]), s.sizeMx, s'.sizeMx, t)
    requires !AtWake(s.threads[t]) && WaitAs(r, s', s'.threads[t])
    ensures Waits(r, s')
  {
    forall i | 0 <= i < |s.threads| && i != t ensures WaitAs(r, s', s'.threads[i]) {
      assert WaitAs(r, s, s.threads[i]);
      if AtWake(Holder(s, s.sizeMx)) {
        assert HasSize(s.threads[s.sizeMx.value]) && s.sizeMx.value != t;
      }
    }
  }

  lemma PushQuietSelf(r: Ring, s: State, t: nat)
    requires CanMove(r, s, Advance(t)) && s.threads[t].Push?
    requires !s.threads[t].pushAt.Count? && !s.threads[t].pushAt.Wake?
    ensures var s', th := AdvancePush(r, s, t), s.threads[t];
            && s'.threads == s.threads[t := s'.threads[t]] && s'.cur == s.cur
            && (s'.threads[t].Idle?
                || (s'.threads[t].Push? && s'.threads[t].data == th.data
                    && (s'.threads[t].pushAt.Waiting? ==> s'.threads[t].wait && s.cur == r.max)))
  {
    match s.threads[t].pushAt {
      case Test =>
      case Fill(k) =>
      case Wrap =>
      case QuitTail =>
      case LeaveTail =>
      case _ =>
    }
  }

  lemma PushWaitsQuiet(r: Ring, s: State, t: nat)
    requires Owners(s) && Waits(r, s) && CanMove(r, s, Advance(t)) && s.threads[t].Push?
    requires !s.threads[t].pushAt.Count? && !s.threads[t].pushAt.Wake?
    requires Shape(s, AdvancePush(r, s, t), t)
    ensures Waits(r, AdvancePush(r, s, t))
  {
    PushQuietSelf(r, s, t);
    assert WaitAs(r, s, s.threads[t]);
    QuietWaits(r, s, AdvancePush(r, s, t), t);
  }

  /** Changing the count, or telling the others that it changed. */
  lemma PopWaitsLoud(r: Ring, s: State, t: nat)
    requires Inv(r, s) && CanMove(r, s, Advance(t)) && s.threads[t].Pop?
    requires s.threads[t].popAt.Count? || s.threads[t].popAt.Wake?
    ensures Waits(r, AdvancePop(r, s, t))
  {
    PopShape(r, s, t);
  }

  lemma PopQuietSelf(r: Ring, s: State, t: nat)
    requires CanMove(r, s, Advance(t)) && s.threads[t].Pop?
    requires !s.threads[t].popAt.Count? && !s.threads[t].popAt.Wake?
    ensures var s' := AdvancePop(r, s, t);
            && s'.threads == s.threads[t := s'.threads[t]] && s'.cur == s.cur
            && (s'.threads[t].Idle?
                || (s'.threads[t].Pop? && (s'.threads[t].popAt.Waiting? ==> s'.threads[t].wait && s.cur == 0)))
  {
    match s.threads[t].popAt {
      case Test =>
      case ReadSize =>
      case Drain(size) =>
      case QuitHead =>
      case LeaveHead =>
      case _ =>
    }
  }

  lemma PopWaitsQuiet(r: Ring, s: State, t: nat)
    requires Owners(s) && Waits(r, s) && CanMove(r, s, Advance(t)) && s.threads[t].Pop?
    requires !s.threads[t].popAt.Count? && !s.threads[t].popAt.Wake?
    requires Shape(s, AdvancePop(r, s, t), t)
    ensures Waits(r, AdvancePop(r, s, t))
  {
    PopQuietSelf(r, s, t);
    assert WaitAs(r, s, s.threads[t]);
    QuietWaits(r, s, AdvancePop(r, s, t), t);
  }

  /** A thread that enters a call, or wakes for no reason. */
  predicate Enters(r: Ring, s: State, t: nat, th: Thread)
    requires t < |s.threads|
  {
    && (s.threads[t].Idle? || (th == Woken(s.threads[t]) && IsWaiting(s.threads[t])))
    && (s.threads[t].Idle? ==> (th.Push? && th.pushAt.AskTail?) || (th.Pop? && th.popAt.AskHead?))
    && (th.Push? ==> r.Fits(th.data))
  }

  lemma EntryKeepsOwners(r: Ring, s: State, t: nat, th: Thread)
    requires Inv(r, s) && t < |s.threads| && Enters(r, s, t, th)
    ensures Owners(Goto(s, t, th)) && Waits(r, Goto(s, t, th))
  {
    var s' := Goto(s, t, th);
    ShapeKeepsOwners(s, s', t);
    assert Holder(s', s'.sizeMx) == Holder(s, s.sizeMx);
  }

  lemma EntryKeepsEnds(r: Ring, s: State, t: nat, th: Thread)
    requires Inv(r, s) && t < |s.threads| && Enters(r, s, t, th)
    ensures Core(r, Goto(s, t, th)) && Ends(r, Goto(s, t, th))
  {
    var s' := Goto(s, t, th);
    if s.threads[t].Pop? {
      TailUntouched(r, s, s', t);
    } else if s.threads[t].Push? {
      HeadUntouched(r, s, s', t);
    }
  }

  /** Every move of every thread keeps the invariant. */
  lemma MoveKeepsInv(r: Ring, s: State, m: Move)
    requires Inv(r, s) && CanMove(r, s, m)
    ensures Inv(r, Apply(r, s, m))
  {
    if !m.Advance? {
      assert WaitAs(r, s, s.threads[m.t]);
      EntryKeepsOwners(r, s, m.t, Apply(r, s, m).threads[m.t]);
      EntryKeepsEnds(r, s, m.t, Apply(r, s, m).threads[m.t]);
    } else if s.threads[m.t].Push? {
      PushShape(r, s, m.t);
      ShapeKeepsOwners(s, AdvancePush(r, s, m.t), m.t);
      PushEnds(r, s, m.t);
      if s.threads[m.t].pushAt.Count? || s.threads[m.t].pushAt.Wake? {
        PushWaitsLoud(r, s, m.t);
      } else {
        PushWaitsQuiet(r, s, m.t);
      }
    } else {
      PopShape(r, s, m.t);
      ShapeKeepsOwners(s, AdvancePop(r, s, m.t), m.t);
      PopEnds(r, s, m.t);
      if s.threads[m.t].popAt.Count? || s.threads[m.t].popAt.Wake? {
        PopWaitsLoud(r, s, m.t);
      } else {
        PopWaitsQuiet(r, s, m.t);
      }
    }
  }

  /** The invariant holds in every state of every run. */
  lemma {:induction false} RunKeepsInv(r: Ring, moves: seq<Move>, states: seq<State>, i: nat)
    requires IsRun(r, moves, states) && Initial(r, states[0]) && i < |states|
    ensures Inv(r, states[i])
  {
    if i == 0 {
      InitialInv(r, states[0]);
    } else {
      RunKeepsInv(r, moves, states, i - 1);
      assert Leads(r, moves, states, i - 1);
      MoveKeepsInv(r, states[i - 1], moves[i - 1]);
    }
  }
}
