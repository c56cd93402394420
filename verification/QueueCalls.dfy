/**
 Every finished call explained: over any run, a call that has ended has shown exactly one
 event, which is its success or the reason why it gave up, and that event is true of the
 queue at that moment.
 */
module QueueCalls {
  import opened Bytes
  import opened RingLayout
  import opened QueueMachine
  import opened QueueInvariant
  import opened QueueTheorems
  import B = BoundedFifo

  /** Thread `t` begins a call with this move. */
  predicate Begins(m: Move, t: nat) {
    (m.BeginPush? || m.BeginPop?) && m.t == t
  }

  /** From move `k` to state `n`, thread `t` is inside the call that move `k` began. */
  predicate InCall(r: Ring, moves: seq<Move>, states: seq<State>, k: nat, n: nat, t: nat)
    requires IsRun(r, moves, states)
  {
    && k < n <= |moves| && Begins(moves[k], t)
    && forall i :: k < i < n ==> t < |states[i].threads| && !states[i].threads[t].Idle?
  }

  /** The events of a run, move by move. */
  ghost predicate AreEvents(r: Ring, moves: seq<Move>, states: seq<State>, es: seq<B.Event>)
    requires IsRun(r, moves, states)
  {
    |es| == |moves| && forall i: nat :: Leads(r, moves, states, i) ==> es[i] == EventOf(r, states[i], moves[i])
  }

  /** What thread `t` has shown from move `k` on, before move `n`, in order. */
  function Shown(es: seq<B.Event>, moves: seq<Move>, k: nat, n: nat, t: nat): seq<B.Event>
    requires k <= n <= |moves| == |es|
  {
    if n == k then []
    else Shown(es, moves, k, n - 1, t) + if moves[n - 1].t == t && es[n - 1] != B.Silent then [es[n - 1]] else []
  }

  /** The event settles the call that begins with this move. A call that may wait never gives up
      because the queue is full or empty. */
  predicate Settles(m: Move, e: B.Event) {
    match m
    case BeginPush(_, data, wait) => e == B.Enqueued(data) || (e == B.SeenFull && !wait)
    case BeginPop(_, room, wait) =>
      (e.Dequeued? && |e.data| <= room) || (e == B.SeenEmpty && !wait) || e == B.SeenTooLong(room)
    case _ => false
  }

  /** The thread carries the arguments of its call. */
  predicate Carries(m: Move, th: Thread) {
    match m
    case BeginPush(_, data, wait) => th.Push? && th.data == data && th.wait == wait
    case BeginPop(_, room, wait) => th.Pop? && th.room == room && th.wait == wait
    case _ => false
  }

  /** What a thread at this point of its call has shown. */
  predicate HasShown(th: Thread, shown: seq<B.Event>) {
    match th
    case Idle => |shown| == 1
    case Push(data, wait, at) =>
      if at.QuitSize? || at.QuitTail? then shown == [B.SeenFull] && !wait
      else if at.Wake? || at.LeaveCount? || at.LeaveTail? then shown == [B.Enqueued(data)]
      else shown == []
    case Pop(room, wait, at, got) =>
      if at.QuitSize? then shown == [B.SeenEmpty] && !wait
      else if at.QuitHead? then (shown == [B.SeenEmpty] && !wait) || shown == [B.SeenTooLong(room)]
      else if at.Wake? || at.LeaveCount? || at.LeaveHead? then shown == [B.Dequeued(got)] && |got| <= room
      else if at.AskCount? || at.Count? then shown == [] && |got| <= room
      else shown == []
  }

  /** What the invariant says about a consumer's room. */
  lemma GotFits(r: Ring, s: State, t: nat)
    requires Inv(r, s) && t < |s.threads| && s.threads[t].Pop? && s.threads[t].popAt.Drain?
    ensures |s.threads[t].got| <= s.threads[t].popAt.size <= s.threads[t].room
  {
    assert Holder(s, s.headMx) == s.threads[t];
  }

  /** What a thread shows by its next step. */
  function Next(r: Ring, s: State, t: nat, shown: seq<B.Event>): seq<B.Event>
    requires CanMove(r, s, Advance(t))
  {
    var e := EventOf(r, s, Advance(t));
    shown + if e != B.Silent then [e] else []
  }

  /** The call has been settled, or goes on. */
  predicate GoesRight(m: Move, th: Thread, shown: seq<B.Event>) {
    if th.Idle? then |shown| == 1 && Settles(m, shown[0]) else Carries(m, th) && HasShown(th, shown)
  }

  /** The steps of a push that show something, or end the call. */
  lemma PushTellingStep(r: Ring, s: State, t: nat, m: Move, shown: seq<B.Event>)
    requires CanMove(r, s, Advance(t)) && s.threads[t].Push?
    requires var at := s.threads[t].pushAt; at.Test? || at.Count? || at.QuitTail? || at.LeaveTail?
    requires Carries(m, s.threads[t]) && HasShown(s.threads[t], shown)
    ensures t < |AdvancePush(r, s, t).threads|
    ensures GoesRight(m, AdvancePush(r, s, t).threads[t], Next(r, s, t, shown))
  {
    match s.threads[t].pushAt {
      case Test =>
      case Count =>
      case _ =>
    }
  }

  lemma PushSilentStep(r: Ring, s: State, t: nat, m: Move, shown: seq<B.Event>)
    requires CanMove(r, s, Advance(t)) && s.threads[t].Push?
    requires var at := s.threads[t].pushAt; !at.Test? && !at.Count? && !at.QuitTail? && !at.LeaveTail?
    requires Carries(m, s.threads[t]) && HasShown(s.threads[t], shown)
    ensures t < |AdvancePush(r, s, t).threads|
    ensures GoesRight(m, AdvancePush(r, s, t).threads[t], Next(r, s, t, shown))
  {
    match s.threads[t].pushAt {
      case Wake =>
      case Fill(k) =>
      case _ =>
    }
  }

  /** The steps of a pop that read the buffer or change the count. */
  lemma PopDataStep(r: Ring, s: State, t: nat, m: Move, shown: seq<B.Event>)
    requires Inv(r, s) && CanMove(r, s, Advance(t)) && s.threads[t].Pop?
    requires s.threads[t].popAt.ReadSize? || s.threads[t].popAt.Drain? || s.threads[t].popAt.Count?
    requires Carries(m, s.threads[t]) && HasShown(s.threads[t], shown)
    ensures t < |AdvancePop(r, s, t).threads|
    ensures GoesRight(m, AdvancePop(r, s, t).threads[t], Next(r, s, t, shown))
  {
    match s.threads[t].popAt {
      case ReadSize => ReadHeader(r, s, t);
      case Drain(size) => GotFits(r, s, t);
      case Count => PopCounted(r, s, t);
    }
    if s.threads[t].popAt.Drain? && |s.threads[t].got| < s.threads[t].popAt.size {
      DrainByte(r, s, t);
    }
  }

  lemma PopControlStep(r: Ring, s: State, t: nat, m: Move, shown: seq<B.Event>)
    requires Inv(r, s) && CanMove(r, s, Advance(t)) && s.threads[t].Pop?
    requires !s.threads[t].popAt.ReadSize? && !s.threads[t].popAt.Drain? && !s.threads[t].popAt.Count?
    requires Carries(m, s.threads[t]) && HasShown(s.threads[t], shown)
    ensures t < |AdvancePop(r, s, t).threads|
    ensures GoesRight(m, AdvancePop(r, s, t).threads[t], Next(r, s, t, shown))
  {
    match s.threads[t].popAt {
      case Test =>
      case Wake =>
      case QuitHead =>
      case LeaveHead =>
      case _ =>
    }
  }

  lemma OwnStep(r: Ring, s: State, t: nat, m: Move, shown: seq<B.Event>)
    requires Inv(r, s) && CanMove(r, s, Advance(t))
    requires Carries(m, s.threads[t]) && HasShown(s.threads[t], shown)
    ensures t < |Apply(r, s, Advance(t)).threads|
    ensures GoesRight(m, Apply(r, s, Advance(t)).threads[t], Next(r, s, t, shown))
  {
    if s.threads[t].Push? {
      var at := s.threads[t].pushAt;
      if at.Test? || at.Count? || at.QuitTail? || at.LeaveTail? {
        PushTellingStep(r, s, t, m, shown);
      } else {
        PushSilentStep(r, s, t, m, shown);
      }
    } else if s.threads[t].popAt.ReadSize? || s.threads[t].popAt.Drain? || s.threads[t].popAt.Count? {
      PopDataStep(r, s, t, m, shown);
    } else {
      PopControlStep(r, s, t, m, shown);
    }
  }

  /** A step of another thread at most wakes this one. */
  lemma OtherStep(r: Ring, s: State, move: Move, t: nat, m: Move, shown: seq<B.Event>)
    requires Inv(r, s) && CanMove(r, s, move) && t < |s.threads| && !s.threads[t].Idle?
    requires move.t != t || move.Spurious?
    requires Carries(m, s.threads[t]) && HasShown(s.threads[t], shown)
    ensures t < |Apply(r, s, move).threads| && !Apply(r, s, move).threads[t].Idle?
    ensures GoesRight(m, Apply(r, s, move).threads[t], shown)
  {
    if move.Advance? {
      if s.threads[move.t].Push? {
        PushOthers(r, s, move.t);
      } else {
        PopOthers(r, s, move.t);
      }
    }
  }

  /** One move of a run, seen from a thread inside a call. */
  lemma MoveShows(r: Ring, s: State, move: Move, s': State, t: nat, m: Move, shown: seq<B.Event>, e: B.Event)
    requires Inv(r, s) && CanMove(r, s, move) && s' == Apply(r, s, move) && e == EventOf(r, s, move)
    requires t < |s.threads| && !s.threads[t].Idle? && Carries(m, s.threads[t]) && HasShown(s.threads[t], shown)
    ensures t < |s'.threads|
    ensures GoesRight(m, s'.threads[t], shown + if move.t == t && e != B.Silent then [e] else [])
  {
    if move.t == t && move.Advance? {
      OwnStep(r, s, t, m, shown);
    } else {
      OtherStep(r, s, move, t, m, shown);
    }
  }

  lemma BeginShows(r: Ring, s: State, move: Move, t: nat)
    requires CanMove(r, s, move) && Begins(move, t)
    ensures EventOf(r, s, move) == B.Silent
    ensures t < |Apply(r, s, move).threads| && GoesRight(move, Apply(r, s, move).threads[t], [])
  {
  }

  /** A move of a run. */
  lemma RunMove(r: Ring, moves: seq<Move>, states: seq<State>, es: seq<B.Event>, i: nat)
    requires IsRun(r, moves, states) && AreEvents(r, moves, states, es) && i < |moves|
    ensures CanMove(r, states[i], moves[i]) && states[i + 1] == Apply(r, states[i], moves[i])
    ensures es[i] == EventOf(r, states[i], moves[i])
  {
    assert Leads(r, moves, states, i);
  }

  /** Inside a call, what has been shown fits the point reached; when the call is over, exactly one
      event has been shown, and it settles the call. */
  lemma {:induction false} CallShows(r: Ring, moves: seq<Move>, states: seq<State>, es: seq<B.Event>,
                                     k: nat, n: nat, t: nat)
    requires IsRun(r, moves, states) && AreEvents(r, moves, states, es) && Initial(r, states[0])
    requires InCall(r, moves, states, k, n, t)
    ensures t < |states[n].threads|
    ensures GoesRight(moves[k], states[n].threads[t], Shown(es, moves, k, n, t))
  {
    var s, s', move, e := states[n - 1], states[n], moves[n - 1], es[n - 1];
    RunMove(r, moves, states, es, n - 1);
    if n == k + 1 {
      BeginShows(r, s, move, t);
      assert Shown(es, moves, k, k, t) == [];
    } else {
      CallShows(r, moves, states, es, k, n - 1, t);
      RunKeepsInv(r, moves, states, n - 1);
      MoveShows(r, s, move, s', t, moves[k], Shown(es, moves, k, n - 1, t), e);
    }
  }

  /** When the thread showed it. */
  lemma {:induction false} ShownAt(es: seq<B.Event>, moves: seq<Move>, k: nat, n: nat, t: nat) returns (i: nat)
    requires k <= n <= |moves| == |es| && |Shown(es, moves, k, n, t)| == 1
    ensures k <= i < n && moves[i].t == t && es[i] == Shown(es, moves, k, n, t)[0]
    decreases n
  {
    if Shown(es, moves, k, n - 1, t) == [] {
      i := n - 1;
    } else {
      i := ShownAt(es, moves, k, n - 1, t);
    }
  }

  /** The event is true of the queue in state `s`. */
  predicate TrueOf(r: Ring, s: State, e: B.Event) {
    match e
    case Silent => true
    case Enqueued(_) => s.cur < r.max
    case Dequeued(data) => s.cur > 0 && |s.popped| < |s.pushed| && data == s.pushed[|s.popped|]
    case SeenFull => s.cur == r.max
    case SeenEmpty => s.cur == 0
    case SeenTooLong(room) => s.cur > 0 && |s.popped| < |s.pushed| && room < |s.pushed[|s.popped|]|
  }

  /** A call that is over has shown one event, at a step of its own; it settles the call and was true of
      the queue then. So a push that may not wait gives up exactly because the queue was full, a pop
      because it was empty or the front element too long, a call that may wait for no other reason than
      that last one, and every other call has put its data in or taken the front element out. */
  lemma CallExplained(r: Ring, moves: seq<Move>, states: seq<State>, es: seq<B.Event>, k: nat, n: nat, t: nat)
    returns (i: nat)
    requires IsRun(r, moves, states) && AreEvents(r, moves, states, es) && Initial(r, states[0])
    requires InCall(r, moves, states, k, n, t) && t < |states[n].threads| && states[n].threads[t].Idle?
    ensures |Shown(es, moves, k, n, t)| == 1
    ensures k <= i < n && moves[i].t == t && es[i] == Shown(es, moves, k, n, t)[0]
    ensures Settles(moves[k], es[i]) && TrueOf(r, states[i], es[i])
  {
    CallShows(r, moves, states, es, k, n, t);
    i := ShownAt(es, moves, k, n, t);
    RunKeepsInv(r, moves, states, i);
    RunMove(r, moves, states, es, i);
    EventTrue(r, states[i], moves[i]);
  }

  lemma EventTrue(r: Ring, s: State, m: Move)
    requires Inv(r, s) && CanMove(r, s, m)
    ensures TrueOf(r, s, EventOf(r, s, m))
  {
    MoveRefines(r, s, m);
  }

  /** A waiter may wake for no reason, and then asks for the mutex and tests again. */
  lemma WaitersMayWake(r: Ring, s: State, t: nat)
    requires t < |s.threads| && IsWaiting(s.threads[t])
    ensures CanMove(r, s, Spurious(t))
    ensures var th := Apply(r, s, Spurious(t)).threads[t];
            if th.Push? then s.threads[t].Push? && th == s.threads[t].(pushAt := PushAt.Retake)
            else th.Pop? && s.threads[t].Pop? && th == s.threads[t].(popAt := PopAt.Retake)
  {
  }

  /** A thread outside can begin any call whose arguments pass the check, and is then inside it. */
  lemma CallsBegin(r: Ring, s: State, t: nat, data: Bytes, room: nat, wait: bool)
    requires t < |s.threads| && s.threads[t].Idle? && r.dataMax < SIZE_T_LIMIT
    ensures 0 < |data| <= r.dataMax ==>
              && CanMove(r, s, BeginPush(t, data, wait))
              && Carries(BeginPush(t, data, wait), Apply(r, s, BeginPush(t, data, wait)).threads[t])
    ensures CanMove(r, s, BeginPop(t, room, wait))
    ensures Carries(BeginPop(t, room, wait), Apply(r, s, BeginPop(t, room, wait)).threads[t])
  {
  }
}
