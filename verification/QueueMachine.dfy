/**
 The queue of `queue.c` shared by any number of threads: every lock, wait, wake,
 test, store of one byte, load and unlock is one atomic move, and moves of
 different threads interleave freely. Threads of different processes are not
 distinguished, because the structure lies in shared memory.
 */
module QueueMachine {
  import opened Bytes
  import opened RingLayout
  import opened Options
  import BoundedFifo

  /** Where a thread is inside `queue_push_common`. */
  datatype PushAt =
    | AskTail          // about to lock tail_mutex
    | AskSize          // about to lock size_mutex
    | Test             // about to compare cur_size with max_size
    | Waiting          // inside pthread_cond_wait on fullness_cond
    | Retake           // woken, about to lock size_mutex again
    | QuitSize         // giving up: about to unlock size_mutex
    | QuitTail         // giving up: about to unlock tail_mutex
    | LeaveSize        // there is room: about to unlock size_mutex
    | Wrap             // about to turn the end of the buffer into its beginning
    | Fill(done: nat)  // `done` bytes of the frame have been stored
    | AskCount         // tail moved, about to lock size_mutex
    | Count            // about to raise cur_size
    | Wake             // cur_size was 0, about to broadcast emptiness_cond
    | LeaveCount       // about to unlock size_mutex
    | LeaveTail        // about to unlock tail_mutex

  /** Where a thread is inside `queue_pop_common`. */
  datatype PopAt =
    | AskHead
    | AskSize
    | Test
    | Waiting          // inside pthread_cond_wait on emptiness_cond
    | Retake
    | QuitSize
    | QuitHead         // giving up: about to unlock head_mutex
    | LeaveSize
    | ReadSize         // about to load the size header and compare it with the caller's room
    | Drain(size: nat) // |got| of `size` bytes have been loaded
    | AskCount         // head moved, about to lock size_mutex
    | Count            // about to lower cur_size
    | Wake             // the queue was full, about to broadcast fullness_cond
    | LeaveCount
    | LeaveHead

  datatype Thread =
    | Idle
    | Push(data: Bytes, wait: bool, pushAt: PushAt)
    | Pop(room: nat, wait: bool, popAt: PopAt, got: Bytes)

  /** The shared structure, the threads, and the history of completed operations. `fault`
      records an access outside the buffer or a count below zero. */
  datatype State = State(
    mem: Bytes,
    head: nat,
    tail: nat,
    cur: nat,
    headMx: Option<nat>,
    tailMx: Option<nat>,
    sizeMx: Option<nat>,
    threads: seq<Thread>,
    fault: bool,
    pushed: seq<Bytes>,
    popped: seq<Bytes>)

  datatype Move =
    | BeginPush(t: nat, data: Bytes, wait: bool)
    | BeginPop(t: nat, room: nat, wait: bool)
    | Spurious(t: nat)
    | Advance(t: nat)

  predicate IsWaiting(th: Thread) {
    (th.Push? && th.pushAt.Waiting?) || (th.Pop? && th.popAt.Waiting?)
  }

  /** The thread's next action is not blocked by a mutex or a condition. */
  predicate Enabled(s: State, th: Thread) {
    match th
    case Idle => false
    case Push(_, _, at) =>
      (match at
       case AskTail => s.tailMx.None?
       case AskSize => s.sizeMx.None?
       case Retake => s.sizeMx.None?
       case AskCount => s.sizeMx.None?
       case Waiting => false
       case _ => true)
    case Pop(_, _, at, _) =>
      (match at
       case AskHead => s.headMx.None?
       case AskSize => s.sizeMx.None?
       case Retake => s.sizeMx.None?
       case AskCount => s.sizeMx.None?
       case Waiting => false
       case _ => true)
  }

  predicate CanMove(r: Ring, s: State, m: Move) {
    && m.t < |s.threads|
    && match m
       // the argument check of queue_push_common comes before any lock
       case BeginPush(t, data, _) => s.threads[t].Idle? && r.Fits(data)
       case BeginPop(t, _, _) => s.threads[t].Idle?
       case Spurious(t) => IsWaiting(s.threads[t])
       case Advance(t) => Enabled(s, s.threads[t])
  }

  function Woken(th: Thread): Thread {
    if th.Push? then th.(pushAt := PushAt.Retake) else if th.Pop? then th.(popAt := PopAt.Retake) else th
  }

  /** pthread_cond_broadcast on emptiness_cond (`poppers`) or on fullness_cond. */
  function Broadcast(threads: seq<Thread>, poppers: bool): (woken: seq<Thread>)
    ensures |woken| == |threads|
    ensures forall i :: 0 <= i < |threads| ==>
      woken[i] == if IsWaiting(threads[i]) && threads[i].Pop? == poppers then Woken(threads[i]) else threads[i]
  {
    seq(|threads|, i requires 0 <= i < |threads| =>
      if IsWaiting(threads[i]) && threads[i].Pop? == poppers then Woken(threads[i]) else threads[i])
  }

  function Goto(s: State, t: nat, th: Thread): State
    requires t < |s.threads|
  {
    s.(threads := s.threads[t := th])
  }

  /** Store one byte; outside the buffer this is a fault and stores nothing. */
  function Store(r: Ring, s: State, a: nat, b: byte): State {
    if r.base <= a < r.End() && a < |s.mem| then s.(mem := s.mem[a := b]) else s.(fault := true)
  }

  predicate InBuffer(r: Ring, s: State, a: nat, n: nat) {
    r.base <= a && a + n <= r.End() && a + n <= |s.mem|
  }

  function AdvancePush(r: Ring, s: State, t: nat): State
    requires t < |s.threads| && s.threads[t].Push?
  {
    var th := s.threads[t];
    var to := (at: PushAt) => th.(pushAt := at);
    match th.pushAt
    case AskTail => Goto(s, t, to(PushAt.AskSize)).(tailMx := Some(t))
    case AskSize => Goto(s, t, to(PushAt.Test)).(sizeMx := Some(t))
    case Test =>
      if s.cur != r.max then Goto(s, t, to(PushAt.LeaveSize))
      else if th.wait then Goto(s, t, to(PushAt.Waiting)).(sizeMx := None)
      else Goto(s, t, to(PushAt.QuitSize))
    case Waiting => s
    case Retake => Goto(s, t, to(PushAt.Test)).(sizeMx := Some(t))
    case QuitSize => Goto(s, t, to(PushAt.QuitTail)).(sizeMx := None)
    case QuitTail => Goto(s, t, Idle).(tailMx := None)
    case LeaveSize => Goto(s, t, to(PushAt.Wrap)).(sizeMx := None)
    case Wrap => Goto(s, t, to(PushAt.Fill(0))).(tail := if s.tail == r.End() then r.base else s.tail)
    case Fill(k) =>
      var frame := Frame(th.data);
      if k < |frame| then Store(r, Goto(s, t, to(PushAt.Fill(k + 1))), s.tail + k, frame[k])
      else Goto(s, t, to(PushAt.AskCount)).(tail := s.tail + r.Stride())
    case AskCount => Goto(s, t, to(PushAt.Count)).(sizeMx := Some(t))
    case Count =>
      Goto(s, t, to(if s.cur == 0 then PushAt.Wake else PushAt.LeaveCount))
        .(cur := s.cur + 1, pushed := s.pushed + [th.data])
    case Wake =>
      s.(threads := Broadcast(s.threads[t := to(PushAt.LeaveCount)], true))
    case LeaveCount => Goto(s, t, to(PushAt.LeaveTail)).(sizeMx := None)
    case LeaveTail => Goto(s, t, Idle).(tailMx := None)
  }

  function AdvancePop(r: Ring, s: State, t: nat): State
    requires t < |s.threads| && s.threads[t].Pop?
  {
    var th := s.threads[t];
    var to := (at: PopAt) => th.(popAt := at);
    match th.popAt
    case AskHead => Goto(s, t, to(PopAt.AskSize)).(headMx := Some(t))
    case AskSize => Goto(s, t, to(PopAt.Test)).(sizeMx := Some(t))
    case Test =>
      if s.cur != 0 then Goto(s, t, to(PopAt.LeaveSize))
      else if th.wait then Goto(s, t, to(PopAt.Waiting)).(sizeMx := None)
      else Goto(s, t, to(PopAt.QuitSize))
    case Waiting => s
    case Retake => Goto(s, t, to(PopAt.Test)).(sizeMx := Some(t))
    case QuitSize => Goto(s, t, to(PopAt.QuitHead)).(sizeMx := None)
    case QuitHead => Goto(s, t, Idle).(headMx := None)
    case LeaveSize => Goto(s, t, to(PopAt.ReadSize)).(sizeMx := None)
    case ReadSize =>
      if !InBuffer(r, s, s.head, SIZE_T_BYTES) then s.(fault := true)
      else
        var size := DecodeLE(s.mem[s.head..s.head + SIZE_T_BYTES]);
        if th.room < size then Goto(s, t, to(PopAt.QuitHead))
        else Goto(s, t, to(PopAt.Drain(size)).(got := []))
    case Drain(size) =>
      if |th.got| < size then
        var a := s.head + SIZE_T_BYTES + |th.got|;
        if !InBuffer(r, s, a, 1) then s.(fault := true)
        else Goto(s, t, th.(got := th.got + [s.mem[a]]))
      else
        Goto(s, t, to(PopAt.AskCount))
          .(head := if s.head + r.Stride() == r.End() then r.base else s.head + r.Stride())
    case AskCount => Goto(s, t, to(PopAt.Count)).(sizeMx := Some(t))
    case Count =>
      if s.cur == 0 then s.(fault := true)
      else
        Goto(s, t, to(if s.cur == r.max then PopAt.Wake else PopAt.LeaveCount))
          .(cur := s.cur - 1, popped := s.popped + [th.got])
    case Wake =>
      s.(threads := Broadcast(s.threads[t := to(PopAt.LeaveCount)], false))
    case LeaveCount => Goto(s, t, to(PopAt.LeaveHead)).(sizeMx := None)
    case LeaveHead => Goto(s, t, Idle).(headMx := None)
  }

  function Apply(r: Ring, s: State, m: Move): State
    requires CanMove(r, s, m)
  {
    match m
    case BeginPush(t, data, wait) => Goto(s, t, Push(data, wait, PushAt.AskTail))
    case BeginPop(t, room, wait) => Goto(s, t, Pop(room, wait, PopAt.AskHead, []))
    case Spurious(t) => Goto(s, t, Woken(s.threads[t]))
    case Advance(t) => if s.threads[t].Push? then AdvancePush(r, s, t) else AdvancePop(r, s, t)
  }

  /** What a move shows to callers: a push takes effect where it raises the count, a pop
      where it lowers it, a failed try where it reads the count or the header. */
  function EventOf(r: Ring, s: State, m: Move): BoundedFifo.Event
    requires CanMove(r, s, m)
  {
    if !m.Advance? then BoundedFifo.Silent
    else match s.threads[m.t]
      case Idle => BoundedFifo.Silent
      case Push(data, wait, at) =>
        if at.Test? && s.cur == r.max && !wait then BoundedFifo.SeenFull
        else if at.Count? then BoundedFifo.Enqueued(data)
        else BoundedFifo.Silent
      case Pop(room, wait, at, got) =>
        if at.Test? && s.cur == 0 && !wait then BoundedFifo.SeenEmpty
        else if at.ReadSize? && InBuffer(r, s, s.head, SIZE_T_BYTES)
                && room < DecodeLE(s.mem[s.head..s.head + SIZE_T_BYTES]) then BoundedFifo.SeenTooLong(room)
        else if at.Count? && s.cur != 0 then BoundedFifo.Dequeued(got)
        else BoundedFifo.Silent
  }

  /** The `i`-th move leads from the `i`-th state to the next. */
  predicate Leads(r: Ring, moves: seq<Move>, states: seq<State>, i: nat) {
    && i < |moves| && i + 1 < |states|
    && CanMove(r, states[i], moves[i])
    && states[i + 1] == Apply(r, states[i], moves[i])
  }

  /** The states visited by `moves`. */
  ghost predicate IsRun(r: Ring, moves: seq<Move>, states: seq<State>) {
    && |states| == |moves| + 1
    && forall i: nat :: i < |moves| ==> Leads(r, moves, states, i)
  }

  /** A queue as `queue_init` leaves it, before any thread enters. */
  predicate Initial(r: Ring, s: State) {
    && r.dataMax < SIZE_T_LIMIT
    && AtRest(r, s.mem, s.head, s.tail, s.cur, [], 0)
    && s.head == s.tail == r.base
    && s.headMx.None? && s.tailMx.None? && s.sizeMx.None?
    && (forall t :: 0 <= t < |s.threads| ==> s.threads[t].Idle?)
    && !s.fault && s.pushed == [] && s.popped == []
  }
}
