/**
 What the tiering protocol guarantees over whole runs: no content is lost, a stub
 always names its object, and one worker at a time is inside a file.
 */
module TieringTheorems {
  import opened Bytes
  import opened Options
  import opened FileBytes
  import opened Tiering
  import opened TieringInvariant

  // ---- Content ---------------------------------------------------------------------

  /** The file reads as what the application last wrote; only between the two removals of a
      rollback is its object unnamed, and then it is locked and its local bytes are complete. */
  predicate Intact(s: State, f: nat)
    requires f < |s.files|
  {
    && f < |s.truth|
    && (Logical(s, f) == Some(s.truth[f])
        || (Logical(s, f).None? && InWindow(s, f) && s.files[f].locked && s.files[f].data == s.truth[f]))
  }

  lemma InvIntact(s: State, f: nat)
    requires Inv(s) && f < |s.files|
    ensures Intact(s, f)
  {
    assert FileOk(s, f);
    if s.files[f].stub && s.files[f].oid.None? {
      var w :| 0 <= w < |s.workers| && AtUndoStub(s.workers[w], f);
      assert Holding(s.workers[w]);
    }
  }

  /** Every file is intact in every state of every careful run, including after a crash at any
      other point. */
  lemma ContentKept(moves: seq<Move>, states: seq<State>, i: nat, f: nat)
    requires IsRun(moves, states) && Careful(moves, states) && Initial(states[0])
    requires i < |states| && f < |states[i].files|
    ensures Intact(states[i], f)
  {
    RunKeepsInv(moves, states, i);
    InvIntact(states[i], f);
  }

  /** Without writes by the application, that content is the initial one. */
  lemma {:induction false} TruthConstant(moves: seq<Move>, states: seq<State>, i: nat)
    requires IsRun(moves, states) && i < |states|
    requires forall j :: 0 <= j < |moves| ==> !moves[j].AppWrite?
    ensures states[i].truth == states[0].truth
  {
    if i > 0 {
      TruthConstant(moves, states, i - 1);
      assert Leads(moves, states, i - 1);
      ApplyKeepsTruth(states[i - 1], moves[i - 1]);
    }
  }

  lemma ApplyKeepsTruth(s: State, m: Move)
    requires CanMove(s, m) && !m.AppWrite?
    ensures Apply(s, m).truth == s.truth
  {
  }

  lemma ContentConstant(moves: seq<Move>, states: seq<State>, i: nat, f: nat)
    requires IsRun(moves, states) && Careful(moves, states) && Initial(states[0])
    requires forall j :: 0 <= j < |moves| ==> !moves[j].AppWrite?
    requires i < |states| && f < |states[i].files|
    requires !InWindow(states[i], f)
    ensures f < |states[0].truth| && Logical(states[i], f) == Some(states[0].truth[f])
  {
    ContentKept(moves, states, i, f);
    TruthConstant(moves, states, i);
  }

  /** `stub` means that `object_id` is set and names a stored object at least as long as
      the local file, except inside the rollback window. */
  lemma StubNamesObject(moves: seq<Move>, states: seq<State>, i: nat, f: nat)
    requires IsRun(moves, states) && Careful(moves, states) && Initial(states[0])
    requires i < |states| && f < |states[i].files| && states[i].files[f].stub && !InWindow(states[i], f)
    ensures var s := states[i];
            && s.files[f].oid.Some? && s.files[f].oid.value in s.remote
            && |s.files[f].data| <= |s.remote[s.files[f].oid.value]|
  {
    RunKeepsInv(moves, states, i);
    assert FileOk(states[i], f);
  }

  // ---- What the machine allows -------------------------------------------------------

  /** Nothing is ruled out: an idle worker may begin with any file and any key; one inside a call may
      die at any point, each of its calls may succeed or fail, a request may end in any way the store
      can end it, and the application may write any local file nobody is transferring. */
  lemma MovesPossible(s: State, w: nat, f: nat, key: Key, n: nat, data: Bytes, verdict: Verdict)
    requires w < |s.workers| && f < |s.files| && |s.truth| == |s.files|
    ensures s.workers[w].Idle? ==> CanMove(s, BeginUp(w, f, key)) && CanMove(s, BeginDown(w, f))
    ensures OnFile(s, w) ==> CanMove(s, Crash(w))
    ensures OnFile(s, w) && s.workers[w].Up? && !s.workers[w].upAt.Put? ==> CanMove(s, Go(w)) && CanMove(s, Fault(w))
    ensures OnFile(s, w) && s.workers[w].Down? && !s.workers[w].downAt.Get? ==>
              CanMove(s, Go(w)) && CanMove(s, Fault(w))
    ensures OnFile(s, w) && s.workers[w].Up? && s.workers[w].upAt.Put? ==>
              var left := |s.files[s.workers[w].f].data| - s.workers[w].upAt.pos;
              && (n <= left && !verdict.Good? ==> CanMove(s, PutTry(w, n, false, verdict)))
              && (n == left ==> CanMove(s, PutTry(w, n, true, verdict)))
    ensures OnFile(s, w) && s.workers[w].Down? && s.workers[w].downAt.Get? && s.workers[w].downAt.key in s.remote ==>
              var left := |s.remote[s.workers[w].downAt.key]| - s.workers[w].downAt.off;
              && (0 < n <= left ==> CanMove(s, GetChunk(w, n)))
              && (left == 0 || !verdict.Good? ==> CanMove(s, GetEnd(w, verdict)))
    ensures !s.files[f].stub && NobodyHolds(s, f) ==> CanMove(s, AppWrite(f, data))
  {
  }

  /** A call that fails and a worker that dies change no file and no object; a worker that dies is gone. */
  lemma FailuresChangeNothing(s: State, w: nat)
    requires OnFile(s, w)
    ensures CanMove(s, Fault(w)) ==>
              Apply(s, Fault(w)).files == s.files && Apply(s, Fault(w)).remote == s.remote
              && Apply(s, Fault(w)).workers[w] != s.workers[w]
    ensures CanMove(s, Crash(w)) ==> Apply(s, Crash(w)) == s.(workers := s.workers[w := Idle])
  {
  }

  // ---- Mutual exclusion --------------------------------------------------------------

  datatype LockEvent =
    | NoLock
    | Acquire(w: nat, f: nat)
    | Release(w: nat, f: nat)
    | Abandon(w: nat, f: nat)  // the holder died, or its unlock failed

  /** Who owns a file's lock according to the events so far. */
  datatype Owner = Free | Owned(w: nat) | Abandoned | Broken

  function LockEventOf(s: State, m: Move): LockEvent
    requires CanMove(s, m)
  {
    match m
    case Go(w) =>
      var wk := s.workers[w];
      if !Holding(wk) && !s.files[wk.f].locked then Acquire(w, wk.f)
      else if (wk.Up? && wk.upAt.Unlock?) || (wk.Down? && wk.downAt.Unlock?) then Release(w, wk.f)
      else NoLock
    case Fault(w) =>
      var wk := s.workers[w];
      if (wk.Up? && wk.upAt.Unlock?) || (wk.Down? && wk.downAt.Unlock?) then Abandon(w, wk.f) else NoLock
    case Crash(w) => if Holding(s.workers[w]) then Abandon(w, s.workers[w].f) else NoLock
    case _ => NoLock
  }

  /** The lock is taken when free, given back once by its owner, and never taken again
      after being abandoned; anything else breaks it. */
  function NextOwner(o: Owner, e: LockEvent, f: nat): Owner {
    match e
    case NoLock => o
    case Acquire(w, g) => if g != f then o else if o == Free then Owned(w) else Broken
    case Release(w, g) => if g != f then o else if o == Owned(w) then Free else Broken
    case Abandon(w, g) => if g != f then o else if o == Owned(w) then Abandoned else Broken
  }

  ghost function OwnerAfter(moves: seq<Move>, states: seq<State>, n: nat, f: nat): Owner
    requires IsRun(moves, states) && n <= |moves|
  {
    if n == 0 then Free
    else
      assert Leads(moves, states, n - 1);
      NextOwner(OwnerAfter(moves, states, n - 1, f), LockEventOf(states[n - 1], moves[n - 1]), f)
  }

  /** The owner the events speak of is the one worker inside the file. */
  predicate OwnerMatches(s: State, f: nat, o: Owner)
    requires f < |s.files|
  {
    match o
    case Free => !s.files[f].locked && NobodyHolds(s, f)
    case Owned(w) => s.files[f].locked && w < |s.workers| && HoldsFile(s.workers[w], f)
    case Abandoned => s.files[f].locked && NobodyHolds(s, f)
    case Broken => false
  }

  predicate NobodyHolds(s: State, f: nat) {
    forall w :: 0 <= w < |s.workers| ==> !HoldsFile(s.workers[w], f)
  }

  lemma GoOwner(s: State, w: nat, f: nat, o: Owner)
    requires Locks(s) && CanMove(s, Go(w)) && f < |s.files| && OwnerMatches(s, f, o)
    ensures f < |Apply(s, Go(w)).files|
    ensures OwnerMatches(Apply(s, Go(w)), f, NextOwner(o, LockEventOf(s, Go(w)), f))
  {
    var wk, s' := s.workers[w], Apply(s, Go(w));
    assert wk.f == f && Holding(wk) ==> o == Owned(w);
    if wk.Up? {
      match wk.upAt {
        case Lock =>
        case Unlock(ok) =>
        case Probe =>
        case SetOid =>
        case SetStub =>
        case Stat =>
        case Trunc(size) =>
        case Extend(size) =>
        case UndoOid(b) =>
        case UndoStub =>
      }
    } else {
      match wk.downAt {
        case Lock =>
        case Unlock(ok) =>
        case _ =>
      }
    }
  }

  lemma FailureOwner(s: State, m: Move, f: nat, o: Owner)
    requires Locks(s) && CanMove(s, m) && (m.Fault? || m.Crash?) && f < |s.files| && OwnerMatches(s, f, o)
    ensures f < |Apply(s, m).files|
    ensures OwnerMatches(Apply(s, m), f, NextOwner(o, LockEventOf(s, m), f))
  {
    assert s.workers[m.w].f == f && Holding(s.workers[m.w]) ==> o == Owned(m.w);
  }

  lemma MoveOwner(s: State, m: Move, f: nat, o: Owner)
    requires Locks(s) && CanMove(s, m) && f < |s.files| && OwnerMatches(s, f, o)
    ensures f < |Apply(s, m).files|
    ensures OwnerMatches(Apply(s, m), f, NextOwner(o, LockEventOf(s, m), f))
  {
    if m.Go? {
      GoOwner(s, m.w, f, o);
    } else if m.Fault? || m.Crash? {
      FailureOwner(s, m, f, o);
    }
  }

  /** A worker that stays where it was, or leaves, without touching any lock. */
  lemma StayKeepsLocks(s: State, s': State, w: nat)
    requires Locks(s) && w < |s.workers| && |s'.workers| == |s.workers| && |s'.truth| == |s'.files| == |s.files|
    requires forall v :: 0 <= v < |s.workers| && v != w ==> s'.workers[v] == s.workers[v]
    requires forall f :: 0 <= f < |s.files| ==> s'.files[f].locked == s.files[f].locked
    requires Holding(s'.workers[w]) ==> Holding(s.workers[w]) && s'.workers[w].f == s.workers[w].f
    ensures Locks(s')
  {
  }

  /** Locking stays consistent under every move, hazards included. */
  lemma MoveKeepsLocks(s: State, m: Move)
    requires Locks(s) && CanMove(s, m)
    ensures Locks(Apply(s, m))
  {
    if m.Go? {
      if s.workers[m.w].Up? {
        UpGoKeepsLocks(s, m.w);
      } else {
        DownGoKeepsLocks(s, m.w);
      }
    } else if !m.AppWrite? {
      StayKeepsLocks(s, Apply(s, m), m.w);
    }
  }

  lemma UpGoKeepsLocks(s: State, w: nat)
    requires Locks(s) && CanMove(s, Go(w)) && s.workers[w].Up?
    ensures Locks(UpGo(s, w))
  {
    match s.workers[w].upAt {
      case Lock =>
      case Unlock(ok) =>
      case Probe =>
      case SetOid =>
      case SetStub =>
      case Stat =>
      case Trunc(size) =>
      case Extend(size) =>
      case UndoOid(b) =>
      case UndoStub =>
    }
  }

  lemma DownGoKeepsLocks(s: State, w: nat)
    requires Locks(s) && CanMove(s, Go(w)) && s.workers[w].Down?
    ensures Locks(DownGo(s, w))
  {
    match s.workers[w].downAt {
      case Lock =>
      case Unlock(ok) =>
      case Probe =>
      case GetOid =>
      case RemStub =>
      case RemOid =>
    }
  }

  /** Over any run at all, faults and hazards included: a file's lock is taken only when
      free, released exactly once and only by the worker that took it, and whoever is
      inside the file is its one owner. */
  lemma {:induction false} MutualExclusion(moves: seq<Move>, states: seq<State>, n: nat, f: nat)
    requires IsRun(moves, states) && Initial(states[0]) && n <= |moves|
    requires f < |states[0].files| && !states[0].files[f].locked
    ensures Locks(states[n]) && f < |states[n].files|
    ensures OwnerAfter(moves, states, n, f) != Broken
    ensures OwnerMatches(states[n], f, OwnerAfter(moves, states, n, f))
  {
    if n > 0 {
      MutualExclusion(moves, states, n - 1, f);
      assert Leads(moves, states, n - 1);
      MoveKeepsLocks(states[n - 1], moves[n - 1]);
      MoveOwner(states[n - 1], moves[n - 1], f, OwnerAfter(moves, states, n - 1, f));
    }
  }

  // ---- What success means ------------------------------------------------------------

  /** An upload that ends well leaves a stub of the right size whose object is the content. */
  lemma UploadEndsWell(s: State, w: nat)
    requires Inv(s) && CanMove(s, Go(w)) && s.workers[w].Up? && s.workers[w].upAt.Extend?
    ensures var s', f := Apply(s, Go(w)), s.workers[w].f;
            && s'.workers[w] == s.workers[w].(upAt := UpAt.Unlock(true))
            && s'.files[f].stub && s'.files[f].oid == Some(s.workers[w].key)
            && s.workers[w].key in s'.remote && s'.remote[s.workers[w].key] == s'.truth[f]
            && s'.files[f].data == Zeros(|s'.truth[f]|)
  {
    assert FileOk(s, s.workers[w].f);
  }

  /** A download that ends well leaves the content in place and neither attribute. */
  lemma DownloadEndsWell(s: State, w: nat)
    requires Inv(s) && CanMove(s, Go(w)) && s.workers[w].Down? && s.workers[w].downAt.RemOid?
    requires Apply(s, Go(w)).workers[w] == s.workers[w].(downAt := DownAt.Unlock(true))
    ensures var s', f := Apply(s, Go(w)), s.workers[w].f;
            s'.files[f].data == s'.truth[f] && !s'.files[f].stub && s'.files[f].oid.None?
  {
    assert FileOk(s, s.workers[w].f);
  }
}
