/**
 The invariant of the tiering protocol and the proof that every careful move keeps it.
 */
module TieringInvariant {
  import opened Bytes
  import opened Options
  import opened FileBytes
  import opened Tiering

  // ---- The invariant ---------------------------------------------------------------

  predicate Locks(s: State) {
    && |s.truth| == |s.files|
    && (forall w :: 0 <= w < |s.workers| && Holding(s.workers[w]) ==>
          OnFile(s, w) && s.files[s.workers[w].f].locked)
    && (forall v, w :: 0 <= v < w < |s.workers| && Holding(s.workers[v]) && Holding(s.workers[w]) ==>
          s.workers[v].f != s.workers[w].f)
  }

  /** Some worker is between the two removals of a rollback on `f`. */
  predicate InWindow(s: State, f: nat) {
    exists w :: 0 <= w < |s.workers| && AtUndoStub(s.workers[w], f)
  }

  predicate AtUndoStub(wk: Worker, f: nat) {
    wk.Up? && wk.f == f && wk.upAt.UndoStub?
  }

  predicate FileOk(s: State, f: nat)
    requires f < |s.files| && |s.truth| == |s.files|
  {
    var file := s.files[f];
    if !file.stub then file.data == s.truth[f]
    else if file.oid.Some? then
      && file.oid.value in s.remote
      && s.remote[file.oid.value] == s.truth[f]
      && |file.data| <= |s.truth[f]|
    else file.data == s.truth[f] && InWindow(s, f)
  }

  /** What a worker has established about its file, program point by program point. */
  predicate WorkerOk(s: State, wk: Worker)
    requires !wk.Idle? ==> wk.f < |s.files| && |s.truth| == |s.files|
  {
    match wk
    case Idle => true
    case Up(f, key, at) =>
      var file := s.files[f];
      (match at
       case Put(pos) => pos <= |file.data| && (file.stub ==> file.oid.Some?)
       case SetOid =>
         && (file.stub ==> file.oid.Some?)
         && key in s.remote && (file.oid.None? ==> s.remote[key] == file.data)
       case SetStub => !file.stub && file.oid == Some(key) && key in s.remote && s.remote[key] == file.data
       case Stat => file.stub && file.oid == Some(key) && file.data == s.truth[f]
       case Trunc(size) => file.stub && file.oid == Some(key) && file.data == s.truth[f] && size == |file.data|
       case Extend(size) => file.stub && file.oid == Some(key) && size == |s.truth[f]| && file.data == []
       case UndoOid(stubToo) => file.oid == Some(key) && file.data == s.truth[f] && file.stub == stubToo
       case UndoStub => file.stub && file.data == s.truth[f]
       case _ => true)
    case Down(f, at) =>
      var file := s.files[f];
      (match at
       case GetOid => file.stub && file.oid.Some?
       case Get(key, pos, off) =>
         && file.stub && file.oid == Some(key)
         && off <= pos <= |file.data| && pos <= |s.truth[f]|
         && (pos == off ==> file.data[..off] == s.truth[f][..off])
       case RemStub => file.stub && file.oid.Some? && file.data == s.truth[f]
       case RemOid => !file.stub
       case _ => true)
  }

  predicate Files(s: State)
    requires |s.truth| == |s.files|
  {
    forall f :: 0 <= f < |s.files| ==> FileOk(s, f)
  }

  predicate Workers(s: State)
    requires Locks(s)
  {
    forall w :: 0 <= w < |s.workers| && Holding(s.workers[w]) ==> WorkerOk(s, s.workers[w])
  }

  predicate Inv(s: State) {
    Locks(s) && Files(s) && Workers(s)
  }

  lemma InitialInv(s: State)
    requires Initial(s)
    ensures Inv(s)
  {
  }

  // ---- What a move of one worker leaves alone --------------------------------------

  /** `s'` differs from `s` at worker `w`, at its file `f`, and at most at object `key`. */
  predicate Touches(s: State, s': State, w: nat, f: nat, key: Key)
    requires w < |s.workers| && f < |s.files|
  {
    && |s'.workers| == |s.workers| && |s'.files| == |s.files| && s'.truth == s.truth
    && (forall v :: 0 <= v < |s.workers| && v != w ==> s'.workers[v] == s.workers[v])
    && (forall g :: 0 <= g < |s.files| && g != f ==> s'.files[g] == s.files[g])
    && (forall k :: k in s.remote ==> k in s'.remote && (k != key ==> s'.remote[k] == s.remote[k]))
  }

  /** No other file needs `key`, or `key` is not changed. */
  predicate KeyFree(s: State, s': State, f: nat, key: Key) {
    || s'.remote == s.remote
    || forall g :: 0 <= g < |s.files| && g != f ==> !Depends(s, g, key)
  }

  lemma OtherFileKept(s: State, s': State, w: nat, f: nat, key: Key, g: nat)
    requires Inv(s) && w < |s.workers| && f < |s.files|
    requires Holding(s.workers[w]) ==> s.workers[w].f == f
    requires Touches(s, s', w, f, key) && KeyFree(s, s', f, key)
    requires g < |s.files| && g != f
    ensures FileOk(s', g)
  {
    assert FileOk(s, g);
    if s.files[g].stub && s.files[g].oid.None? {
      var v :| 0 <= v < |s.workers| && AtUndoStub(s.workers[v], g);
      assert v != w;
      assert AtUndoStub(s'.workers[v], g);
    }
    if s'.remote != s.remote {
      assert !Depends(s, g, key);
    }
  }

  lemma OtherWorkerKept(s: State, s': State, w: nat, f: nat, key: Key, v: nat)
    requires Inv(s) && w < |s.workers| && f < |s.files|
    requires HoldsFile(s.workers[w], f) || s'.files == s.files || !s.files[f].locked
    requires Touches(s, s', w, f, key) && KeyFree(s, s', f, key)
    requires HoldsFile(s.workers[w], f) || s'.remote == s.remote
    requires v < |s.workers| && v != w && Holding(s.workers[v])
    ensures s'.workers[v].f < |s'.files| && WorkerOk(s', s'.workers[v])
  {
    assert WorkerOk(s, s.workers[v]);
    var g := s.workers[v].f;
    if HoldsFile(s.workers[w], f) || !s.files[f].locked {
      assert g != f;
    }
    assert s'.files[g] == s.files[g];
    if g != f && s'.remote != s.remote {
      assert !Depends(s, g, key);
      assert !IsMarking(s, v, g, key);
    }
  }

  /** A move of worker `w` on its file `f` keeps the invariant when it does so for `w` and `f`. */
  lemma StepKeepsInv(s: State, s': State, w: nat, f: nat, key: Key)
    requires Inv(s) && OnFile(s, w) && s.workers[w].f == f
    requires Holding(s.workers[w]) || s'.remote == s.remote
    requires Touches(s, s', w, f, key) && KeyFree(s, s', f, key)
    requires s'.workers[w].Idle? || s'.workers[w].f == f
    requires Holding(s'.workers[w]) ==> s'.files[f].locked && (Holding(s.workers[w]) || !s.files[f].locked)
    requires Holding(s.workers[w]) || !s.files[f].locked || s'.files == s.files
    requires FileOk(s', f) && (Holding(s'.workers[w]) ==> WorkerOk(s', s'.workers[w]))
    ensures Inv(s')
  {
    forall g | 0 <= g < |s.files| ensures FileOk(s', g) {
      if g != f {
        OtherFileKept(s, s', w, f, key, g);
      }
    }
    forall v | 0 <= v < |s.workers| && v != w && Holding(s.workers[v])
      ensures OnFile(s', v) && s'.files[s'.workers[v].f].locked && WorkerOk(s', s'.workers[v])
      ensures Holding(s'.workers[w]) ==> s.workers[v].f != f
    {
      if Holding(s.workers[w]) || !s.files[f].locked {
        assert s.workers[v].f != f;
      }
      OtherWorkerKept(s, s', w, f, key, v);
    }
  }

  // ---- Moves of an uploading worker ------------------------------------------------

  /** Taking the lock, probing, releasing the lock. */
  lemma UpFrameKeepsInv(s: State, w: nat)
    requires Inv(s) && CanMove(s, Go(w)) && s.workers[w].Up?
    requires s.workers[w].upAt.Lock? || s.workers[w].upAt.Probe? || s.workers[w].upAt.Unlock?
    ensures Inv(UpGo(s, w))
  {
    assert FileOk(s, s.workers[w].f);
    NoWindowAt(s, w);
    StepKeepsInv(s, UpGo(s, w), w, s.workers[w].f, "");
  }

  /** Setting the two attributes. */
  lemma UpMarkKeepsInv(s: State, w: nat)
    requires Inv(s) && CanMove(s, Go(w)) && s.workers[w].Up?
    requires s.workers[w].upAt.SetOid? || s.workers[w].upAt.SetStub?
    ensures Inv(UpGo(s, w))
  {
    assert FileOk(s, s.workers[w].f);
    NoWindowAt(s, w);
    StepKeepsInv(s, UpGo(s, w), w, s.workers[w].f, "");
  }

  /** Making the file sparse. */
  lemma UpDropKeepsInv(s: State, w: nat)
    requires Inv(s) && CanMove(s, Go(w)) && s.workers[w].Up?
    requires s.workers[w].upAt.Stat? || s.workers[w].upAt.Trunc? || s.workers[w].upAt.Extend?
    ensures Inv(UpGo(s, w))
  {
    assert FileOk(s, s.workers[w].f);
    StepKeepsInv(s, UpGo(s, w), w, s.workers[w].f, "");
  }

  /** The two removals of a rollback. */
  lemma UpUndoKeepsInv(s: State, w: nat)
    requires Inv(s) && CanMove(s, Go(w)) && s.workers[w].Up?
    requires s.workers[w].upAt.UndoOid? || s.workers[w].upAt.UndoStub?
    ensures Inv(UpGo(s, w))
  {
    var f, s' := s.workers[w].f, UpGo(s, w);
    assert FileOk(s, f);
    if s.workers[w].upAt.UndoOid? && s.workers[w].upAt.stubToo {
      assert AtUndoStub(s'.workers[w], f);
    }
    StepKeepsInv(s, s', w, f, "");
  }

  lemma UpGoKeepsInv(s: State, w: nat)
    requires Inv(s) && CanMove(s, Go(w)) && s.workers[w].Up?
    ensures Inv(UpGo(s, w))
  {
    match s.workers[w].upAt
    case Lock => UpFrameKeepsInv(s, w);
    case Probe => UpFrameKeepsInv(s, w);
    case Unlock(_) => UpFrameKeepsInv(s, w);
    case SetOid => UpMarkKeepsInv(s, w);
    case SetStub => UpMarkKeepsInv(s, w);
    case Stat => UpDropKeepsInv(s, w);
    case Trunc(_) => UpDropKeepsInv(s, w);
    case Extend(_) => UpDropKeepsInv(s, w);
    case UndoOid(_) => UpUndoKeepsInv(s, w);
    case UndoStub => UpUndoKeepsInv(s, w);
  }

  /** Failures before the file is changed. */
  lemma UpEarlyFaultKeepsInv(s: State, w: nat)
    requires Inv(s) && CanMove(s, Fault(w)) && s.workers[w].Up?
    requires var at := s.workers[w].upAt; at.Lock? || at.Probe? || at.SetOid? || at.SetStub?
    ensures Inv(UpFault(s, w))
  {
    assert FileOk(s, s.workers[w].f);
    NoWindowAt(s, w);
    StepKeepsInv(s, UpFault(s, w), w, s.workers[w].f, "");
  }

  /** Failures after that, rollbacks included. */
  lemma UpLateFaultKeepsInv(s: State, w: nat)
    requires Inv(s) && CanMove(s, Fault(w)) && s.workers[w].Up? && !Hazard(s, Fault(w))
    requires var at := s.workers[w].upAt;
             at.Stat? || at.Trunc? || at.Extend? || at.UndoOid? || at.UndoStub? || at.Unlock?
    ensures Inv(UpFault(s, w))
  {
    assert FileOk(s, s.workers[w].f);
    NoWindowAt(s, w);
    StepKeepsInv(s, UpFault(s, w), w, s.workers[w].f, "");
  }

  lemma UpFaultKeepsInv(s: State, w: nat)
    requires Inv(s) && CanMove(s, Fault(w)) && s.workers[w].Up? && !Hazard(s, Fault(w))
    ensures Inv(UpFault(s, w))
  {
    var at := s.workers[w].upAt;
    if at.Lock? || at.Probe? || at.SetOid? || at.SetStub? {
      UpEarlyFaultKeepsInv(s, w);
    } else {
      UpLateFaultKeepsInv(s, w);
    }
  }

  /** Who holds a file decides whether it is between two removals. */
  lemma NoWindowAt(s: State, w: nat)
    requires Locks(s) && w < |s.workers|
    ensures Holding(s.workers[w]) ==>
              (InWindow(s, s.workers[w].f) <==> AtUndoStub(s.workers[w], s.workers[w].f))
  {
    if Holding(s.workers[w]) {
      NotInWindow(s, w, s.workers[w].f);
    }
  }

  /** A file held by a worker elsewhere in its call is not between two removals. */
  lemma NotInWindow(s: State, w: nat, f: nat)
    requires Locks(s) && w < |s.workers| && HoldsFile(s.workers[w], f)
    ensures InWindow(s, f) <==> AtUndoStub(s.workers[w], f)
  {
  }

  /** An attempt that is no hazard changes no object that a file depends on. */
  lemma PutSparesOthers(s: State, w: nat, n: nat, stored: bool, verdict: Verdict, g: nat)
    requires CanMove(s, PutTry(w, n, stored, verdict)) && !Hazard(s, PutTry(w, n, stored, verdict))
    requires g < |s.files| && Depends(s, g, s.workers[w].key)
    ensures PutTried(s, w, n, stored, verdict).remote == s.remote
  {
    var key, body := s.workers[w].key, if stored then s.files[s.workers[w].f].data[s.workers[w].upAt.pos..] else [];
    if stored {
      assert !Differs(s, key, body);
      assert s.remote[key := body] == s.remote;
    }
  }

  /** The worker's own file still reads as it did. */
  lemma PutKeepsFile(s: State, w: nat, n: nat, stored: bool, verdict: Verdict)
    requires Inv(s) && CanMove(s, PutTry(w, n, stored, verdict)) && !Hazard(s, PutTry(w, n, stored, verdict))
    ensures FileOk(PutTried(s, w, n, stored, verdict), s.workers[w].f)
  {
    var f, key := s.workers[w].f, s.workers[w].key;
    assert FileOk(s, f) && WorkerOk(s, s.workers[w]);
    if s.files[f].stub && s.files[f].oid == Some(key) {
      assert Depends(s, f, key);
      PutSparesOthers(s, w, n, stored, verdict, f);
    }
  }

  /** After a request that succeeded the object is the file, unless a name is there already. */
  lemma PutKeepsWorker(s: State, w: nat, n: nat, stored: bool, verdict: Verdict)
    requires Inv(s) && CanMove(s, PutTry(w, n, stored, verdict)) && !Hazard(s, PutTry(w, n, stored, verdict))
    ensures var s' := PutTried(s, w, n, stored, verdict); WorkerOk(s', s'.workers[w])
  {
    var f := s.workers[w].f;
    assert WorkerOk(s, s.workers[w]);
    assert s.files[f].data[0..] == s.files[f].data;
  }

  /** An attempt to store the file's bytes, however it ends. */
  lemma PutKeepsInv(s: State, w: nat, n: nat, stored: bool, verdict: Verdict)
    requires Inv(s) && CanMove(s, PutTry(w, n, stored, verdict)) && !Hazard(s, PutTry(w, n, stored, verdict))
    ensures Inv(PutTried(s, w, n, stored, verdict))
  {
    var wk, f, s' := s.workers[w], s.workers[w].f, PutTried(s, w, n, stored, verdict);
    PutKeepsFile(s, w, n, stored, verdict);
    PutKeepsWorker(s, w, n, stored, verdict);
    forall g | 0 <= g < |s.files| && Depends(s, g, wk.key) ensures s'.remote == s.remote {
      PutSparesOthers(s, w, n, stored, verdict, g);
    }
    StepKeepsInv(s, s', w, f, wk.key);
  }

  // ---- Moves of a downloading worker -----------------------------------------------

  /** Taking the lock, looking at the attributes, releasing the lock. */
  lemma DownFrameKeepsInv(s: State, w: nat)
    requires Inv(s) && CanMove(s, Go(w)) && s.workers[w].Down?
    requires !s.workers[w].downAt.RemStub? && !s.workers[w].downAt.RemOid?
    ensures Inv(DownGo(s, w))
  {
    assert FileOk(s, s.workers[w].f);
    NoWindowAt(s, w);
    StepKeepsInv(s, DownGo(s, w), w, s.workers[w].f, "");
  }

  /** Removing the two attributes. */
  lemma DownUnmarkKeepsInv(s: State, w: nat)
    requires Inv(s) && CanMove(s, Go(w)) && s.workers[w].Down?
    requires s.workers[w].downAt.RemStub? || s.workers[w].downAt.RemOid?
    ensures Inv(DownGo(s, w))
  {
    assert FileOk(s, s.workers[w].f);
    StepKeepsInv(s, DownGo(s, w), w, s.workers[w].f, "");
  }

  lemma DownGoKeepsInv(s: State, w: nat)
    requires Inv(s) && CanMove(s, Go(w)) && s.workers[w].Down?
    ensures Inv(DownGo(s, w))
  {
    if s.workers[w].downAt.RemStub? || s.workers[w].downAt.RemOid? {
      DownUnmarkKeepsInv(s, w);
    } else {
      DownFrameKeepsInv(s, w);
    }
  }

  lemma DownFaultKeepsInv(s: State, w: nat)
    requires Inv(s) && CanMove(s, Fault(w)) && s.workers[w].Down?
    ensures Inv(DownFault(s, w))
  {
    assert FileOk(s, s.workers[w].f);
    StepKeepsInv(s, DownFault(s, w), w, s.workers[w].f, "");
  }

  /** What a chunk does to the bytes of a file. */
  lemma ChunkGrows(data: Bytes, whole: Bytes, pos: nat, off: nat, n: nat)
    requires off <= pos <= |data| <= |whole| && off + n <= |whole| && pos + n <= |whole|
    requires pos == off ==> data[..off] == whole[..off]
    ensures var data' := WriteAt(data, pos, whole[off..off + n]);
            && pos + n <= |data'| <= |whole|
            && (pos == off ==> data'[..off + n] == whole[..off + n])
  {
    WriteAtPrefix(data, pos, whole[off..off + n]);
    if pos == off {
      assert whole[..off + n] == whole[..off] + whole[off..off + n];
    }
  }

  /** One more chunk of the object reaches the file. */
  lemma ChunkKeepsInv(s: State, w: nat, n: nat)
    requires Inv(s) && CanMove(s, GetChunk(w, n)) && !Hazard(s, GetChunk(w, n))
    ensures Inv(GotChunk(s, w, n))
  {
    var f := s.workers[w].f;
    assert FileOk(s, f) && WorkerOk(s, s.workers[w]);
    ChunkGrows(s.files[f].data, s.truth[f], s.workers[w].downAt.pos, s.workers[w].downAt.off, n);
    StepKeepsInv(s, GotChunk(s, w, n), w, f, "");
  }

  lemma GetEndKeepsInv(s: State, w: nat, verdict: Verdict)
    requires Inv(s) && CanMove(s, GetEnd(w, verdict))
    ensures Inv(GetEnded(s, w, verdict))
  {
    var wk, f, s' := s.workers[w], s.workers[w].f, GetEnded(s, w, verdict);
    assert FileOk(s, f) && WorkerOk(s, wk);
    if verdict.Good? {
      assert s.files[f].data[..|s.truth[f]|] == s.files[f].data;
      assert s.truth[f][..|s.truth[f]|] == s.truth[f];
    }
    StepKeepsInv(s, s', w, f, "");
  }

  // ---- The remaining moves ---------------------------------------------------------

  /** A worker may die anywhere except inside the rollback window; its lock stays behind. */
  lemma CrashKeepsInv(s: State, w: nat)
    requires Inv(s) && CanMove(s, Crash(w)) && !Hazard(s, Crash(w))
    ensures Inv(Apply(s, Crash(w)))
  {
    var f, s' := s.workers[w].f, Apply(s, Crash(w));
    assert FileOk(s, f);
    if Holding(s.workers[w]) {
      NotInWindow(s, w, f);
    } else if s.files[f].stub && s.files[f].oid.None? {
      var v :| 0 <= v < |s.workers| && AtUndoStub(s.workers[v], f);
      assert AtUndoStub(s'.workers[v], f);
    }
    StepKeepsInv(s, s', w, f, "");
  }

  lemma BeginKeepsInv(s: State, w: nat, wk: Worker)
    requires Inv(s) && w < |s.workers| && s.workers[w].Idle? && !Holding(wk)
    ensures Inv(Become(s, w, wk))
  {
    var s' := Become(s, w, wk);
    forall g | 0 <= g < |s.files| ensures FileOk(s', g) {
      assert FileOk(s, g);
      if s.files[g].stub && s.files[g].oid.None? {
        var v :| 0 <= v < |s.workers| && AtUndoStub(s.workers[v], g);
        assert AtUndoStub(s'.workers[v], g);
      }
    }
    forall v | 0 <= v < |s.workers| && Holding(s'.workers[v]) ensures WorkerOk(s', s'.workers[v]) {
      assert WorkerOk(s, s.workers[v]);
    }
  }

  lemma WriteKeepsInv(s: State, f: nat, data: Bytes)
    requires Inv(s) && CanMove(s, AppWrite(f, data))
    ensures Inv(Apply(s, AppWrite(f, data)))
  {
    var s' := Apply(s, AppWrite(f, data));
    forall g | 0 <= g < |s.files| ensures FileOk(s', g) {
      assert FileOk(s, g);
      if g != f && s.files[g].stub && s.files[g].oid.None? {
        var v :| 0 <= v < |s.workers| && AtUndoStub(s.workers[v], g);
        assert AtUndoStub(s'.workers[v], g);
      }
    }
    forall v | 0 <= v < |s.workers| && Holding(s'.workers[v]) ensures WorkerOk(s', s'.workers[v]) {
      assert WorkerOk(s, s.workers[v]);
      assert !HoldsFile(s.workers[v], f);
    }
  }

  /** Every careful move of every worker, and every write of the application, keeps the invariant. */
  lemma MoveKeepsInv(s: State, m: Move)
    requires Inv(s) && CanMove(s, m) && !Hazard(s, m)
    ensures Inv(Apply(s, m))
  {
    match m
    case BeginUp(w, f, key) => BeginKeepsInv(s, w, Up(f, key, UpAt.Lock));
    case BeginDown(w, f) => BeginKeepsInv(s, w, Down(f, DownAt.Lock));
    case Go(w) => if s.workers[w].Up? { UpGoKeepsInv(s, w); } else { DownGoKeepsInv(s, w); }
    case Fault(w) => if s.workers[w].Up? { UpFaultKeepsInv(s, w); } else { DownFaultKeepsInv(s, w); }
    case PutTry(w, n, stored, verdict) => PutKeepsInv(s, w, n, stored, verdict);
    case GetChunk(w, n) => ChunkKeepsInv(s, w, n);
    case GetEnd(w, verdict) => GetEndKeepsInv(s, w, verdict);
    case Crash(w) => CrashKeepsInv(s, w);
    case AppWrite(f, data) => WriteKeepsInv(s, f, data);
  }

  lemma {:induction false} RunKeepsInv(moves: seq<Move>, states: seq<State>, i: nat)
    requires IsRun(moves, states) && Careful(moves, states) && Initial(states[0]) && i < |states|
    ensures Inv(states[i])
  {
    if i == 0 {
      InitialInv(states[0]);
    } else {
      RunKeepsInv(moves, states, i - 1);
      assert Leads(moves, states, i - 1);
      MoveKeepsInv(states[i - 1], moves[i - 1]);
    }
  }
}
