/**
 `file.c` and `ops.c` as the program runs them: attribute calls that can fail, and the
 two transfer functions with every rollback, over the files and the object store. One
 worker runs at a time here; each system call and each request it makes is recorded as
 a move, and the record is proved to be a run of the tiering machine, where any number
 of workers interleave.
 */
module FileOps {
  import opened Bytes
  import opened Options
  import opened FileBytes
  import opened Tiering
  import S3 = S3Transfer

  datatype Xattr = Stub | Locked | ObjectId

  function HasAttr(file: File, x: Xattr): bool {
    match x
    case Stub => file.stub
    case Locked => file.locked
    case ObjectId => file.oid.Some?
  }

  function WithAttr(file: File, x: Xattr, value: Key): File {
    match x
    case Stub => file.(stub := true)
    case Locked => file.(locked := true)
    case ObjectId => file.(oid := Some(value))
  }

  function WithoutAttr(file: File, x: Xattr): File {
    match x
    case Stub => file.(stub := false)
    case Locked => file.(locked := false)
    case ObjectId => file.(oid := None)
  }

  /** The system calls of one upload or download. */
  datatype Call =
    | OpenCall | LockCall | ProbeCall | SetOidCall | SetStubCall | StatCall | TruncateCall | ExtendCall
    | UndoOidCall | UndoStubCall | UnlockCall | GetOidCall | RemStubCall | RemOidCall

  /** Everything one upload or download does not decide itself: which system calls fail for a reason
      of their own, whether its stream can be opened and closed, and what the store answers. */
  datatype World = World(failing: set<Call>, usable: bool, closes: bool,
                         puts: seq<S3.PutReply>, gets: seq<S3.GetReply>)
  {
    predicate Fails(call: Call) {
      call in failing
    }
  }

  /** These moves, all by worker `me`, lead through these states. */
  ghost predicate Ran(moves: seq<Move>, states: seq<State>, me: nat) {
    && |states| == |moves| + 1
    && forall i: nat :: i < |moves| ==> Made(moves, states, i, me)
  }

  ghost predicate Made(moves: seq<Move>, states: seq<State>, i: nat, me: nat) {
    Leads(moves, states, i) && !moves[i].AppWrite? && moves[i].w == me
  }

  // ---- What the stages of a call do to a file ----------------------------------------

  /** The attempts that the upload loop makes in this world. */
  predicate Sends(size: nat, retries: int, world: World, log: seq<S3.Attempt>) {
    if !world.usable then log == []
    else S3.Persistent(S3.Statuses(log), retries) && S3.Answered(size, world.puts, log)
  }

  predicate WentThrough(world: World, log: seq<S3.Attempt>) {
    world.usable && world.closes && log != [] && log[|log| - 1].status == S3.StatusOK
  }

  predicate Markable(file: File, world: World) {
    !world.Fails(SetOidCall) && file.oid.None? && !world.Fails(SetStubCall) && !file.stub
  }

  predicate Droppable(world: World) {
    !world.Fails(StatCall) && !world.Fails(TruncateCall) && !world.Fails(ExtendCall)
  }

  function Marked(file: File, key: Key, world: World): File {
    if world.Fails(SetOidCall) || file.oid.Some? then file
    else if world.Fails(SetStubCall) || file.stub then
      file.(oid := if world.Fails(UndoOidCall) then Some(key) else None)
    else file.(oid := Some(key), stub := true)
  }

  function RolledBack(file: File, world: World): File {
    file.(oid := if world.Fails(UndoOidCall) then file.oid else None,
          stub := if world.Fails(UndoStubCall) then file.stub else false)
  }

  function Dropped(file: File, world: World): File {
    if world.Fails(StatCall) then file
    else if world.Fails(TruncateCall) then RolledBack(file, world)
    else if world.Fails(ExtendCall) then RolledBack(file.(data := []), world)
    else file.(data := Zeros(|file.data|))
  }

  /** The attempts that the download loop makes in this world. */
  predicate Fetches(objects: map<Key, Bytes>, key: Key, retries: int, world: World, log: seq<S3.Fetch>) {
    if !world.usable then log == []
    else S3.Persistent(S3.FetchStatuses(log), retries) && S3.AllAnswered(objects, key, world.gets, log)
  }

  predicate CameThrough(world: World, log: seq<S3.Fetch>) {
    world.usable && world.closes && log != [] && log[|log| - 1].status == S3.StatusOK
  }

  predicate WorkerIs(s: State, w: nat, wk: Worker) {
    w < |s.workers| && s.workers[w] == wk
  }

  class FileSystem {
    var files: seq<File>
    const store: S3.ObjectStore
    const retries: int
    /** Which of the machine's workers this thread is. */
    const me: nat

    ghost var moves: seq<Move>
    ghost var states: seq<State>

    ghost function Now(): State
      reads this
      requires states != []
    {
      states[|states| - 1]
    }

    ghost predicate Recorded()
      reads this
    {
      && Ran(moves, states, me)
      && me < |Now().workers|
      && S3.INT_MIN <= retries <= S3.INT_MAX
    }

    /** The record is a run of the machine and ends where the files and the store are. */
    ghost predicate Valid()
      reads this, store
    {
      Recorded() && Now().files == files && Now().remote == store.objects
    }

    ghost predicate At(wk: Worker)
      reads this
    {
      Recorded() && Now().workers[me] == wk
    }

    constructor (store: S3.ObjectStore, files: seq<File>, retries: int, me: nat, ghost start: State)
      requires start.files == files && start.remote == store.objects && me < |start.workers|
      requires S3.INT_MIN <= retries <= S3.INT_MAX
      ensures Valid() && this.store == store && this.files == files && this.me == me
      ensures moves == [] && states == [start]
    {
      this.store := store;
      this.files := files;
      this.retries := retries;
      this.me := me;
      moves := [];
      states := [start];
    }

    ghost method Record(m: Move)
      requires Recorded() && CanMove(Now(), m) && !m.AppWrite? && m.w == me
      modifies this`moves, this`states
      ensures Recorded()
      ensures moves == old(moves) + [m] && states == old(states) + [Apply(old(Now()), m)]
    {
      ApplyKeepsShape(Now(), m);
      var moves', states' := moves + [m], states + [Apply(Now(), m)];
      forall i: nat | i < |moves'| ensures Made(moves', states', i, me) {
        assert i < |moves| ==> Made(moves, states, i, me);
      }
      moves, states := moves', states';
    }

    // ---- file.c ----------------------------------------------------------------------

    /** `set_xattr` with XATTR_CREATE: fails exactly when the attribute is there, or for another
        reason. */
    method SetXattr(f: nat, x: Xattr, value: Key, fails: bool) returns (r: int)
      requires f < |files|
      modifies this`files
      ensures r == if fails || HasAttr(old(files[f]), x) then -1 else 0
      ensures r == 0 ==> files == old(files)[f := WithAttr(old(files[f]), x, value)]
      ensures r == -1 ==> files == old(files)
    {
      if fails || HasAttr(files[f], x) {
        return -1;
      }
      files := files[f := WithAttr(files[f], x, value)];
      r := 0;
    }

    /** `get_xattr_tunable`: 1 stands for a missing attribute when that is not an error. */
    method GetXattrTunable(f: nat, x: Xattr, ignoreEnoattr: bool, fails: bool) returns (r: int)
      requires f < |files|
      ensures r == -1 <==> fails || (!HasAttr(files[f], x) && !ignoreEnoattr)
      ensures r == 0 <==> !fails && HasAttr(files[f], x)
      ensures r == 1 <==> !fails && !HasAttr(files[f], x) && ignoreEnoattr
    {
      if fails {
        return -1;
      }
      r := if HasAttr(files[f], x) then 0 else if ignoreEnoattr then 1 else -1;
    }

    /** `remove_xattr_tunable`. */
    method RemoveXattrTunable(f: nat, x: Xattr, ignoreEnoattr: bool, fails: bool) returns (r: int)
      requires f < |files|
      modifies this`files
      ensures r == if fails || (!HasAttr(old(files[f]), x) && !ignoreEnoattr) then -1 else 0
      ensures r == 0 ==> files == old(files)[f := WithoutAttr(old(files[f]), x)]
      ensures r == -1 ==> files == old(files)
    {
      if fails || (!HasAttr(files[f], x) && !ignoreEnoattr) {
        return -1;
      }
      files := files[f := WithoutAttr(files[f], x)];
      r := 0;
    }

    method RemoveXattr(f: nat, x: Xattr, fails: bool) returns (r: int)
      requires f < |files|
      modifies this`files
      ensures r == if fails || !HasAttr(old(files[f]), x) then -1 else 0
      ensures r == 0 ==> files == old(files)[f := WithoutAttr(old(files[f]), x)]
      ensures r == -1 ==> files == old(files)
    {
      r := RemoveXattrTunable(f, x, false, fails);
    }

    /** `try_lock_file`. */
    method TryLockFile(f: nat, fails: bool) returns (r: int)
      requires f < |files|
      modifies this`files
      ensures r == if fails || old(files[f]).locked then -1 else 0
      ensures r == 0 ==> files == old(files)[f := old(files[f]).(locked := true)]
      ensures r == -1 ==> files == old(files)
    {
      r := SetXattr(f, Locked, "", fails);
    }

    /** `unlock_file`. */
    method UnlockFile(f: nat, fails: bool) returns (r: int)
      requires f < |files|
      modifies this`files
      ensures r == if fails || !old(files[f]).locked then -1 else 0
      ensures r == 0 ==> files == old(files)[f := old(files[f]).(locked := false)]
      ensures r == -1 ==> files == old(files)
    {
      r := RemoveXattr(f, Locked, fails);
    }

    /** `is_local_file_fd`: 1 local, 0 remote, -1 error. */
    method IsLocalFile(f: nat, fails: bool) returns (r: int)
      requires f < |files|
      ensures r == if fails then -1 else if files[f].stub then 0 else 1
    {
      r := GetXattrTunable(f, Stub, true, fails);
    }

    /** fstat, for the size. */
    method FStat(f: nat, fails: bool) returns (r: int, size: nat)
      requires f < |files|
      ensures r == if fails then -1 else 0
      ensures size == |files[f].data|
    {
      r, size := if fails then -1 else 0, |files[f].data|;
    }

    method FTruncate(f: nat, size: nat, fails: bool) returns (r: int)
      requires f < |files|
      modifies this`files
      ensures r == if fails then -1 else 0
      ensures r == 0 ==> files == old(files)[f := old(files[f]).(data := Resize(old(files[f]).data, size))]
      ensures r == -1 ==> files == old(files)
    {
      if fails {
        return -1;
      }
      files := files[f := files[f].(data := Resize(files[f].data, size))];
      r := 0;
    }

    // ---- Recording the requests of a transfer ------------------------------------------

    /** One request of an upload loop is one PutTry move. */
    ghost method RecordPut(f: nat, key: Key, before: seq<S3.Attempt>, attempt: S3.Attempt, verdict: Verdict,
                           remote0: map<Key, Bytes>)
      requires At(Up(f, key, UpAt.Put(S3.Consumed(before)))) && f < |Now().files|
      requires S3.PossibleLog(Now().files[f].data, before + [attempt]) && S3.PossibleLog(Now().files[f].data, before)
      requires verdict == Good ==> attempt.status == S3.StatusOK
      requires Now().remote == S3.AfterAttempts(remote0, key, Now().files[f].data, before)
      modifies this`moves, this`states
      ensures At(Up(f, key, match verdict
                            case Good => UpAt.SetOid
                            case Retry => UpAt.Put(S3.Consumed(before + [attempt]))
                            case GiveUp => UpAt.Unlock(false)))
      ensures old(states) < states && Now().files == old(Now().files)
      ensures Now().remote == S3.AfterAttempts(remote0, key, Now().files[f].data, before + [attempt])
    {
      assert (before + [attempt])[..|before|] == before;
      Record(PutTry(me, attempt.sent, attempt.stored, verdict));
    }

    /** The requests of an upload loop. */
    ghost method RecordPuts(f: nat, key: Key, log: seq<S3.Attempt>, ret: int)
      requires At(Up(f, key, UpAt.Put(0))) && f < |Now().files|
      requires S3.PossibleLog(Now().files[f].data, log)
      requires ret == 0 || ret == -1
      requires ret == 0 ==> log != [] && log[|log| - 1].status == S3.StatusOK
      modifies this`moves, this`states
      ensures At(Up(f, key, if ret == 0 then UpAt.SetOid else UpAt.Unlock(false)))
      ensures old(states) < states && Now().files == old(Now().files)
      ensures Now().remote == S3.AfterAttempts(old(Now().remote), key, old(Now().files[f].data), log)
    {
      if log == [] {
        Record(PutTry(me, 0, false, GiveUp));
        return;
      }
      var data, remote0, last := Now().files[f].data, Now().remote, |log| - 1;
      var i := 0;
      while i < last
        invariant i <= last && Recorded() && Now().files == old(Now().files) && old(states) <= states
        invariant S3.PossibleLog(data, log[..i])
        invariant At(Up(f, key, UpAt.Put(S3.Consumed(log[..i]))))
        invariant Now().remote == S3.AfterAttempts(remote0, key, data, log[..i])
      {
        PossiblePrefix(data, log, i + 1);
        assert log[..i + 1] == log[..i] + [log[i]];
        RecordPut(f, key, log[..i], log[i], Retry, remote0);
        i := i + 1;
      }
      assert log == log[..last] + [log[last]];
      RecordPut(f, key, log[..last], log[last], if ret == 0 then Good else GiveUp, remote0);
    }

    // ---- ops.c: the system calls of upload_file, each with its record ------------------

    /** Record what the machine calls this outcome. */
    ghost method Note(succeeded: bool)
      requires Recorded() && CanMove(Now(), Go(me))
      modifies this`moves, this`states
      ensures Recorded() && states == old(states) + [Apply(old(Now()), if succeeded then Go(me) else Fault(me))]
    {
      Record(if succeeded then Go(me) else Fault(me));
    }

    method LockForUpload(f: nat, ghost key: Key, world: World) returns (r: int)
      requires Valid() && f < |files| && At(Up(f, key, UpAt.Lock))
      modifies this`files, this`moves, this`states
      ensures Valid() && old(states) < states && |states| == |old(states)| + 1
      ensures At(if r == 0 then Up(f, key, UpAt.Probe) else Idle)
      ensures r == if world.Fails(LockCall) || old(files[f]).locked then -1 else 0
      ensures files == if r == 0 then old(files)[f := old(files[f]).(locked := true)] else old(files)
    {
      r := TryLockFile(f, world.Fails(LockCall));
      Note(r == 0);
    }

    method ProbeForUpload(f: nat, ghost key: Key, world: World) returns (local: int)
      requires Valid() && f < |files| && At(Up(f, key, UpAt.Probe))
      modifies this`moves, this`states
      ensures Valid() && old(states) < states
      ensures At(Up(f, key, if local == 0 then UpAt.Unlock(true) else UpAt.Put(0)))
      ensures local == if world.Fails(ProbeCall) then -1 else if files[f].stub then 0 else 1
    {
      local := IsLocalFile(f, world.Fails(ProbeCall));
      Note(local != -1);
    }

    method SetObjectId(f: nat, key: Key, world: World) returns (r: int)
      requires Valid() && f < |files| && At(Up(f, key, UpAt.SetOid))
      modifies this`files, this`moves, this`states
      ensures Valid() && old(states) < states
      ensures At(Up(f, key, if r == 0 then UpAt.SetStub else UpAt.Unlock(false)))
      ensures r == if world.Fails(SetOidCall) || old(files[f]).oid.Some? then -1 else 0
      ensures files == if r == 0 then old(files)[f := old(files[f]).(oid := Some(key))] else old(files)
    {
      r := SetXattr(f, ObjectId, key, world.Fails(SetOidCall));
      Note(r == 0);
    }

    method SetStub(f: nat, ghost key: Key, world: World) returns (r: int)
      requires Valid() && f < |files| && At(Up(f, key, UpAt.SetStub))
      modifies this`files, this`moves, this`states
      ensures Valid() && old(states) < states
      ensures At(Up(f, key, if r == 0 then UpAt.Stat else UpAt.UndoOid(false)))
      ensures r == if world.Fails(SetStubCall) || old(files[f]).stub then -1 else 0
      ensures files == if r == 0 then old(files)[f := old(files[f]).(stub := true)] else old(files)
    {
      r := SetXattr(f, Stub, "", world.Fails(SetStubCall));
      Note(r == 0);
    }

    /** A rollback removes object_id first; a failure is ignored. */
    method UndoObjectId(f: nat, ghost key: Key, ghost stubToo: bool, world: World)
      requires Valid() && f < |files| && At(Up(f, key, UpAt.UndoOid(stubToo)))
      modifies this`files, this`moves, this`states
      ensures Valid() && old(states) < states
      ensures At(Up(f, key, if stubToo then UpAt.UndoStub else UpAt.Unlock(false)))
      ensures files == if world.Fails(UndoOidCall) then old(files) else old(files)[f := old(files[f]).(oid := None)]
    {
      var r := RemoveXattr(f, ObjectId, world.Fails(UndoOidCall));
      Note(!world.Fails(UndoOidCall));
    }

    method UndoStub(f: nat, ghost key: Key, world: World)
      requires Valid() && f < |files| && At(Up(f, key, UpAt.UndoStub))
      modifies this`files, this`moves, this`states
      ensures Valid() && old(states) < states
      ensures At(Up(f, key, UpAt.Unlock(false)))
      ensures files == if world.Fails(UndoStubCall) then old(files) else old(files)[f := old(files[f]).(stub := false)]
    {
      var r := RemoveXattr(f, Stub, world.Fails(UndoStubCall));
      Note(!world.Fails(UndoStubCall));
    }

    method StatForUpload(f: nat, ghost key: Key, world: World) returns (r: int, size: nat)
      requires Valid() && f < |files| && At(Up(f, key, UpAt.Stat))
      modifies this`moves, this`states
      ensures Valid() && old(states) < states
      ensures r == if world.Fails(StatCall) then -1 else 0
      ensures size == |files[f].data|
      ensures At(Up(f, key, if r == 0 then UpAt.Trunc(size) else UpAt.Unlock(false)))
    {
      r, size := FStat(f, world.Fails(StatCall));
      Note(r == 0);
    }

    method TruncateToNothing(f: nat, ghost key: Key, ghost size: nat, world: World) returns (r: int)
      requires Valid() && f < |files| && At(Up(f, key, UpAt.Trunc(size)))
      modifies this`files, this`moves, this`states
      ensures Valid() && old(states) < states
      ensures At(Up(f, key, if r == 0 then UpAt.Extend(size) else UpAt.UndoOid(true)))
      ensures r == if world.Fails(TruncateCall) then -1 else 0
      ensures files == if r == 0 then old(files)[f := old(files[f]).(data := [])] else old(files)
    {
      r := FTruncate(f, 0, world.Fails(TruncateCall));
      Note(r == 0);
    }

    method ExtendToSize(f: nat, ghost key: Key, size: nat, world: World) returns (r: int)
      requires Valid() && f < |files| && At(Up(f, key, UpAt.Extend(size)))
      modifies this`files, this`moves, this`states
      ensures Valid() && old(states) < states
      ensures At(Up(f, key, if r == 0 then UpAt.Unlock(true) else UpAt.UndoOid(true)))
      ensures r == if world.Fails(ExtendCall) then -1 else 0
      ensures files == if r == 0 then old(files)[f := old(files[f]).(data := Resize(old(files[f]).data, size))]
                       else old(files)
    {
      r := FTruncate(f, size, world.Fails(ExtendCall));
      Note(r == 0);
    }

    /** Every exit with the lock held: unlock, then close. */
    method Leave(f: nat, ghost wk: Worker, world: World)
      requires Valid() && At(wk) && f < |files| && files[f].locked
      requires (wk.Up? && wk.f == f && wk.upAt.Unlock?) || (wk.Down? && wk.f == f && wk.downAt.Unlock?)
      modifies this`files, this`moves, this`states
      ensures Valid() && At(Idle)
      ensures old(states) < states && |states| == |old(states)| + 1
      ensures files == old(files)[f := old(files[f]).(locked := world.Fails(UnlockCall))]
    {
      var r := UnlockFile(f, world.Fails(UnlockCall));
      Note(r == 0);
    }

    // ---- ops.c: upload_file ------------------------------------------------------------

    /** Send the bytes: the requests of `s3_upload`. */
    method SendData(f: nat, key: Key, world: World) returns (r: int, log: seq<S3.Attempt>)
      requires Valid() && f < |files| && At(Up(f, key, UpAt.Put(0)))
      modifies this`moves, this`states, store
      ensures Valid() && old(states) < states
      ensures At(Up(f, key, if r == 0 then UpAt.SetOid else UpAt.Unlock(false)))
      ensures Sends(|files[f].data|, retries, world, log)
      ensures r == if WentThrough(world, log) then 0 else -1
      ensures S3.PossibleLog(files[f].data, log)
      ensures store.objects == S3.AfterAttempts(old(store.objects), key, files[f].data, log)
      ensures r == 0 ==> key in store.objects && store.objects[key] == files[f].data[S3.Consumed(log[..|log| - 1])..]
    {
      r, log := S3.Upload(store, files[f].data, key, retries, world.usable, world.closes, world.puts);
      RecordPuts(f, key, log, r);
    }

    /** From the stored object to the stub: both attributes. */
    method MarkRemote(f: nat, key: Key, world: World) returns (r: int)
      requires Valid() && f < |files| && At(Up(f, key, UpAt.SetOid))
      modifies this`files, this`moves, this`states
      ensures Valid() && old(states) < states
      ensures At(Up(f, key, if r == 0 then UpAt.Stat else UpAt.Unlock(false)))
      ensures r == if Markable(old(files[f]), world) then 0 else -1
      ensures files == old(files)[f := Marked(old(files[f]), key, world)]
    {
      r := SetObjectId(f, key, world);
      if r == -1 {
        return;
      }
      r := SetStub(f, key, world);
      if r == -1 {
        UndoObjectId(f, key, false, world);
      }
    }

    /** The rollback of a file already marked remote. */
    method RollBack(f: nat, ghost key: Key, world: World)
      requires Valid() && f < |files| && At(Up(f, key, UpAt.UndoOid(true)))
      modifies this`files, this`moves, this`states
      ensures Valid() && old(states) < states
      ensures At(Up(f, key, UpAt.Unlock(false)))
      ensures files == old(files)[f := RolledBack(old(files[f]), world)]
    {
      UndoObjectId(f, key, true, world);
      UndoStub(f, key, world);
    }

    /** Both truncations, each with its rollback. */
    method MakeSparse(f: nat, ghost key: Key, size: nat, world: World) returns (r: int)
      requires Valid() && f < |files| && At(Up(f, key, UpAt.Trunc(size)))
      modifies this`files, this`moves, this`states
      ensures Valid() && old(states) < states
      ensures At(Up(f, key, UpAt.Unlock(r == 0)))
      ensures r == if world.Fails(TruncateCall) || world.Fails(ExtendCall) then -1 else 0
      ensures files == old(files)[f :=
        if world.Fails(TruncateCall) then RolledBack(old(files[f]), world)
        else if world.Fails(ExtendCall) then RolledBack(old(files[f]).(data := []), world)
        else old(files[f]).(data := Zeros(size))]
    {
      r := TruncateToNothing(f, key, size, world);
      if r == -1 {
        RollBack(f, key, world);
        return;
      }
      r := ExtendToSize(f, key, size, world);
      if r == -1 {
        RollBack(f, key, world);
      }
      assert Resize([], size) == Zeros(size);
    }

    /** From the stub to the sparse file. */
    method DropData(f: nat, ghost key: Key, world: World) returns (r: int)
      requires Valid() && f < |files| && At(Up(f, key, UpAt.Stat))
      modifies this`files, this`moves, this`states
      ensures Valid() && old(states) < states
      ensures At(Up(f, key, UpAt.Unlock(r == 0)))
      ensures r == if Droppable(world) then 0 else -1
      ensures files == old(files)[f := Dropped(old(files[f]), world)]
    {
      var size;
      r, size := StatForUpload(f, key, world);
      if r == 0 {
        r := MakeSparse(f, key, size, world);
      }
    }

    /** The whole transfer of a file found local, under the lock. */
    method Transfer(f: nat, key: Key, world: World) returns (r: int, log: seq<S3.Attempt>)
      requires Valid() && f < |files| && At(Up(f, key, UpAt.Put(0)))
      modifies this`files, this`moves, this`states, store
      ensures Valid() && old(states) < states
      ensures At(Up(f, key, UpAt.Unlock(r == 0)))
      ensures var file := old(files[f]);
              && Sends(|file.data|, retries, world, log) && S3.PossibleLog(file.data, log)
              && store.objects == S3.AfterAttempts(old(store.objects), key, file.data, log)
              && r == (if WentThrough(world, log) && Markable(file, world) && Droppable(world) then 0 else -1)
              && (WentThrough(world, log) ==>
                    key in store.objects && store.objects[key] == file.data[S3.Consumed(log[..|log| - 1])..])
              && files == old(files)[f :=
                   if !WentThrough(world, log) then file
                   else if !Markable(file, world) then Marked(file, key, world)
                   else Dropped(Marked(file, key, world), world)]
    {
      r, log := SendData(f, key, world);
      if r == -1 {
        return;
      }
      r := MarkRemote(f, key, world);
      if r == -1 {
        return;
      }
      r := DropData(f, key, world);
    }

    /** `upload_file` from the location probe on, under the lock. */
    method UploadLocked(f: nat, key: Key, world: World) returns (r: int, log: seq<S3.Attempt>)
      requires Valid() && f < |files| && files[f].locked && At(Up(f, key, UpAt.Probe))
      modifies this`files, this`moves, this`states, store
      ensures Valid() && At(Idle)
      ensures old(states) < states && |states| >= |old(states)| + 2
      ensures r == 0 || r == -1
      ensures r == 0 <==> WorkerIs(states[|states| - 2], me, Up(f, key, UpAt.Unlock(true)))
      ensures var file := old(files[f]);
              if file.stub && !world.Fails(ProbeCall) then
                && r == 0 && log == [] && store.objects == old(store.objects)
                && files == old(files)[f := file.(locked := world.Fails(UnlockCall))]
              else
                && Sends(|file.data|, retries, world, log) && S3.PossibleLog(file.data, log)
                && store.objects == S3.AfterAttempts(old(store.objects), key, file.data, log)
                && (r == 0 <==> WentThrough(world, log) && Markable(file, world) && Droppable(world))
                && (WentThrough(world, log) ==>
                      key in store.objects && store.objects[key] == file.data[S3.Consumed(log[..|log| - 1])..])
                && files == old(files)[f := (
                     if !WentThrough(world, log) then file
                     else if !Markable(file, world) then Marked(file, key, world)
                     else Dropped(Marked(file, key, world), world)).(locked := world.Fails(UnlockCall))]
    {
      var local := ProbeForUpload(f, key, world);
      if local == 0 {
        Leave(f, Up(f, key, UpAt.Unlock(true)), world);
        return 0, [];
      }
      r, log := Transfer(f, key, world);
      Leave(f, Up(f, key, UpAt.Unlock(r == 0)), world);
    }

    /** The call opens the file and gets its lock. */
    ghost predicate Enters(f: nat, world: World)
      reads this
    {
      !world.Fails(OpenCall) && f < |files| && !world.Fails(LockCall) && !files[f].locked
    }

    /** `upload_file`. Whatever fails, the call is a run of the machine by this worker alone, ends
        outside the file, and returns 0 exactly when it went through the success exit. It does that
        when it gets the lock and the file is remote already, or when the upload goes through, the file
        has neither attribute, and no call that has to succeed fails. */
    method UploadFile(f: nat, key: Key, world: World) returns (r: int, log: seq<S3.Attempt>)
      requires Valid() && At(Idle)
      modifies this`files, this`moves, this`states, store
      ensures Valid() && At(Idle) && (r == 0 || r == -1)
      ensures old(states) <= states && |files| == |old(files)|
      ensures r == 0 <==> |states| > |old(states)| && WorkerIs(states[|states| - 2], me, Up(f, key, UpAt.Unlock(true)))
      // no lock, no effect
      ensures !old(Enters(f, world)) ==> r == -1 && files == old(files) && store.objects == old(store.objects)
      // already remote
      ensures old(Enters(f, world)) && old(files)[f].stub && !world.Fails(ProbeCall) ==>
                && r == 0 && store.objects == old(store.objects)
                && files == old(files)[f := old(files)[f].(locked := world.Fails(UnlockCall))]
      // local, or taken for local
      ensures old(Enters(f, world)) && (!old(files)[f].stub || world.Fails(ProbeCall)) ==>
                var file := old(files)[f];
                && Sends(|file.data|, retries, world, log) && S3.PossibleLog(file.data, log)
                && store.objects == S3.AfterAttempts(old(store.objects), key, file.data, log)
                && files == old(files)[f := files[f]] && files[f].locked == world.Fails(UnlockCall)
                && (r == 0 <==>
                      && WentThrough(world, log) && file.oid.None? && !file.stub
                      && world.failing !! {SetOidCall, SetStubCall, StatCall, TruncateCall, ExtendCall})
      ensures old(Enters(f, world)) && (!old(files)[f].stub || world.Fails(ProbeCall)) && r == 0 ==>
                var file := old(files)[f];
                && files[f] == File(Zeros(|file.data|), true, world.Fails(UnlockCall), Some(key))
                && key in store.objects && store.objects[key] == file.data[S3.Consumed(log[..|log| - 1])..]
      // failed
      ensures old(Enters(f, world)) && r == -1 ==>
                var file := old(files)[f];
                && (files[f].data == file.data || (world.Fails(ExtendCall) && files[f].data == []))
                && (world.failing !! {StatCall, UndoOidCall, UndoStubCall} ==>
                      files[f].oid == file.oid && files[f].stub == file.stub)
                && (WentThrough(world, log) && Markable(file, world) && world.Fails(StatCall) ==>
                      files[f] == File(file.data, true, world.Fails(UnlockCall), Some(key)))
    {
      r, log := -1, [];
      if world.Fails(OpenCall) || f >= |files| {
        return;
      }
      Record(BeginUp(me, f, key));

      r := LockForUpload(f, key, world);
      if r == 0 {
        r, log := UploadLocked(f, key, world);
      }
    }

    // ---- ops.c: download_file ----------------------------------------------------------

    /** In the record, the files are `files0` but for the bytes of `f`. */
    ghost predicate Holds(files0: seq<File>, f: nat, data: Bytes)
      reads this
      requires states != [] && f < |files0|
    {
      Now().files == files0[f := files0[f].(data := data)]
    }

    /** One chunk written is one GetChunk move. */
    ghost method RecordChunk(f: nat, key: Key, pos: nat, off: nat, n: nat, whole: Bytes, files0: seq<File>, data: Bytes)
      requires At(Down(f, DownAt.Get(key, pos + off, off))) && f < |files0| && pos <= |data|
      requires key in Now().remote && Now().remote[key] == whole && n > 0 && off + n <= |whole|
      requires Holds(files0, f, WriteAt(data, pos, whole[..off]))
      modifies this`moves, this`states
      ensures At(Down(f, DownAt.Get(key, pos + off + n, off + n)))
      ensures old(states) <= states && Now().remote == old(Now().remote)
      ensures Holds(files0, f, WriteAt(data, pos, whole[..off + n]))
    {
      ChunkMade(Now(), me, f, key, pos, off, n, whole, files0, data);
      Record(GetChunk(me, n));
    }

    /** The chunks of one request, from number `i` on, after `off` bytes. */
    ghost method RecordChunks(f: nat, key: Key, pos: nat, written: seq<nat>, i: nat, off: nat,
                              whole: Bytes, files0: seq<File>, data: Bytes)
      requires i <= |written| && off == S3.Sum(written[..i]) <= S3.Sum(written) <= |whole|
      requires f < |files0| && pos <= |data|
      requires At(Down(f, DownAt.Get(key, pos + off, off)))
      requires key in Now().remote && Now().remote[key] == whole
      requires forall j :: 0 <= j < |written| ==> written[j] > 0
      requires Holds(files0, f, WriteAt(data, pos, whole[..off]))
      modifies this`moves, this`states
      ensures At(Down(f, DownAt.Get(key, pos + S3.Sum(written), S3.Sum(written))))
      ensures old(states) <= states && Now().remote == old(Now().remote)
      ensures Holds(files0, f, WriteAt(data, pos, whole[..S3.Sum(written)]))
      decreases |written| - i
    {
      if i == |written| {
        assert written[..i] == written;
      } else {
        SumPrefix(written, i);
        var n := written[i];
        RecordChunk(f, key, pos, off, n, whole, files0, data);
        RecordChunks(f, key, pos, written, i + 1, off + n, whole, files0, data);
      }
    }

    /** One request: its chunks, then its end. */
    ghost method RecordFetch(f: nat, key: Key, before: seq<S3.Fetch>, fetch: S3.Fetch, verdict: Verdict,
                             whole: Bytes, files0: seq<File>, data: Bytes)
      requires At(Down(f, DownAt.Get(key, S3.Arrived(before), 0))) && f < |files0|
      requires key in Now().remote && Now().remote[key] == whole
      requires S3.PossibleFetches(whole, before) && S3.PossibleFetch(whole, fetch)
      requires verdict == Good ==> fetch.status == S3.StatusOK
      requires Holds(files0, f, WriteAt(data, 0, S3.Stream(whole, before)))
      modifies this`moves, this`states
      ensures At(Down(f, match verdict
                         case Good => DownAt.RemStub
                         case Retry => DownAt.Get(key, S3.Arrived(before + [fetch]), 0)
                         case GiveUp => DownAt.Unlock(false)))
      ensures old(states) < states && Now().remote == old(Now().remote)
      ensures S3.PossibleFetches(whole, before + [fetch])
      ensures Holds(files0, f, WriteAt(data, 0, S3.Stream(whole, before + [fetch])))
    {
      var sofar := WriteAt(data, 0, S3.Stream(whole, before));
      WriteAtNothing(sofar, S3.Arrived(before));
      assert whole[..0] == [];
      RecordChunks(f, key, S3.Arrived(before), fetch.written, 0, 0, whole, files0, sofar);
      S3.StreamSnoc(whole, before, fetch, data);
      Record(GetEnd(me, verdict));
    }

    /** The requests of a download loop. */
    ghost method RecordGets(f: nat, key: Key, log: seq<S3.Fetch>, ret: int)
      requires At(Down(f, DownAt.Get(key, 0, 0))) && f < |Now().files|
      requires key in Now().remote && S3.PossibleFetches(Now().remote[key], log)
      requires ret == 0 || ret == -1
      requires ret == 0 ==> log != [] && log[|log| - 1].status == S3.StatusOK
      modifies this`moves, this`states
      ensures At(Down(f, if ret == 0 then DownAt.RemStub else DownAt.Unlock(false)))
      ensures old(states) < states && Now().remote == old(Now().remote)
      ensures Holds(old(Now().files), f, WriteAt(old(Now().files[f]).data, 0, S3.Stream(old(Now().remote[key]), log)))
    {
      var files0, data, whole := Now().files, Now().files[f].data, Now().remote[key];
      WriteAtNothing(data, 0);
      if log == [] {
        Record(GetEnd(me, GiveUp));
        return;
      }
      RecordGetsFrom(f, key, log, 0, ret, whole, files0, data);
    }

    /** The requests from number `i` on. */
    ghost method RecordGetsFrom(f: nat, key: Key, log: seq<S3.Fetch>, i: nat, ret: int,
                                whole: Bytes, files0: seq<File>, data: Bytes)
      requires i < |log| && f < |files0| && S3.PossibleFetches(whole, log) && S3.PossibleFetches(whole, log[..i])
      requires At(Down(f, DownAt.Get(key, S3.Arrived(log[..i]), 0)))
      requires key in Now().remote && Now().remote[key] == whole
      requires ret == 0 ==> log[|log| - 1].status == S3.StatusOK
      requires Holds(files0, f, WriteAt(data, 0, S3.Stream(whole, log[..i])))
      modifies this`moves, this`states
      ensures At(Down(f, if ret == 0 then DownAt.RemStub else DownAt.Unlock(false)))
      ensures old(states) < states && Now().remote == old(Now().remote)
      ensures Holds(files0, f, WriteAt(data, 0, S3.Stream(whole, log)))
      decreases |log| - i
    {
      assert log[..i + 1] == log[..i] + [log[i]];
      if i + 1 < |log| {
        RecordFetch(f, key, log[..i], log[i], Retry, whole, files0, data);
        RecordGetsFrom(f, key, log, i + 1, ret, whole, files0, data);
      } else {
        assert log[..i + 1] == log;
        RecordFetch(f, key, log[..i], log[i], if ret == 0 then Good else GiveUp, whole, files0, data);
      }
    }

    /** Requests for an object that is not there. */
    ghost method RecordMissing(f: nat, key: Key)
      requires At(Down(f, DownAt.Get(key, 0, 0))) && f < |Now().files|
      modifies this`moves, this`states
      ensures At(Down(f, DownAt.Unlock(false))) && old(states) < states
      ensures Now().files == old(Now().files) && Now().remote == old(Now().remote)
    {
      Record(GetEnd(me, GiveUp));
    }

    method LockForDownload(f: nat, world: World) returns (r: int)
      requires Valid() && f < |files| && At(Down(f, DownAt.Lock))
      modifies this`files, this`moves, this`states
      ensures Valid() && old(states) < states && |states| == |old(states)| + 1
      ensures At(if r == 0 then Down(f, DownAt.Probe) else Idle)
      ensures r == if world.Fails(LockCall) || old(files[f]).locked then -1 else 0
      ensures files == if r == 0 then old(files)[f := old(files[f]).(locked := true)] else old(files)
    {
      r := TryLockFile(f, world.Fails(LockCall));
      Note(r == 0);
    }

    method ProbeForDownload(f: nat, world: World) returns (local: int)
      requires Valid() && f < |files| && At(Down(f, DownAt.Probe))
      modifies this`moves, this`states
      ensures Valid() && old(states) < states
      ensures At(Down(f, if local == 0 then DownAt.GetOid else DownAt.Unlock(true)))
      ensures local == if world.Fails(ProbeCall) then -1 else if files[f].stub then 0 else 1
    {
      local := IsLocalFile(f, world.Fails(ProbeCall));
      Note(local != -1);
    }

    /** `get_xattr` of object_id. */
    method ReadObjectId(f: nat, world: World) returns (r: int, key: Key)
      requires Valid() && f < |files| && At(Down(f, DownAt.GetOid))
      modifies this`moves, this`states
      ensures Valid() && old(states) < states
      ensures r == if world.Fails(GetOidCall) || files[f].oid.None? then -1 else 0
      ensures r == 0 ==> files[f].oid == Some(key)
      ensures At(Down(f, if r == 0 then DownAt.Get(key, 0, 0) else DownAt.Unlock(false)))
    {
      key := "";
      r := GetXattrTunable(f, ObjectId, false, world.Fails(GetOidCall));
      if r == 0 {
        key := files[f].oid.value;
      }
      Note(r == 0);
    }

    /** Fetch the bytes: the requests of `s3_download`. */
    method FetchData(f: nat, key: Key, world: World) returns (r: int, log: seq<S3.Fetch>)
      requires Valid() && f < |files| && At(Down(f, DownAt.Get(key, 0, 0)))
      modifies this`files, this`moves, this`states
      ensures Valid() && old(states) < states
      ensures At(Down(f, if r == 0 then DownAt.RemStub else DownAt.Unlock(false)))
      ensures Fetches(store.objects, key, retries, world, log)
      ensures r == if CameThrough(world, log) then 0 else -1
      ensures |files| == |old(files)| && files == old(files)[f := old(files[f]).(data := files[f].data)]
      ensures key !in store.objects ==> r == -1 && files[f].data == old(files[f]).data
      ensures key in store.objects ==>
                && S3.PossibleFetches(store.objects[key], log)
                && files[f].data == WriteAt(old(files[f]).data, 0, S3.Stream(store.objects[key], log))
    {
      var newData;
      r, newData, log := S3.Download(store, files[f].data, key, retries, world.usable, world.closes, world.gets);
      if key in Now().remote {
        RecordGets(f, key, log, r);
      } else {
        RecordMissing(f, key);
      }
      files := files[f := files[f].(data := newData)];
    }

    method RemoveStub(f: nat, world: World) returns (r: int)
      requires Valid() && f < |files| && At(Down(f, DownAt.RemStub))
      modifies this`files, this`moves, this`states
      ensures Valid() && old(states) < states
      ensures At(Down(f, if r == 0 then DownAt.RemOid else DownAt.Unlock(false)))
      ensures r == if world.Fails(RemStubCall) || !old(files[f]).stub then -1 else 0
      ensures files == if r == 0 then old(files)[f := old(files[f]).(stub := false)] else old(files)
    {
      r := RemoveXattr(f, Stub, world.Fails(RemStubCall));
      Note(r == 0);
    }

    method RemoveObjectId(f: nat, world: World) returns (r: int)
      requires Valid() && f < |files| && At(Down(f, DownAt.RemOid))
      modifies this`files, this`moves, this`states
      ensures Valid() && old(states) < states
      ensures At(Down(f, DownAt.Unlock(r == 0)))
      ensures r == if world.Fails(RemOidCall) || old(files[f]).oid.None? then -1 else 0
      ensures files == if r == 0 then old(files)[f := old(files[f]).(oid := None)] else old(files)
    {
      r := RemoveXattr(f, ObjectId, world.Fails(RemOidCall));
      Note(r == 0);
    }

    /** Both removals, once the bytes are back. */
    method Unmark(f: nat, world: World) returns (r: int)
      requires Valid() && f < |files| && files[f].stub && files[f].oid.Some? && At(Down(f, DownAt.RemStub))
      modifies this`files, this`moves, this`states
      ensures Valid() && old(states) < states
      ensures At(Down(f, DownAt.Unlock(r == 0)))
      ensures r == if world.Fails(RemStubCall) || world.Fails(RemOidCall) then -1 else 0
      ensures files == old(files)[f := old(files[f]).(
        stub := world.Fails(RemStubCall), oid := if r == 0 then None else old(files[f]).oid)]
    {
      r := RemoveStub(f, world);
      if r == 0 {
        r := RemoveObjectId(f, world);
      }
    }

    /** The whole transfer of a file found remote, under the lock. */
    method BringBack(f: nat, world: World) returns (r: int, log: seq<S3.Fetch>)
      requires Valid() && f < |files| && files[f].stub && At(Down(f, DownAt.GetOid))
      modifies this`files, this`moves, this`states
      ensures Valid() && old(states) < states
      ensures At(Down(f, DownAt.Unlock(r == 0)))
      ensures |files| == |old(files)| && files[f].locked == old(files[f]).locked
      ensures BroughtBack(old(files), files, f, store.objects, retries, world, log, r)
    {
      var key;
      log := [];
      r, key := ReadObjectId(f, world);
      if r == 0 {
        r, log := FetchData(f, key, world);
        if r == 0 {
          r := Unmark(f, world);
        }
      }
    }

    /** `download_file` from the location probe on, under the lock. */
    method DownloadLocked(f: nat, world: World) returns (r: int, log: seq<S3.Fetch>)
      requires Valid() && f < |files| && files[f].locked && At(Down(f, DownAt.Probe))
      modifies this`files, this`moves, this`states
      ensures Valid() && At(Idle) && (r == 0 || r == -1)
      ensures old(states) < states && |states| >= |old(states)| + 2 && |files| == |old(files)|
      ensures r == 0 <==> WorkerIs(states[|states| - 2], me, Down(f, DownAt.Unlock(true)))
      ensures files[f].locked == world.Fails(UnlockCall)
      ensures if !old(files)[f].stub || world.Fails(ProbeCall)
              then r == 0 && files == old(files)[f := old(files)[f].(locked := world.Fails(UnlockCall))]
              else BroughtBack(old(files), files, f, store.objects, retries, world, log, r)
    {
      log := [];
      var local := ProbeForDownload(f, world);
      if local != 0 {
        Leave(f, Down(f, DownAt.Unlock(true)), world);
        return 0, [];
      }
      r, log := BringBack(f, world);
      Leave(f, Down(f, DownAt.Unlock(r == 0)), world);
    }

    /** `download_file`. It returns 0 exactly when it gets the lock and the file is local, or is taken
        for local because the probe fails, or the name can be read, the download goes through and both
        attributes can be removed. */
    method DownloadFile(f: nat, world: World) returns (r: int, log: seq<S3.Fetch>)
      requires Valid() && At(Idle)
      modifies this`files, this`moves, this`states
      ensures Valid() && At(Idle) && (r == 0 || r == -1)
      ensures old(states) <= states && |files| == |old(files)|
      ensures r == 0 <==> |states| > |old(states)| && WorkerIs(states[|states| - 2], me, Down(f, DownAt.Unlock(true)))
      ensures !old(Enters(f, world)) ==> r == -1 && files == old(files)
      ensures old(Enters(f, world)) ==> files[f].locked == world.Fails(UnlockCall)
      ensures old(Enters(f, world)) && (!old(files)[f].stub || world.Fails(ProbeCall)) ==>
                r == 0 && files == old(files)[f := old(files)[f].(locked := world.Fails(UnlockCall))]
      ensures old(Enters(f, world)) && old(files)[f].stub && !world.Fails(ProbeCall) ==>
                BroughtBack(old(files), files, f, store.objects, retries, world, log, r)
    {
      r, log := -1, [];
      if world.Fails(OpenCall) || f >= |files| {
        return;
      }
      Record(BeginDown(me, f));

      r := LockForDownload(f, world);
      if r == 0 {
        r, log := DownloadLocked(f, world);
      }
    }
  }

  /** A remote file after a call that may have fetched it, whatever has become of its lock. */
  predicate BroughtBack(files: seq<File>, files': seq<File>, f: nat, objects: map<Key, Bytes>, retries: int,
                        world: World, log: seq<S3.Fetch>, r: int)
    requires f < |files| == |files'|
  {
    var file, file' := files[f], files'[f];
    && files' == files[f := file']
    && if world.Fails(GetOidCall) || file.oid.None? then r == -1 && file' == file.(locked := file'.locked)
       else
         var key := file.oid.value;
         && Fetches(objects, key, retries, world, log)
         && (key !in objects ==> r == -1 && file'.data == file.data)
         && (key in objects ==>
               && S3.PossibleFetches(objects[key], log)
               && file'.data == WriteAt(file.data, 0, S3.Stream(objects[key], log)))
         && (r == 0 <==> CameThrough(world, log) && world.failing !! {RemStubCall, RemOidCall})
         && (r == 0 || r == -1)
         && (file'.stub <==> !CameThrough(world, log) || world.Fails(RemStubCall))
         && (file'.oid == if r == 0 then None else file.oid)
  }

  lemma ApplyKeepsShape(s: State, m: Move)
    requires CanMove(s, m)
    ensures |Apply(s, m).workers| == |s.workers|
  {
  }

  /** What one chunk does to a file that has received the first `off` bytes. */
  lemma ChunkMade(s: State, w: nat, f: nat, key: Key, pos: nat, off: nat, n: nat,
                  whole: Bytes, files0: seq<File>, data: Bytes)
    requires w < |s.workers| && s.workers[w] == Down(f, DownAt.Get(key, pos + off, off))
    requires f < |files0| && pos <= |data| && n > 0 && off + n <= |whole|
    requires key in s.remote && s.remote[key] == whole
    requires s.files == files0[f := files0[f].(data := WriteAt(data, pos, whole[..off]))]
    ensures CanMove(s, GetChunk(w, n))
    ensures Apply(s, GetChunk(w, n)) ==
      s.(workers := s.workers[w := Down(f, DownAt.Get(key, pos + off + n, off + n))],
         files := files0[f := files0[f].(data := WriteAt(data, pos, whole[..off + n]))])
  {
    WriteAtTwice(data, pos, whole[..off], whole[off..off + n]);
    assert whole[..off] + whole[off..off + n] == whole[..off + n];
  }

  lemma {:induction false} PossiblePrefix(data: Bytes, log: seq<S3.Attempt>, n: nat)
    requires S3.PossibleLog(data, log) && n <= |log|
    ensures S3.PossibleLog(data, log[..n])
    decreases |log|
  {
    if n < |log| {
      PossiblePrefix(data, log[..|log| - 1], n);
      assert log[..|log| - 1][..n] == log[..n];
    } else {
      assert log[..n] == log;
    }
  }

  lemma {:induction false} SumPrefix(ns: seq<nat>, i: nat)
    requires i < |ns|
    ensures S3.Sum(ns[..i + 1]) == S3.Sum(ns[..i]) + ns[i]
    ensures S3.Sum(ns[..i + 1]) <= S3.Sum(ns)
    decreases |ns|
  {
    assert ns[..i + 1][..i] == ns[..i];
    if i + 1 < |ns| {
      SumPrefix(ns[..|ns| - 1], i);
      assert ns[..|ns| - 1][..i + 1] == ns[..i + 1];
    } else {
      assert ns[..i + 1] == ns;
    }
  }
}
