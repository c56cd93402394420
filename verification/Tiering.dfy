/**
 The tiering protocol of `ops.c` as a machine: any number of workers uploading and
 downloading any number of files, one system call or one request to the store per
 move, every move allowed to fail, and every worker allowed to die between moves.
 */
module Tiering {
  import opened Bytes
  import opened Options
  import opened FileBytes

  type Key = string

  /** A file: its local bytes and its three extended attributes. */
  datatype File = File(data: Bytes, stub: bool, locked: bool, oid: Option<Key>)

  /** Where a worker is inside `upload_file`. */
  datatype UpAt =
    | Lock               // about to set `locked`
    | Probe              // about to read `stub`
    | Put(pos: nat)      // sending; earlier attempts have consumed `pos` bytes of the stream
    | SetOid             // object stored, about to set `object_id`
    | SetStub            // about to set `stub`
    | Stat               // about to read the file's size
    | Trunc(size: nat)   // about to truncate to nothing
    | Extend(size: nat)  // about to grow back to `size`
    | UndoOid(stubToo: bool)
    | UndoStub
    | Unlock(ok: bool)

  /** Where a worker is inside `download_file`. */
  datatype DownAt =
    | Lock
    | Probe
    | GetOid                            // about to read `object_id`
    | Get(key: Key, pos: nat, off: nat) // receiving: next byte goes to `pos`, comes from `off`
    | RemStub
    | RemOid
    | Unlock(ok: bool)

  datatype Worker =
    | Idle
    | Up(f: nat, key: Key, upAt: UpAt)
    | Down(f: nat, downAt: DownAt)

  /** `truth` is what the application last wrote: the content each file should have. */
  datatype State = State(files: seq<File>, remote: map<Key, Bytes>, workers: seq<Worker>, truth: seq<Bytes>)

  /** How one request to the store ended: success, a status worth retrying with
      attempts left, or anything else. */
  datatype Verdict = Good | Retry | GiveUp

  datatype Move =
    | BeginUp(w: nat, f: nat, key: Key)
    | BeginDown(w: nat, f: nat)
    | Go(w: nat)      // the call does what the file's state asks for
    | Fault(w: nat)   // the call fails and changes nothing
    | PutTry(w: nat, n: nat, stored: bool, verdict: Verdict)
    | GetChunk(w: nat, n: nat)
    | GetEnd(w: nat, verdict: Verdict)
    | Crash(w: nat)
    | AppWrite(f: nat, data: Bytes)

  /** What the application would read once the file is local again. */
  function Logical(s: State, f: nat): Option<Bytes>
    requires f < |s.files|
  {
    var file := s.files[f];
    if !file.stub then Some(file.data)
    else if file.oid.Some? && file.oid.value in s.remote then Some(s.remote[file.oid.value])
    else None
  }

  /** The worker holds the lock of its file. */
  predicate Holding(wk: Worker) {
    (wk.Up? && !wk.upAt.Lock?) || (wk.Down? && !wk.downAt.Lock?)
  }

  predicate HoldsFile(wk: Worker, f: nat) {
    Holding(wk) && wk.f == f
  }

  predicate OnFile(s: State, w: nat) {
    w < |s.workers| && !s.workers[w].Idle? && s.workers[w].f < |s.files|
  }

  predicate CanMove(s: State, m: Move) {
    match m
    case BeginUp(w, f, _) => w < |s.workers| && s.workers[w].Idle? && f < |s.files|
    case BeginDown(w, f) => w < |s.workers| && s.workers[w].Idle? && f < |s.files|
    case Go(w) =>
      OnFile(s, w) && !(s.workers[w].Up? && s.workers[w].upAt.Put?) && !(s.workers[w].Down? && s.workers[w].downAt.Get?)
    case Fault(w) =>
      OnFile(s, w) && !(s.workers[w].Up? && s.workers[w].upAt.Put?) && !(s.workers[w].Down? && s.workers[w].downAt.Get?)
    case PutTry(w, n, stored, verdict) =>
      // the store keeps only complete bodies, and reports success only for what it keeps;
      // past the end of the file nothing is read
      && OnFile(s, w) && s.workers[w].Up? && s.workers[w].upAt.Put?
      && (n == 0 || s.workers[w].upAt.pos + n <= |s.files[s.workers[w].f].data|)
      && (stored ==> s.workers[w].upAt.pos + n == |s.files[s.workers[w].f].data|)
      && (verdict.Good? ==> stored)
    case GetChunk(w, n) =>
      && OnFile(s, w) && s.workers[w].Down? && s.workers[w].downAt.Get? && n > 0
      && s.workers[w].downAt.key in s.remote
      && s.workers[w].downAt.off + n <= |s.remote[s.workers[w].downAt.key]|
    case GetEnd(w, verdict) =>
      && OnFile(s, w) && s.workers[w].Down? && s.workers[w].downAt.Get?
      && (verdict.Good? ==> s.workers[w].downAt.key in s.remote
                            && s.workers[w].downAt.off == |s.remote[s.workers[w].downAt.key]|)
    case Crash(w) => OnFile(s, w)
    case AppWrite(f, _) =>
      // the application writes only local files that no worker is transferring
      && f < |s.files| && f < |s.truth| && !s.files[f].stub
      && forall w :: 0 <= w < |s.workers| ==> !HoldsFile(s.workers[w], f)
  }

  /** New state of worker `w` and of its file. */
  function Update(s: State, w: nat, wk: Worker, file: File): State
    requires OnFile(s, w)
  {
    s.(workers := s.workers[w := wk], files := s.files[s.workers[w].f := file])
  }

  function Become(s: State, w: nat, wk: Worker): State
    requires w < |s.workers|
  {
    s.(workers := s.workers[w := wk])
  }

  function UpGo(s: State, w: nat): State
    requires OnFile(s, w) && s.workers[w].Up? && !s.workers[w].upAt.Put?
  {
    var wk := s.workers[w];
    var file := s.files[wk.f];
    var to := (at: UpAt) => wk.(upAt := at);
    match wk.upAt
    case Lock =>
      if file.locked then Become(s, w, Idle) else Update(s, w, to(UpAt.Probe), file.(locked := true))
    case Probe => Become(s, w, to(if file.stub then UpAt.Unlock(true) else UpAt.Put(0)))
    case SetOid =>
      if file.oid.Some? then Become(s, w, to(UpAt.Unlock(false)))
      else Update(s, w, to(UpAt.SetStub), file.(oid := Some(wk.key)))
    case SetStub =>
      if file.stub then Become(s, w, to(UpAt.UndoOid(false))) else Update(s, w, to(UpAt.Stat), file.(stub := true))
    case Stat => Become(s, w, to(UpAt.Trunc(|file.data|)))
    case Trunc(size) => Update(s, w, to(UpAt.Extend(size)), file.(data := []))
    case Extend(size) => Update(s, w, to(UpAt.Unlock(true)), file.(data := Resize(file.data, size)))
    case UndoOid(stubToo) =>
      Update(s, w, to(if stubToo then UpAt.UndoStub else UpAt.Unlock(false)), file.(oid := None))
    case UndoStub => Update(s, w, to(UpAt.Unlock(false)), file.(stub := false))
    case Unlock(_) => Update(s, w, Idle, file.(locked := false))
  }

  function UpFault(s: State, w: nat): State
    requires OnFile(s, w) && s.workers[w].Up? && !s.workers[w].upAt.Put?
  {
    var wk := s.workers[w];
    var to := (at: UpAt) => wk.(upAt := at);
    Become(s, w,
      match wk.upAt
      case Lock => Idle
      case Probe => to(UpAt.Put(0))     // an error counts as "local"
      case SetOid => to(UpAt.Unlock(false))
      case SetStub => to(UpAt.UndoOid(false))
      case Stat => to(UpAt.Unlock(false))
      case Trunc(_) => to(UpAt.UndoOid(true))
      case Extend(_) => to(UpAt.UndoOid(true))
      case UndoOid(stubToo) => to(if stubToo then UpAt.UndoStub else UpAt.Unlock(false))
      case UndoStub => to(UpAt.Unlock(false))
      case Unlock(_) => Idle)
  }

  function DownGo(s: State, w: nat): State
    requires OnFile(s, w) && s.workers[w].Down? && !s.workers[w].downAt.Get?
  {
    var wk := s.workers[w];
    var file := s.files[wk.f];
    var to := (at: DownAt) => wk.(downAt := at);
    match wk.downAt
    case Lock =>
      if file.locked then Become(s, w, Idle) else Update(s, w, to(DownAt.Probe), file.(locked := true))
    case Probe => Become(s, w, to(if file.stub then DownAt.GetOid else DownAt.Unlock(true)))
    case GetOid =>
      Become(s, w, to(if file.oid.Some? then DownAt.Get(file.oid.value, 0, 0) else DownAt.Unlock(false)))
    case RemStub =>
      if file.stub then Update(s, w, to(DownAt.RemOid), file.(stub := false))
      else Become(s, w, to(DownAt.Unlock(false)))
    case RemOid =>
      if file.oid.Some? then Update(s, w, to(DownAt.Unlock(true)), file.(oid := None))
      else Become(s, w, to(DownAt.Unlock(false)))
    case Unlock(_) => Update(s, w, Idle, file.(locked := false))
  }

  function DownFault(s: State, w: nat): State
    requires OnFile(s, w) && s.workers[w].Down? && !s.workers[w].downAt.Get?
  {
    var wk := s.workers[w];
    Become(s, w,
      match wk.downAt
      case Lock => Idle
      case Probe => wk.(downAt := DownAt.Unlock(true))   // an error counts as "local"
      case Unlock(_) => Idle
      case _ => wk.(downAt := DownAt.Unlock(false)))
  }

  function PutTried(s: State, w: nat, n: nat, stored: bool, verdict: Verdict): State
    requires CanMove(s, PutTry(w, n, stored, verdict))
  {
    var wk := s.workers[w];
    var pos := wk.upAt.pos;
    var at := match verdict
              case Good => UpAt.SetOid
              case Retry => UpAt.Put(pos + n)
              case GiveUp => UpAt.Unlock(false);
    Become(s, w, wk.(upAt := at)).(remote := if stored then s.remote[wk.key := s.files[wk.f].data[pos..]] else s.remote)
  }

  function GotChunk(s: State, w: nat, n: nat): State
    requires CanMove(s, GetChunk(w, n))
  {
    var wk := s.workers[w];
    var Get(key, pos, off) := wk.downAt;
    var file := s.files[wk.f];
    Update(s, w, wk.(downAt := DownAt.Get(key, pos + n, off + n)),
        file.(data := WriteAt(file.data, pos, s.remote[key][off..off + n])))
  }

  function GetEnded(s: State, w: nat, verdict: Verdict): State
    requires CanMove(s, GetEnd(w, verdict))
  {
    var wk := s.workers[w];
    var Get(key, pos, _) := wk.downAt;
    var at := match verdict
              case Good => DownAt.RemStub
              case Retry => DownAt.Get(key, pos, 0)   // the stream is not rewound
              case GiveUp => DownAt.Unlock(false);
    Become(s, w, wk.(downAt := at))
  }

  function Apply(s: State, m: Move): State
    requires CanMove(s, m)
  {
    match m
    case BeginUp(w, f, key) => Become(s, w, Up(f, key, UpAt.Lock))
    case BeginDown(w, f) => Become(s, w, Down(f, DownAt.Lock))
    case Go(w) => if s.workers[w].Up? then UpGo(s, w) else DownGo(s, w)
    case Fault(w) => if s.workers[w].Up? then UpFault(s, w) else DownFault(s, w)
    case PutTry(w, n, stored, verdict) => PutTried(s, w, n, stored, verdict)
    case GetChunk(w, n) => GotChunk(s, w, n)
    case GetEnd(w, verdict) => GetEnded(s, w, verdict)
    case Crash(w) => Become(s, w, Idle)
    case AppWrite(f, data) =>
      s.(files := s.files[f := s.files[f].(data := data)], truth := s.truth[f := data])
  }

  /** File `g` needs the object named `key` to stay as it is: it is a stub of that object,
      or its own upload has stored the object and is about to make it one. */
  predicate Depends(s: State, g: nat, key: Key)
    requires g < |s.files|
  {
    || (s.files[g].stub && s.files[g].oid == Some(key))
    || exists w :: 0 <= w < |s.workers| && IsMarking(s, w, g, key)
  }

  predicate IsMarking(s: State, w: nat, g: nat, key: Key)
    requires w < |s.workers| && g < |s.files|
  {
    var wk := s.workers[w];
    && wk.Up? && wk.f == g && wk.key == key
    && (wk.upAt.SetStub? || (wk.upAt.SetOid? && s.files[g].oid.None?))
  }

  /** What the store has under `key` is not `body`. */
  predicate Differs(s: State, key: Key, body: Bytes) {
    key !in s.remote || s.remote[key] != body
  }

  /** The moves under which the protocol does not protect its files; each can be told
      from the state before it. `TieringHazards` shows what each of them costs. */
  predicate Hazard(s: State, m: Move)
    requires CanMove(s, m)
  {
    match m
    case Fault(w) =>
      && s.workers[w].Up?
      && (match s.workers[w].upAt
          case Extend(size) => size > 0                            // the data is already gone
          case UndoStub => s.files[s.workers[w].f].oid.None?       // stub stays, its object's name is gone
          case _ => false)
    case Crash(w) => s.workers[w].Up? && s.workers[w].upAt.UndoStub? && s.files[s.workers[w].f].oid.None?
    case PutTry(w, n, stored, verdict) =>
      var Up(f, key, at) := s.workers[w];
      || (stored && Differs(s, key, s.files[f].data[at.pos..])     // an object in use is replaced
          && exists g :: 0 <= g < |s.files| && Depends(s, g, key))
      || (verdict.Good? && at.pos > 0 && s.files[f].oid.None?)     // only a suffix was stored
    case GetChunk(w, n) =>
      s.workers[w].downAt.pos + n > |s.remote[s.workers[w].downAt.key]| // writing past the object's size
    case _ => false
  }

  /** The `i`-th move leads from the `i`-th state to the next. */
  predicate Leads(moves: seq<Move>, states: seq<State>, i: nat) {
    && i < |moves| && i + 1 < |states|
    && CanMove(states[i], moves[i])
    && states[i + 1] == Apply(states[i], moves[i])
  }

  /** The states visited by `moves`. */
  ghost predicate IsRun(moves: seq<Move>, states: seq<State>) {
    && |states| == |moves| + 1
    && forall i: nat :: i < |moves| ==> Leads(moves, states, i)
  }

  /** No move of the run is a hazard. */
  ghost predicate Careful(moves: seq<Move>, states: seq<State>) {
    forall i: nat :: Leads(moves, states, i) ==> !Hazard(states[i], moves[i])
  }

  /** Every file local and no worker inside; leftover object ids may remain. */
  predicate Initial(s: State) {
    && |s.truth| == |s.files|
    && (forall w :: 0 <= w < |s.workers| ==> s.workers[w].Idle?)
    && (forall f :: 0 <= f < |s.files| ==> !s.files[f].stub && s.files[f].data == s.truth[f])
  }
}
