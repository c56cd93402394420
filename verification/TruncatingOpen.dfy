/**
 An open with O_TRUNC. The kernel truncates the file, the library probes its location, and
 of a remote file it removes both attributes, one after the other and without the lock.
 Here one such call races the rest of one worker's call on the same file, step by step and
 in any order: exactly when is the truncation undone?
 */
module TruncatingOpen {
  import opened Bytes
  import opened Options
  import opened Tiering
  import opened TieringInvariant

  // ---- The opener's steps ----------------------------------------------------------

  /** open(2): the bytes are gone. A stub still reads as its object until `stub` is removed. */
  function KernelTruncated(s: State, f: nat): State
    requires f < |s.files| && f < |s.truth|
  {
    var file := s.files[f];
    s.(files := s.files[f := file.(data := [])], truth := if file.stub then s.truth else s.truth[f := []])
  }

  /** The first removal of `clear_xattrs`; a missing attribute is not an error. */
  function StubRemoved(s: State, f: nat): State
    requires f < |s.files| && f < |s.truth|
  {
    var file := s.files[f];
    s.(files := s.files[f := file.(stub := false)], truth := if file.stub then s.truth[f := []] else s.truth)
  }

  /** The second removal. */
  function OidRemoved(s: State, f: nat): State
    requires f < |s.files|
  {
    s.(files := s.files[f := s.files[f].(oid := None)])
  }

  /** What the opener does next. */
  datatype Stage = Probing | RemovingStub | RemovingOid | Done

  datatype Race = Race(s: State, stage: Stage)

  function OpenerSteps(r: Race, f: nat): Race
    requires f < |r.s.files| && f < |r.s.truth|
  {
    match r.stage
    case Probing => r.(stage := if r.s.files[f].stub then RemovingStub else Done)
    case RemovingStub => Race(StubRemoved(r.s, f), RemovingOid)
    case RemovingOid => Race(OidRemoved(r.s, f), Done)
    case Done => r
  }

  // ---- The worker's steps ----------------------------------------------------------

  /** The worker's next move when every call goes as the file then asks for. A request may fail or,
      with `sends`, succeed if the stream is not past the end of the file. */
  function Next(s: State, w: nat, sends: bool): Move
    requires OnFile(s, w)
  {
    match s.workers[w]
    case Up(f, _, at) =>
      if !at.Put? then Go(w)
      else if sends && at.pos <= |s.files[f].data| then PutTry(w, |s.files[f].data| - at.pos, true, Good)
      else PutTry(w, 0, false, GiveUp)
    case Down(_, at) =>
      if !at.Get? then Go(w)
      else if at.key !in s.remote || at.off > |s.remote[at.key]| then GetEnd(w, GiveUp)
      else if at.off < |s.remote[at.key]| then GetChunk(w, |s.remote[at.key]| - at.off)
      else GetEnd(w, Good)
  }

  /** Both outcomes of a request are considered. */
  lemma NextAtPut(s: State, w: nat)
    requires OnFile(s, w) && s.workers[w].Up? && s.workers[w].upAt == UpAt.Put(0)
    ensures Apply(s, Next(s, w, true)).workers[w].upAt == UpAt.SetOid
    ensures Apply(s, Next(s, w, false)).workers[w].upAt == UpAt.Unlock(false)
  {
  }

  function WorkerSteps(r: Race, w: nat, sends: bool): Race {
    if OnFile(r.s, w) then r.(s := Apply(r.s, Next(r.s, w, sends))) else r
  }

  /** `f` is the worker's file, or the worker has left. */
  predicate Racing(r: Race, w: nat, f: nat) {
    && w < |r.s.workers| && f < |r.s.files| && f < |r.s.truth|
    && (r.s.workers[w].Idle? || r.s.workers[w].f == f)
  }

  lemma StepsKeepRacing(r: Race, w: nat, f: nat, sends: bool)
    requires Racing(r, w, f)
    ensures Racing(WorkerSteps(r, w, sends), w, f) && Racing(OpenerSteps(r, f), w, f)
  {
  }

  /** One step of the race; `true` stands for the opener. */
  function Steps(r: Race, w: nat, f: nat, sends: bool, opener: bool): (r': Race)
    requires Racing(r, w, f)
    ensures Racing(r', w, f)
  {
    StepsKeepRacing(r, w, f, sends);
    if opener then OpenerSteps(r, f) else WorkerSteps(r, w, sends)
  }

  function Runs(r: Race, w: nat, f: nat, sends: bool, schedule: seq<bool>): (r': Race)
    requires Racing(r, w, f)
    ensures Racing(r', w, f)
    decreases |schedule|
  {
    if schedule == [] then r else Runs(Steps(r, w, f, sends, schedule[0]), w, f, sends, schedule[1..])
  }

  /** Both calls are over. */
  predicate Over(r: Race, w: nat) {
    r.stage.Done? && w < |r.s.workers| && r.s.workers[w].Idle?
  }

  /** How many steps the worker makes before the opener's `k`-th. */
  function Before(schedule: seq<bool>, k: nat): nat {
    if schedule == [] || k == 0 then 0
    else if schedule[0] then Before(schedule[1..], k - 1)
    else 1 + Before(schedule[1..], k)
  }

  lemma BeforeFirst(schedule: seq<bool>, k: nat)
    requires schedule != [] && k > 0
    ensures schedule[0] ==> Before(schedule, k) == Before(schedule[1..], k - 1)
    ensures !schedule[0] ==> Before(schedule, k) == 1 + Before(schedule[1..], k)
  {
  }

  lemma BeforeNone(schedule: seq<bool>)
    ensures Before(schedule, 0) == 0
  {
  }

  // ---- When the truncation lasts, and when it is undone ----------------------------

  predicate EmptyObject(remote: map<Key, Bytes>, oid: Option<Key>) {
    oid.Some? && oid.value in remote && remote[oid.value] == []
  }

  /** A stub has its object's name, and the opener has not yet removed it. */
  predicate Named(file: File, stage: Stage) {
    (file.stub || stage.RemovingStub? || stage.RemovingOid?) ==> file.oid.Some?
  }

  /** From here the file ends empty, in whatever order the two go on. */
  predicate Lasts(file: File, remote: map<Key, Bytes>, wk: Worker, stage: Stage) {
    && file.data == []
    && (stage.RemovingOid? ==> !file.stub)
    && (stage.Done? && file.stub ==> EmptyObject(remote, file.oid))
    && match wk
       case Idle => true
       case Up(_, key, at) =>
         (match at
          case Lock => file.locked || Named(file, stage)
          case Probe => Named(file, stage)
          case Put(_) => Named(file, stage)
          case SetOid =>
            Named(file, stage)
            && (EmptyObject(remote, Some(key)) || (file.oid.Some? && !file.stub && (stage.Probing? || stage.Done?)))
          case SetStub =>
            !file.stub && file.oid == Some(key) && EmptyObject(remote, file.oid) && (stage.Probing? || stage.Done?)
          case Trunc(size) => size == 0
          case Extend(size) => size == 0
          case UndoOid(stubToo) => (stubToo || !file.stub) && (stage.Done? ==> !file.stub)
          case UndoStub => stage.Done? ==> !file.stub
          case _ => true)
       case Down(_, at) =>
         (match at
          case Lock => file.locked || !file.stub || file.oid.None? || EmptyObject(remote, file.oid)
          case Probe => !file.stub || file.oid.None? || EmptyObject(remote, file.oid)
          case GetOid => file.oid.None? || EmptyObject(remote, file.oid)
          case Get(key, _, off) => key in remote ==> off >= |remote[key]|
          case RemOid => !file.stub
          case _ => true)
  }

  /** From here old bytes, or zeros in their place, end up in the file itself. */
  predicate Refills(file: File, remote: map<Key, Bytes>, wk: Worker, stage: Stage) {
    && (stage.RemovingOid? || stage.Done? ==> !file.stub)
    && match wk
       case Idle => file.data != []
       case Up(_, _, at) => (at.Unlock? && file.data != []) || (at.Trunc? && at.size > 0) || (at.Extend? && at.size > 0)
       case Down(_, at) =>
         (match at
          case Get(key, _, off) =>
            key in remote && off <= |remote[key]| && (off == |remote[key]| ==> file.data != [])
          case RemStub => file.data != []
          case RemOid => file.data != [] && !file.stub
          case Unlock(_) => file.data != []
          case _ => false)
  }

  /** The opener is done, and the file ends as a stub of old bytes. */
  predicate Restubs(file: File, remote: map<Key, Bytes>, wk: Worker, stage: Stage) {
    && stage.Done?
    && match wk
       case Idle => file.stub && FullObject(remote, file.oid)
       case Up(_, key, at) =>
         && FullObject(remote, Some(key))
         && (match at
             case SetOid => !file.stub && file.oid.None?
             case SetStub => !file.stub && file.oid == Some(key)
             case Stat => file.stub && file.oid == Some(key)
             case Trunc(_) => file.stub && file.oid == Some(key)
             case Extend(_) => file.stub && file.oid == Some(key)
             case Unlock(_) => file.stub && file.oid == Some(key)
             case _ => false)
       case Down(_, _) => false
  }

  predicate FullObject(remote: map<Key, Bytes>, oid: Option<Key>) {
    oid.Some? && oid.value in remote && remote[oid.value] != []
  }

  predicate LastsAt(r: Race, w: nat, f: nat)
    requires Racing(r, w, f)
  {
    Lasts(r.s.files[f], r.s.remote, r.s.workers[w], r.stage)
  }

  predicate UndoneAt(r: Race, w: nat, f: nat)
    requires Racing(r, w, f)
  {
    || Refills(r.s.files[f], r.s.remote, r.s.workers[w], r.stage)
    || Restubs(r.s.files[f], r.s.remote, r.s.workers[w], r.stage)
  }

  lemma SendingLasts(r: Race, w: nat, f: nat, sends: bool)
    requires Racing(r, w, f) && r.s.workers[w].Up? && LastsAt(r, w, f)
    requires var at := r.s.workers[w].upAt; at.Lock? || at.Probe? || at.Put? || at.Unlock?
    ensures LastsAt(Steps(r, w, f, sends, false), w, f)
  {
  }

  lemma MarkingLasts(r: Race, w: nat, f: nat, sends: bool)
    requires Racing(r, w, f) && r.s.workers[w].Up? && LastsAt(r, w, f)
    requires var at := r.s.workers[w].upAt; at.SetOid? || at.SetStub? || at.UndoOid? || at.UndoStub?
    ensures LastsAt(Steps(r, w, f, sends, false), w, f)
  {
  }

  lemma SparseLasts(r: Race, w: nat, f: nat, sends: bool)
    requires Racing(r, w, f) && r.s.workers[w].Up? && LastsAt(r, w, f)
    requires var at := r.s.workers[w].upAt; at.Stat? || at.Trunc? || at.Extend?
    ensures LastsAt(Steps(r, w, f, sends, false), w, f)
  {
  }

  lemma UploadLasts(r: Race, w: nat, f: nat, sends: bool)
    requires Racing(r, w, f) && r.s.workers[w].Up? && LastsAt(r, w, f)
    ensures LastsAt(Steps(r, w, f, sends, false), w, f)
  {
    var at := r.s.workers[w].upAt;
    if at.Stat? || at.Trunc? || at.Extend? {
      SparseLasts(r, w, f, sends);
    } else if at.SetOid? || at.SetStub? || at.UndoOid? || at.UndoStub? {
      MarkingLasts(r, w, f, sends);
    } else {
      SendingLasts(r, w, f, sends);
    }
  }

  lemma FetchingLasts(r: Race, w: nat, f: nat, sends: bool)
    requires Racing(r, w, f) && r.s.workers[w].Down? && LastsAt(r, w, f)
    requires r.s.workers[w].downAt.GetOid? || r.s.workers[w].downAt.Get?
    ensures LastsAt(Steps(r, w, f, sends, false), w, f)
  {
  }

  lemma UnmarkingLasts(r: Race, w: nat, f: nat, sends: bool)
    requires Racing(r, w, f) && r.s.workers[w].Down? && LastsAt(r, w, f)
    requires !r.s.workers[w].downAt.GetOid? && !r.s.workers[w].downAt.Get?
    ensures LastsAt(Steps(r, w, f, sends, false), w, f)
  {
  }

  lemma DownloadLasts(r: Race, w: nat, f: nat, sends: bool)
    requires Racing(r, w, f) && r.s.workers[w].Down? && LastsAt(r, w, f)
    ensures LastsAt(Steps(r, w, f, sends, false), w, f)
  {
    if r.s.workers[w].downAt.GetOid? || r.s.workers[w].downAt.Get? {
      FetchingLasts(r, w, f, sends);
    } else {
      UnmarkingLasts(r, w, f, sends);
    }
  }

  lemma OpenLasts(r: Race, w: nat, f: nat, sends: bool)
    requires Racing(r, w, f) && LastsAt(r, w, f)
    ensures LastsAt(Steps(r, w, f, sends, true), w, f)
  {
  }

  lemma {:induction false} LastsToTheEnd(r: Race, w: nat, f: nat, sends: bool, schedule: seq<bool>)
    requires Racing(r, w, f) && LastsAt(r, w, f)
    ensures LastsAt(Runs(r, w, f, sends, schedule), w, f)
    decreases |schedule|
  {
    if schedule != [] {
      if schedule[0] {
        OpenLasts(r, w, f, sends);
      } else if r.s.workers[w].Up? {
        UploadLasts(r, w, f, sends);
      } else if r.s.workers[w].Down? {
        DownloadLasts(r, w, f, sends);
      }
      LastsToTheEnd(Steps(r, w, f, sends, schedule[0]), w, f, sends, schedule[1..]);
    }
  }

  lemma UploadUndoes(r: Race, w: nat, f: nat, sends: bool)
    requires Racing(r, w, f) && UndoneAt(r, w, f) && r.s.workers[w].Up?
    ensures UndoneAt(Steps(r, w, f, sends, false), w, f)
  {
  }

  lemma DownloadUndoes(r: Race, w: nat, f: nat, sends: bool)
    requires Racing(r, w, f) && UndoneAt(r, w, f) && r.s.workers[w].Down?
    ensures UndoneAt(Steps(r, w, f, sends, false), w, f)
  {
  }

  lemma OpenStaysUndone(r: Race, w: nat, f: nat, sends: bool)
    requires Racing(r, w, f) && UndoneAt(r, w, f)
    ensures UndoneAt(Steps(r, w, f, sends, true), w, f)
  {
  }

  lemma {:induction false} UndoneToTheEnd(r: Race, w: nat, f: nat, sends: bool, schedule: seq<bool>)
    requires Racing(r, w, f) && UndoneAt(r, w, f)
    ensures UndoneAt(Runs(r, w, f, sends, schedule), w, f)
    decreases |schedule|
  {
    if schedule != [] {
      if schedule[0] {
        OpenStaysUndone(r, w, f, sends);
      } else if r.s.workers[w].Up? {
        UploadUndoes(r, w, f, sends);
      } else if r.s.workers[w].Down? {
        DownloadUndoes(r, w, f, sends);
      }
      UndoneToTheEnd(Steps(r, w, f, sends, schedule[0]), w, f, sends, schedule[1..]);
    }
  }

  // ---- Where the order decides -----------------------------------------------------

  /** An upload that has stored the old bytes of a local file: the truncation is undone exactly
      when the opener has probed before `stub` is set. */
  lemma {:induction false} MarkingRace(r: Race, w: nat, f: nat, sends: bool, schedule: seq<bool>)
    requires Racing(r, w, f) && r.stage.Probing? && r.s.workers[w].Up? && r.s.files[f].data == []
    requires !r.s.files[f].stub && FullObject(r.s.remote, Some(r.s.workers[w].key))
    requires var at, file := r.s.workers[w].upAt, r.s.files[f];
             (at.SetOid? && file.oid.None?) || (at.SetStub? && file.oid == Some(r.s.workers[w].key))
    requires Over(Runs(r, w, f, sends, schedule), w)
    ensures var end, early := Runs(r, w, f, sends, schedule), if r.s.workers[w].upAt.SetOid? then 2 else 1;
            if Before(schedule, 1) < early then UndoneAt(end, w, f) else LastsAt(end, w, f)
    decreases |schedule|
  {
    var r' := Steps(r, w, f, sends, schedule[0]);
    BeforeFirst(schedule, 1);
    BeforeNone(schedule[1..]);
    if schedule[0] {
      UndoneToTheEnd(r', w, f, sends, schedule[1..]);
    } else if r.s.workers[w].upAt.SetOid? {
      MarkingRace(r', w, f, sends, schedule[1..]);
    } else {
      LastsToTheEnd(r', w, f, sends, schedule[1..]);
    }
  }

  /** How many steps the opener has left up to and including a removal. */
  function ToStub(stage: Stage): nat {
    match stage case Probing => 2 case RemovingStub => 1 case _ => 0
  }

  function ToOid(stage: Stage): nat {
    match stage case Probing => 3 case RemovingStub => 2 case RemovingOid => 1 case Done => 0
  }

  /** The opener has found a stub and has not yet removed its object's name. */
  predicate Unfinished(file: File, stage: Stage) {
    file.data == [] && file.oid.Some? && !stage.Done? && (file.stub <==> !stage.RemovingOid?)
  }

  /** An upload that took a stub for local and has stored its bytes under another key: undone
      exactly when the opener has removed both attributes before `object_id` is to be set. */
  lemma {:induction false} MisjudgedRace(r: Race, w: nat, f: nat, sends: bool, schedule: seq<bool>)
    requires Racing(r, w, f) && r.s.workers[w].Up? && r.s.workers[w].upAt.SetOid?
    requires Unfinished(r.s.files[f], r.stage) && FullObject(r.s.remote, Some(r.s.workers[w].key))
    requires Over(Runs(r, w, f, sends, schedule), w)
    ensures var end := Runs(r, w, f, sends, schedule);
            if Before(schedule, ToOid(r.stage)) == 0 then UndoneAt(end, w, f) else LastsAt(end, w, f)
    decreases |schedule|
  {
    var r' := Steps(r, w, f, sends, schedule[0]);
    BeforeFirst(schedule, ToOid(r.stage));
    BeforeNone(schedule[1..]);
    if !schedule[0] {
      LastsToTheEnd(r', w, f, sends, schedule[1..]);
    } else if r.stage.RemovingOid? {
      UndoneToTheEnd(r', w, f, sends, schedule[1..]);
    } else {
      MisjudgedRace(r', w, f, sends, schedule[1..]);
    }
  }

  /** How many steps a download makes before it reads `object_id`. */
  function Lead(at: DownAt): nat {
    match at case Lock => 2 case Probe => 1 case _ => 0
  }

  /** A download that has yet to read `object_id`: undone exactly when it probes before `stub` is
      removed and reads the name before that is removed. */
  lemma {:induction false} FetchingRace(r: Race, w: nat, f: nat, sends: bool, schedule: seq<bool>)
    requires Racing(r, w, f) && r.s.workers[w].Down?
    requires Unfinished(r.s.files[f], r.stage) && FullObject(r.s.remote, r.s.files[f].oid)
    requires var at := r.s.workers[w].downAt;
             || at.GetOid?
             || (at.Probe? && !r.stage.RemovingOid?)
             || (at.Lock? && !r.stage.RemovingOid? && !r.s.files[f].locked)
    requires Over(Runs(r, w, f, sends, schedule), w)
    ensures var end, lead := Runs(r, w, f, sends, schedule), Lead(r.s.workers[w].downAt);
            if Before(schedule, ToStub(r.stage)) >= lead && Before(schedule, ToOid(r.stage)) > lead
            then UndoneAt(end, w, f) else LastsAt(end, w, f)
    decreases |schedule|
  {
    var r', at := Steps(r, w, f, sends, schedule[0]), r.s.workers[w].downAt;
    BeforeFirst(schedule, ToOid(r.stage));
    if ToStub(r.stage) > 0 {
      BeforeFirst(schedule, ToStub(r.stage));
    }
    BeforeNone(schedule[1..]);
    if schedule[0] {
      if r.stage.RemovingOid? || (r.stage.RemovingStub? && !at.GetOid?) {
        LastsToTheEnd(r', w, f, sends, schedule[1..]);
      } else {
        FetchingRace(r', w, f, sends, schedule[1..]);
      }
    } else if at.GetOid? {
      UndoneToTheEnd(r', w, f, sends, schedule[1..]);
    } else {
      FetchingRace(r', w, f, sends, schedule[1..]);
    }
  }

  // ---- The race comes to an end ----------------------------------------------------

  /** How much of its call the worker has before it, at most. */
  function Rank(s: State, wk: Worker): nat {
    match wk
    case Idle => 0
    case Up(_, _, at) =>
      (match at
       case Lock => 12
       case Probe => 11
       case Put(_) => 10
       case SetOid => 9
       case SetStub => 8
       case Stat => 7
       case Trunc(_) => 6
       case Extend(_) => 5
       case UndoOid(_) => 4
       case UndoStub => 3
       case Unlock(_) => 1)
    case Down(_, at) =>
      (match at
       case Lock => 12
       case Probe => 11
       case GetOid => 10
       case Get(key, _, off) => if key in s.remote && off < |s.remote[key]| then 9 else 8
       case RemStub => 7
       case RemOid => 6
       case Unlock(_) => 1)
  }

  lemma UploadGoesDown(r: Race, w: nat, f: nat, sends: bool)
    requires Racing(r, w, f) && r.s.workers[w].Up?
    ensures var r' := Steps(r, w, f, sends, false);
            Rank(r'.s, r'.s.workers[w]) < Rank(r.s, r.s.workers[w]) && r'.stage == r.stage
  {
  }

  lemma DownloadGoesDown(r: Race, w: nat, f: nat, sends: bool)
    requires Racing(r, w, f) && r.s.workers[w].Down?
    ensures var r' := Steps(r, w, f, sends, false);
            Rank(r'.s, r'.s.workers[w]) < Rank(r.s, r.s.workers[w]) && r'.stage == r.stage
  {
  }

  lemma {:induction false} WorkerFinishes(r: Race, w: nat, f: nat, sends: bool) returns (schedule: seq<bool>)
    requires Racing(r, w, f) && r.stage.Done?
    ensures Over(Runs(r, w, f, sends, schedule), w)
    decreases Rank(r.s, r.s.workers[w])
  {
    schedule := [];
    if !r.s.workers[w].Idle? {
      if r.s.workers[w].Up? {
        UploadGoesDown(r, w, f, sends);
      } else {
        DownloadGoesDown(r, w, f, sends);
      }
      var rest := WorkerFinishes(Steps(r, w, f, sends, false), w, f, sends);
      schedule := [false] + rest;
      assert schedule[1..] == rest;
    }
  }

  /** From every state some order of steps ends both calls. */
  lemma {:induction false} RaceEnds(r: Race, w: nat, f: nat, sends: bool) returns (schedule: seq<bool>)
    requires Racing(r, w, f)
    ensures Over(Runs(r, w, f, sends, schedule), w)
    decreases ToOid(r.stage)
  {
    if r.stage.Done? {
      schedule := WorkerFinishes(r, w, f, sends);
    } else {
      var rest := RaceEnds(Steps(r, w, f, sends, true), w, f, sends);
      schedule := [true] + rest;
      assert schedule[1..] == rest;
    }
  }

  // ---- The exact condition ---------------------------------------------------------

  /** The race undoes the truncation: told from the state in which the kernel truncates the file
      and from the order of the steps that follow. */
  predicate Undoes(s: State, w: nat, schedule: seq<bool>)
    requires OnFile(s, w) && |s.truth| == |s.files|
  {
    var file := s.files[s.workers[w].f];
    match s.workers[w]
    case Idle => false
    case Up(_, key, at) =>
      (match at
       case SetOid =>
         && FullObject(s.remote, Some(key))
         && if file.oid.None? then Before(schedule, 1) < 2 else file.stub && Before(schedule, 3) == 0
       case SetStub => FullObject(s.remote, Some(key)) && Before(schedule, 1) == 0
       case Trunc(size) => size > 0
       case Extend(size) => size > 0
       case _ => false)
    case Down(f, at) =>
      s.truth[f] != []
      && (match at
          case Lock => file.stub && !file.locked && Before(schedule, 2) >= 2 && Before(schedule, 3) >= 3
          case Probe => file.stub && Before(schedule, 2) >= 1 && Before(schedule, 3) >= 2
          case GetOid => Before(schedule, 3) >= 1
          case Get(_, _, off) => off < |s.truth[f]|
          case _ => false)
  }

  function Begun(s: State, f: nat): Race
    requires f < |s.files| && f < |s.truth|
  {
    Race(KernelTruncated(s, f), Probing)
  }

  lemma UploadRace(s: State, w: nat, sends: bool, schedule: seq<bool>)
    requires Inv(s) && OnFile(s, w) && s.workers[w].Up?
    requires Over(Runs(Begun(s, s.workers[w].f), w, s.workers[w].f, sends, schedule), w)
    ensures var f := s.workers[w].f;
            var end := Runs(Begun(s, f), w, f, sends, schedule);
            if Undoes(s, w, schedule) then UndoneAt(end, w, f) else LastsAt(end, w, f)
  {
    var f := s.workers[w].f;
    var r := Begun(s, f);
    UploadKnows(s, w);
    if LastsAt(r, w, f) {
      LastsToTheEnd(r, w, f, sends, schedule);
    } else if UndoneAt(r, w, f) {
      UndoneToTheEnd(r, w, f, sends, schedule);
    } else if s.files[f].stub {
      MisjudgedRace(r, w, f, sends, schedule);
    } else {
      MarkingRace(r, w, f, sends, schedule);
    }
  }

  /** What the invariant tells about an uploading worker. */
  lemma UploadKnows(s: State, w: nat)
    requires Inv(s) && OnFile(s, w) && s.workers[w].Up?
    ensures var f, key, at := s.workers[w].f, s.workers[w].key, s.workers[w].upAt;
            var r := Begun(s, f);
            match at
            case SetOid =>
              && (EmptyObject(s.remote, Some(key)) || FullObject(s.remote, Some(key)))
              && (s.files[f].stub ==> s.files[f].oid.Some?)
            case SetStub =>
              && (EmptyObject(s.remote, Some(key)) || FullObject(s.remote, Some(key)))
              && !s.files[f].stub && s.files[f].oid == Some(key)
            case Trunc(size) => if size > 0 then UndoneAt(r, w, f) else LastsAt(r, w, f)
            case Extend(size) => if size > 0 then UndoneAt(r, w, f) else LastsAt(r, w, f)
            case _ => LastsAt(r, w, f)
  {
    var f := s.workers[w].f;
    assert FileOk(s, f);
    assert Holding(s.workers[w]) ==> WorkerOk(s, s.workers[w]);
    NoWindowAt(s, w);
    if !s.files[f].locked {
      Unwindowed(s, f);
    }
  }

  lemma Unwindowed(s: State, f: nat)
    requires Locks(s) && f < |s.files| && !s.files[f].locked
    ensures !InWindow(s, f)
  {
    forall v | 0 <= v < |s.workers| ensures !AtUndoStub(s.workers[v], f) {
    }
  }

  /** What it tells about a downloading one. */
  lemma DownloadKnows(s: State, w: nat)
    requires Inv(s) && OnFile(s, w) && s.workers[w].Down?
    ensures var f, at, file := s.workers[w].f, s.workers[w].downAt, s.files[s.workers[w].f];
            var r := Begun(s, f);
            match at
            case Lock =>
              if file.stub && !file.locked && s.truth[f] != []
              then Unfinished(r.s.files[f], r.stage) && FullObject(s.remote, file.oid) else LastsAt(r, w, f)
            case Probe =>
              if file.stub && s.truth[f] != []
              then Unfinished(r.s.files[f], r.stage) && FullObject(s.remote, file.oid) else LastsAt(r, w, f)
            case GetOid =>
              if s.truth[f] != []
              then Unfinished(r.s.files[f], r.stage) && FullObject(s.remote, file.oid) else LastsAt(r, w, f)
            case Get(_, _, off) => if off < |s.truth[f]| then UndoneAt(r, w, f) else LastsAt(r, w, f)
            case _ => LastsAt(r, w, f)
  {
    var f := s.workers[w].f;
    assert FileOk(s, f);
    assert Holding(s.workers[w]) ==> WorkerOk(s, s.workers[w]);
    NoWindowAt(s, w);
    if !s.files[f].locked {
      Unwindowed(s, f);
    }
  }

  lemma DownloadRace(s: State, w: nat, sends: bool, schedule: seq<bool>)
    requires Inv(s) && OnFile(s, w) && s.workers[w].Down?
    requires Over(Runs(Begun(s, s.workers[w].f), w, s.workers[w].f, sends, schedule), w)
    ensures var f := s.workers[w].f;
            var end := Runs(Begun(s, f), w, f, sends, schedule);
            if Undoes(s, w, schedule) then UndoneAt(end, w, f) else LastsAt(end, w, f)
  {
    var f := s.workers[w].f;
    var r := Begun(s, f);
    DownloadKnows(s, w);
    if LastsAt(r, w, f) {
      LastsToTheEnd(r, w, f, sends, schedule);
    } else if UndoneAt(r, w, f) {
      UndoneToTheEnd(r, w, f, sends, schedule);
    } else {
      FetchingRace(r, w, f, sends, schedule);
    }
  }

  /** An open with O_TRUNC against a worker anywhere in its call on the same file, about to take
      the lock included, the file local or remote, the steps of the two in any order: when both
      are over the file reads as empty, as the opener asked, exactly when `Undoes` does not hold. */
  lemma TruncatingOpenIff(s: State, w: nat, sends: bool, schedule: seq<bool>)
    requires Inv(s) && OnFile(s, w)
    requires Over(Runs(Begun(s, s.workers[w].f), w, s.workers[w].f, sends, schedule), w)
    ensures var f := s.workers[w].f;
            var end := Runs(Begun(s, f), w, f, sends, schedule);
            Logical(end.s, f) == Some([]) <==> !Undoes(s, w, schedule)
  {
    if s.workers[w].Up? {
      UploadRace(s, w, sends, schedule);
    } else {
      DownloadRace(s, w, sends, schedule);
    }
  }
}
