/**
 The application's side, `syms.c` and `open.c`: the location probe with its three system
 calls, removal of the attributes, polling, and the end of an intercepted open. The file
 changes under the caller's feet, so a call is given the file as it is at each of its probes.
 */
module Library {
  import opened Bytes
  import opened Options
  import opened Tiering
  import Q = Queue
  import R = RequestPath

  datatype Errno = ENOATTR | ENOTSUP | ERANGE | EPERM | OTHER

  /** What a system call answers. */
  datatype Reply = Success | Error(errno: Errno)

  /** Parts of an inode that no transfer changes: whether its file system has extended
      attributes, and whether it is append-only or immutable. */
  datatype Inode = Inode(supported: bool, sealed: bool)

  /** The file's data is in the store. */
  predicate MarkedRemote(inode: Inode, file: File) {
    inode.supported && file.stub
  }

  /** The system call a probe uses first: reading the attribute, or, through a write-only
      descriptor, replacing its empty value by an empty value. */
  datatype Probe = ReadAttr | ReplaceAttr

  /** What the kernel answers when nothing goes wrong. */
  function Answer(probe: Probe, inode: Inode, file: File): Reply {
    if !inode.supported then Error(ENOTSUP)
    else if probe.ReplaceAttr? && inode.sealed then Error(EPERM)
    else if file.stub then Success
    else Error(ENOATTR)
  }

  /** The file after the call: replacing a value by the same value changes nothing. */
  function After(probe: Probe, inode: Inode, file: File): File {
    if probe.ReplaceAttr? && Answer(probe, inode, file).Success? then file.(stub := true) else file
  }

  /** IS_LOCAL_PREDICATE. */
  predicate CountsAsLocal(e: Errno) {
    e == ENOATTR || e == ENOTSUP || e == ERANGE
  }

  /** `is_local_file`: 1 local, 0 remote, -1 error; the second answer is asked for by path and
      only after EPERM. */
  function IsLocalFile(first: Reply, second: Reply): int {
    if first.Success? then 0
    else if CountsAsLocal(first.errno) then 1
    else if first.errno == EPERM then
      if second.Success? then 0 else if CountsAsLocal(second.errno) then 1 else -1
    else -1
  }

  /** `is_local_file_fd` of the daemon, which takes only a missing attribute for "local". */
  function DaemonIsLocalFile(reply: Reply): int {
    if reply.Success? then 0 else if reply.errno == ENOATTR then 1 else -1
  }

  /** Where nothing fails, both kinds of library probe say remote exactly when the file system
      can mark files and this one is marked, and they leave the file as it was. */
  lemma ProbesAgree(probe: Probe, inode: Inode, file: File)
    ensures IsLocalFile(Answer(probe, inode, file), Answer(ReadAttr, inode, file))
         == if MarkedRemote(inode, file) then 0 else 1
    ensures After(probe, inode, file) == file
  {
  }

  /** The daemon's probe agrees with them exactly when the file system supports attributes;
      otherwise it reports an error, which its callers take for "local" too. */
  lemma DaemonAgreesIff(probe: Probe, inode: Inode, file: File)
    ensures (DaemonIsLocalFile(Answer(ReadAttr, inode, file))
             == IsLocalFile(Answer(probe, inode, file), Answer(ReadAttr, inode, file))) <==> inode.supported
    ensures !inode.supported ==> DaemonIsLocalFile(Answer(ReadAttr, inode, file)) == -1
  {
  }

  /** What goes wrong with the calls of one probe: an errno in place of the first call's answer, and
      of the second's. */
  datatype ProbeFault = ProbeFault(first: Option<Errno>, second: Option<Errno>)

  /** The file as a probe finds it, and what goes wrong with the probe. */
  datatype View = View(file: File, fault: ProbeFault)

  /** The probe has to ask a second time, by path. */
  predicate AsksAgain(writeOnly: bool, inode: Inode, fault: ProbeFault) {
    if fault.first.Some? then fault.first.value == EPERM else writeOnly && inode.supported && inode.sealed
  }

  /** What a probe should report: where the file is, unless the call that decides fails; then a missing
      attribute, a file system without attributes and an impossible value count as "local", and any
      other error as an error. */
  function Judged(writeOnly: bool, inode: Inode, view: View): int {
    var decides := if AsksAgain(writeOnly, inode, view.fault) then view.fault.second else view.fault.first;
    match decides
    case None => if MarkedRemote(inode, view.file) then 0 else 1
    case Some(e) => if e in {ENOATTR, ENOTSUP, ERANGE} then 1 else -1
  }

  /** `is_local_file`. */
  method ProbeOnce(writeOnly: bool, inode: Inode, view: View) returns (r: int)
    ensures r == Judged(writeOnly, inode, view)
    ensures view.fault == ProbeFault(None, None) ==> r == if MarkedRemote(inode, view.file) then 0 else 1
    ensures view.fault.first in {Some(ENOATTR), Some(ENOTSUP), Some(ERANGE)} ==> r == 1
    ensures view.fault.first == Some(OTHER) ==> r == -1
    ensures view.fault.first == Some(EPERM)
            || (view.fault.first.None? && writeOnly && inode.supported && inode.sealed) ==>
              && (view.fault.second.None? ==> r == if MarkedRemote(inode, view.file) then 0 else 1)
              && (view.fault.second in {Some(ENOATTR), Some(ENOTSUP), Some(ERANGE)} ==> r == 1)
              && (view.fault.second in {Some(EPERM), Some(OTHER)} ==> r == -1)
  {
    var probe := if writeOnly then ReplaceAttr else ReadAttr;
    var first := if view.fault.first.Some? then Error(view.fault.first.value) else Answer(probe, inode, view.file);
    var second := if view.fault.second.Some? then Error(view.fault.second.value)
                  else Answer(ReadAttr, inode, view.file);
    r := IsLocalFile(first, second);
  }

  /** `poll_file_location` with the file as it is at each probe. `Waiting` means that every
      probe so far has found it remote. */
  datatype Polled = Local(at: nat) | Failed(at: nat) | Waiting

  /** The first probe, from number `from` on, that does not find the file remote. */
  predicate FirstSettled(writeOnly: bool, inode: Inode, views: seq<View>, from: nat, at: nat) {
    && from <= at < |views|
    && Judged(writeOnly, inode, views[at]) != 0
    && forall i :: from <= i < at ==> Judged(writeOnly, inode, views[i]) == 0
  }

  predicate AllRemote(writeOnly: bool, inode: Inode, views: seq<View>, from: nat) {
    forall i :: from <= i < |views| ==> Judged(writeOnly, inode, views[i]) == 0
  }

  /** The loop ends with the first probe that does not find the file remote, and says what it found. */
  method PollFileLocation(writeOnly: bool, inode: Inode, views: seq<View>) returns (p: Polled)
    ensures p.Waiting? <==> AllRemote(writeOnly, inode, views, 0)
    ensures !p.Waiting? ==> FirstSettled(writeOnly, inode, views, 0, p.at)
    ensures p.Local? ==> Judged(writeOnly, inode, views[p.at]) == 1
    ensures p.Failed? ==> Judged(writeOnly, inode, views[p.at]) == -1
  {
    var n := 0;
    while n < |views|
      invariant n <= |views|
      invariant forall i :: 0 <= i < n ==> Judged(writeOnly, inode, views[i]) == 0
    {
      var r := ProbeOnce(writeOnly, inode, views[n]);
      if r == 1 {
        return Local(n);
      }
      if r == -1 {
        return Failed(n);
      }
      n := n + 1;
    }
    p := Waiting;
  }

  /** `clear_xattrs`: a missing attribute is not an error, `locked` is left to the daemon; the second
      removal is tried whatever becomes of the first. */
  method ClearXattrs(file: File, stubFails: bool, oidFails: bool) returns (r: int, file': File)
    ensures r == if stubFails || oidFails then -1 else 0
    ensures file' == file.(stub := stubFails && file.stub, oid := if oidFails then file.oid else None)
  {
    r, file' := 0, file;
    if stubFails {
      r := -1;
    } else {
      file' := file'.(stub := false);
    }
    if oidFails {
      r := -1;
    } else {
      file' := file'.(oid := None);
    }
  }

  /** How an intercepted open ends. `Descriptor(at)`: the probe that ended it is number `at`;
      `Cleared`: a remote file opened with O_TRUNC; `Pending`: still waiting. */
  datatype OpenResult = Descriptor(at: nat) | Cleared(file: File) | Minus1 | Pending

  /** One element has been pushed, and it asks for this descriptor. */
  ghost predicate Requested(queue: Q.Queue, before: seq<Bytes>, pid: nat, fd: nat)
    reads queue
  {
    exists element: Bytes :: queue.pushed == before + [element] && R.IsRequest(element, pid, fd)
  }

  /** A mapped queue whose elements are large enough for a request. */
  ghost predicate Serves(queue: Q.Queue?) {
    queue != null && R.PROC_PID_FD_FD_PATH_MAX_LEN <= queue.dataMaxSize
  }

  /** A remote file that is not about to be truncated. */
  predicate ToFetch(writeOnly: bool, inode: Inode, views: seq<View>, truncate: bool)
    requires views != []
  {
    Judged(writeOnly, inode, views[0]) == 0 && !truncate
  }

  /** How a call that has requested its file ends: as the first later probe that does not find the file
      remote says, or not at all. */
  ghost predicate Ended(writeOnly: bool, inode: Inode, views: seq<View>, result: OpenResult) {
    match result
    case Pending => AllRemote(writeOnly, inode, views, 1)
    case Descriptor(at) => FirstSettled(writeOnly, inode, views, 1, at) && Judged(writeOnly, inode, views[at]) == 1
    case Minus1 =>
      exists at: nat :: FirstSettled(writeOnly, inode, views, 1, at) && Judged(writeOnly, inode, views[at]) == -1
    case Cleared(_) => false
  }

  /** `finish_open_common`. A file that the first probe finds local is returned at once. A remote one
      opened with O_TRUNC loses its attributes; for any other a download is requested, once, and the
      next probes decide. It waits only for room in the queue or while every probe finds the file remote,
      and fails only when a probe or a removal does or the request cannot be made. */
  method FinishOpenCommon(queue: Q.Queue?, pid: nat, fd: nat, truncate: bool, writeOnly: bool, inode: Inode,
                          views: seq<View>, stubFails: bool, oidFails: bool) returns (result: OpenResult)
    requires queue != null ==> queue.Valid()
    requires pid < R.U64 && fd < R.U64 && views != []
    modifies queue, if queue != null then {queue.region} else {}
    ensures queue != null ==> queue.Valid()
    // the first probe decides
    ensures Judged(writeOnly, inode, views[0]) == 1 ==> result == Descriptor(0)
    ensures Judged(writeOnly, inode, views[0]) == -1 ==> result == Minus1
    // remote, to be truncated
    ensures Judged(writeOnly, inode, views[0]) == 0 && truncate ==>
              result == if stubFails || oidFails then Minus1 else Cleared(views[0].file.(stub := false, oid := None))
    // remote, to be fetched
    ensures ToFetch(writeOnly, inode, views, truncate) && !Serves(queue) ==> result == Minus1
    ensures ToFetch(writeOnly, inode, views, truncate) && Serves(queue) && old(queue.curSize) == queue.maxSize ==>
              result == Pending
    ensures ToFetch(writeOnly, inode, views, truncate) && Serves(queue) && old(queue.curSize) != queue.maxSize ==>
              Requested(queue, old(queue.pushed), pid, fd) && Ended(writeOnly, inode, views, result)
    // otherwise nothing is pushed
    ensures queue != null ==>
              (!ToFetch(writeOnly, inode, views, truncate) || !Serves(queue) || old(queue.curSize) == queue.maxSize ==>
                 queue.pushed == old(queue.pushed))
  {
    var ret := ProbeOnce(writeOnly, inode, views[0]);
    if ret == 1 {
      return Descriptor(0);
    }
    if ret == -1 {
      return Minus1;
    }
    if truncate {
      var cleared, file := ClearXattrs(views[0].file, stubFails, oidFails);
      return if cleared == -1 then Minus1 else Cleared(file);
    }
    var stack := new byte[R.PROC_PID_FD_FD_PATH_MAX_LEN];
    var scheduled := R.ScheduleDownload(queue, pid, fd, stack);
    if scheduled == Q.Fail {
      return Minus1;
    }
    if scheduled == Q.Blocked {
      return Pending;
    }
    var polled := PollFileLocation(writeOnly, inode, views[1..]);
    result := match polled
              case Local(at) => Descriptor(at + 1)
              case Failed(_) => Minus1
              case Waiting => Pending;
    PollShift(writeOnly, inode, views, polled);
  }

  /** Probes of a call are numbered from its first one. */
  lemma PollShift(writeOnly: bool, inode: Inode, views: seq<View>, p: Polled)
    requires views != []
    requires !p.Waiting? ==> FirstSettled(writeOnly, inode, views[1..], 0, p.at)
    ensures AllRemote(writeOnly, inode, views[1..], 0) <==> AllRemote(writeOnly, inode, views, 1)
    ensures !p.Waiting? ==> FirstSettled(writeOnly, inode, views, 1, p.at + 1) && views[1..][p.at] == views[p.at + 1]
  {
    assert forall i :: 0 < i < |views| ==> views[i] == views[1..][i - 1];
    if AllRemote(writeOnly, inode, views, 1) {
      forall i | 0 <= i < |views[1..]| ensures Judged(writeOnly, inode, views[1..][i]) == 0 {
        assert views[1..][i] == views[i + 1];
      }
    }
  }
}
