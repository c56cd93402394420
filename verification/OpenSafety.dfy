/**
 Processes that open files through the library while workers transfer them:
 `finish_open_common`, step by step, interleaved with the tiering machine.
 */
module OpenSafety {
  import opened Bytes
  import opened Options
  import opened Tiering
  import opened TieringInvariant
  import opened TieringTheorems
  import opened TruncatingOpen
  import L = Library

  /** Where a process is inside its call. `Returned` remembers the local bytes and the content
      the file should have had at the probe that ended the call. */
  datatype Opener =
    | Out
    | Asking(f: nat)       // about to probe for the first time
    | Remote(f: nat)       // found remote, about to request a download
    | Polling(f: nat)      // about to probe again
    | Returned(f: nat, seen: Bytes, want: Bytes)
    | Truncated(f: nat)    // with O_TRUNC: the kernel has truncated the file, about to probe
    | Clearing(f: nat)     // found remote, about to remove `stub`
    | ClearingOid(f: nat, failed: bool)  // about to remove `object_id`
    | Cleared(f: nat)      // with O_TRUNC: the descriptor was returned
    | Failed               // -1 was returned

  datatype System = System(tier: State, openers: seq<Opener>)

  datatype Action =
    | Transfer(m: Move)
    | Open(o: nat, f: nat)
    | OpenTruncating(o: nat, f: nat)
    | Probe(o: nat, error: bool)
    | Request(o: nat, error: bool)
    | ClearStub(o: nat, error: bool)
    | ClearOid(o: nat, error: bool)

  predicate Outside(opener: Opener) {
    opener.Out? || opener.Returned? || opener.Cleared? || opener.Failed?
  }

  /** Between the kernel's truncation and the last step of the call. */
  predicate InTruncation(opener: Opener) {
    opener.Truncated? || opener.Clearing? || opener.ClearingOid?
  }

  predicate InRange(s: System, opener: Opener) {
    !Outside(opener) ==> opener.f < |s.tier.files| && opener.f < |s.tier.truth|
  }

  predicate CanAct(s: System, a: Action) {
    match a
    case Transfer(m) => CanMove(s.tier, m)
    case Open(o, f) => o < |s.openers| && f < |s.tier.files| && f < |s.tier.truth| && Outside(s.openers[o])
    case OpenTruncating(o, f) =>
      o < |s.openers| && f < |s.tier.files| && f < |s.tier.truth| && Outside(s.openers[o])
    case Probe(o, _) =>
      o < |s.openers| && InRange(s, s.openers[o])
      && (s.openers[o].Asking? || s.openers[o].Polling? || s.openers[o].Truncated?)
    case Request(o, _) => o < |s.openers| && s.openers[o].Remote?
    case ClearStub(o, _) => o < |s.openers| && InRange(s, s.openers[o]) && s.openers[o].Clearing?
    case ClearOid(o, _) => o < |s.openers| && InRange(s, s.openers[o]) && s.openers[o].ClearingOid?
  }

  function Probed(file: File, want: Bytes, opener: Opener): Opener
    requires opener.Asking? || opener.Polling? || opener.Truncated?
  {
    match opener
    case Asking(f) => if file.stub then Remote(f) else Returned(f, file.data, want)
    case Polling(f) => if file.stub then Polling(f) else Returned(f, file.data, want)
    case Truncated(f) => if file.stub then Clearing(f) else Cleared(f)
  }

  function Act(s: System, a: Action): System
    requires CanAct(s, a)
  {
    match a
    case Transfer(m) => s.(tier := Apply(s.tier, m))
    case Open(o, f) => s.(openers := s.openers[o := Asking(f)])
    case OpenTruncating(o, f) => System(KernelTruncated(s.tier, f), s.openers[o := Truncated(f)])
    case Probe(o, error) =>
      var f := s.openers[o].f;
      s.(openers := s.openers[o :=
        if error then Failed else Probed(s.tier.files[f], s.tier.truth[f], s.openers[o])])
    case Request(o, error) =>
      s.(openers := s.openers[o := if error then Failed else Polling(s.openers[o].f)])
    case ClearStub(o, error) =>
      // a failure is remembered, and the second removal is tried all the same
      var f := s.openers[o].f;
      System(if error then s.tier else StubRemoved(s.tier, f), s.openers[o := ClearingOid(f, error)])
    case ClearOid(o, error) =>
      var f := s.openers[o].f;
      System(if error then s.tier else OidRemoved(s.tier, f),
             s.openers[o := if error || s.openers[o].failed then Failed else Cleared(f)])
  }

  predicate IsHistory(actions: seq<Action>, systems: seq<System>) {
    && |systems| == |actions| + 1
    && forall i :: 0 <= i < |actions| ==>
         CanAct(systems[i], actions[i]) && systems[i + 1] == Act(systems[i], actions[i])
  }

  /** No worker is inside a file that a process is truncating. */
  predicate Undisturbed(s: System) {
    forall o :: 0 <= o < |s.openers| && InTruncation(s.openers[o]) ==> NobodyHolds(s.tier, s.openers[o].f)
  }

  /** The removal of `stub` fails on a file that has it. */
  predicate StubKept(s: System, a: Action)
    requires CanAct(s, a)
  {
    a.ClearStub? && a.error && s.tier.files[s.openers[a.o].f].stub
  }

  /** No transfer is a hazard, no removal of `stub` fails, and no worker is inside a file in any state
      from the first to the last step of an open with O_TRUNC of it. */
  predicate CarefulHistory(actions: seq<Action>, systems: seq<System>)
    requires IsHistory(actions, systems)
  {
    && (forall i :: 0 <= i < |actions| && actions[i].Transfer? ==> !Hazard(systems[i].tier, actions[i].m))
    && (forall i :: 0 <= i < |actions| && actions[i].OpenTruncating? ==> NobodyHolds(systems[i].tier, actions[i].f))
    && (forall i :: 0 <= i < |actions| ==> !StubKept(systems[i], actions[i]))
    && (forall i :: 0 <= i < |systems| ==> Undisturbed(systems[i]))
  }

  predicate AllOut(s: System) {
    forall o :: 0 <= o < |s.openers| ==> s.openers[o].Out?
  }

  // ---- The invariant ---------------------------------------------------------------

  /** What a process that is truncating has established about its file. */
  predicate OpenerOk(s: System, opener: Opener) {
    match opener
    case Truncated(f) => f < |s.tier.files| && (s.tier.files[f].stub ==> s.tier.files[f].data == [])
    case Clearing(f) => f < |s.tier.files| && (s.tier.files[f].stub ==> s.tier.files[f].data == [])
    case ClearingOid(f, _) => f < |s.tier.files| && !s.tier.files[f].stub
    case _ => true
  }

  predicate SystemInv(s: System) {
    && Inv(s.tier)
    && forall o :: 0 <= o < |s.openers| ==> OpenerOk(s, s.openers[o])
  }

  /** A move leaves a file alone that nobody is inside before or after it, but for an application's
      write of a local file. */
  lemma MoveLeavesFile(s: State, m: Move, f: nat)
    requires CanMove(s, m) && f < |s.files| && NobodyHolds(s, f) && NobodyHolds(Apply(s, m), f)
    ensures |Apply(s, m).files| == |s.files|
    ensures Apply(s, m).files[f] == s.files[f] || (m.AppWrite? && m.f == f && !s.files[f].stub)
    ensures Apply(s, m).files[f].stub == s.files[f].stub
  {
    if !m.AppWrite? && OnFile(s, m.w) && s.workers[m.w].f == f {
      assert !HoldsFile(s.workers[m.w], f);
      assert !HoldsFile(Apply(s, m).workers[m.w], f);
    }
  }

  /** A change of one file that nobody is inside. */
  lemma UnheldChangeKeepsInv(s: State, s': State, f: nat)
    requires Inv(s) && f < |s.files| && NobodyHolds(s, f)
    requires s'.workers == s.workers && s'.remote == s.remote
    requires |s'.files| == |s.files| && |s'.truth| == |s.truth|
    requires forall g :: 0 <= g < |s.files| && g != f ==> s'.files[g] == s.files[g] && s'.truth[g] == s.truth[g]
    requires FileOk(s', f)
    ensures Inv(s')
  {
    forall g | 0 <= g < |s.files| && g != f ensures FileOk(s', g) {
      assert FileOk(s, g);
      if s.files[g].stub && s.files[g].oid.None? {
        var v :| 0 <= v < |s.workers| && AtUndoStub(s.workers[v], g);
        assert AtUndoStub(s'.workers[v], g);
      }
    }
    forall v | 0 <= v < |s.workers| && Holding(s.workers[v])
      ensures s.workers[v].f != f && WorkerOk(s', s'.workers[v])
    {
      assert WorkerOk(s, s.workers[v]);
      assert !HoldsFile(s.workers[v], f);
    }
  }

  lemma NotHeldNoWindow(s: State, f: nat)
    requires NobodyHolds(s, f)
    ensures !InWindow(s, f)
  {
    forall w | 0 <= w < |s.workers| ensures !AtUndoStub(s.workers[w], f) {
      assert !HoldsFile(s.workers[w], f);
    }
  }

  lemma KernelKeepsInv(s: State, f: nat)
    requires Inv(s) && f < |s.files| && NobodyHolds(s, f)
    ensures Inv(KernelTruncated(s, f))
  {
    assert FileOk(s, f);
    NotHeldNoWindow(s, f);
    UnheldChangeKeepsInv(s, KernelTruncated(s, f), f);
  }

  lemma RemovalsKeepInv(s: State, f: nat)
    requires Inv(s) && f < |s.files| && NobodyHolds(s, f)
    ensures (s.files[f].stub ==> s.files[f].data == []) ==> Inv(StubRemoved(s, f))
    ensures !s.files[f].stub ==> Inv(OidRemoved(s, f))
  {
    assert FileOk(s, f);
    if s.files[f].stub ==> s.files[f].data == [] {
      UnheldChangeKeepsInv(s, StubRemoved(s, f), f);
    }
    if !s.files[f].stub {
      UnheldChangeKeepsInv(s, OidRemoved(s, f), f);
    }
  }

  lemma TransferKeepsInv(s: System, m: Move)
    requires SystemInv(s) && CanMove(s.tier, m) && !Hazard(s.tier, m)
    requires Undisturbed(s) && Undisturbed(Act(s, Transfer(m)))
    ensures SystemInv(Act(s, Transfer(m)))
  {
    var s' := Act(s, Transfer(m));
    MoveKeepsInv(s.tier, m);
    forall o | 0 <= o < |s.openers| ensures OpenerOk(s', s.openers[o]) {
      assert OpenerOk(s, s.openers[o]);
      if InTruncation(s.openers[o]) {
        assert s'.openers[o] == s.openers[o];
        MoveLeavesFile(s.tier, m, s.openers[o].f);
      }
    }
  }

  lemma ActionKeepsInv(s: System, a: Action)
    requires SystemInv(s) && CanAct(s, a) && Undisturbed(s) && Undisturbed(Act(s, a))
    requires a.Transfer? ==> !Hazard(s.tier, a.m)
    requires a.OpenTruncating? ==> NobodyHolds(s.tier, a.f)
    requires !StubKept(s, a)
    ensures SystemInv(Act(s, a))
  {
    match a
    case Transfer(m) => TransferKeepsInv(s, m);
    case OpenTruncating(o, f) => KernelKeepsInv(s.tier, f);
    case ClearStub(o, _) =>
      assert OpenerOk(s, s.openers[o]);
      RemovalsKeepInv(s.tier, s.openers[o].f);
    case ClearOid(o, _) =>
      assert OpenerOk(s, s.openers[o]);
      RemovalsKeepInv(s.tier, s.openers[o].f);
    case _ =>
  }

  lemma {:induction false} HistoryKeepsInv(actions: seq<Action>, systems: seq<System>, i: nat)
    requires IsHistory(actions, systems) && CarefulHistory(actions, systems)
    requires Initial(systems[0].tier) && AllOut(systems[0]) && i < |systems|
    ensures SystemInv(systems[i])
  {
    if i == 0 {
      InitialInv(systems[0].tier);
    } else {
      HistoryKeepsInv(actions, systems, i - 1);
      assert Undisturbed(systems[i - 1]) && Undisturbed(systems[i]);
      ActionKeepsInv(systems[i - 1], actions[i - 1]);
    }
  }

  // ---- An open without O_TRUNC -----------------------------------------------------

  /** Step `j` of the history is a probe by `o`, inside its present call, that found `stub`
      absent; at that moment the file's local bytes were its content, as logged in `r`. */
  predicate SawLocal(actions: seq<Action>, systems: seq<System>, o: nat, r: Opener, j: nat, i: nat)
    requires IsHistory(actions, systems) && r.Returned?
  {
    && j < i < |systems|
    && actions[j] == Action.Probe(o, false)
    && CanAct(systems[j], actions[j]) && systems[j].openers[o].f == r.f
    && !systems[j].tier.files[r.f].stub
    && systems[j].tier.files[r.f].data == r.seen
    && Logical(systems[j].tier, r.f) == Some(r.seen)
    && systems[j].tier.truth[r.f] == r.seen
    && forall k :: j < k <= i ==> o < |systems[k].openers| && systems[k].openers[o] == r
  }

  /** A call that has returned the descriptor saw `stub` absent during the call, and at
      that moment the local bytes were exactly the file's content. */
  lemma {:induction false} OpenIsSafe(actions: seq<Action>, systems: seq<System>, i: nat, o: nat)
    requires IsHistory(actions, systems) && CarefulHistory(actions, systems)
    requires Initial(systems[0].tier) && AllOut(systems[0]) && i < |systems|
    requires o < |systems[i].openers| && systems[i].openers[o].Returned?
    ensures exists j: nat :: SawLocal(actions, systems, o, systems[i].openers[o], j, i)
  {
    if i > 0 {
      var was, a := systems[i - 1], actions[i - 1];
      var r := systems[i].openers[o];
      if was.openers[o] == r && !(a.Probe? && a.o == o) {
        OpenIsSafe(actions, systems, i - 1, o);
        var j: nat :| SawLocal(actions, systems, o, r, j, i - 1);
        assert SawLocal(actions, systems, o, r, j, i);
      } else {
        HistoryKeepsInv(actions, systems, i - 1);
        assert FileOk(was.tier, r.f);
        assert SawLocal(actions, systems, o, r, i - 1, i);
      }
    }
  }

  // ---- An open with O_TRUNC --------------------------------------------------------

  /** The file reads as empty, and that is what the application wants. */
  predicate ReadsEmpty(s: System, f: nat) {
    f < |s.tier.files| && f < |s.tier.truth| && s.tier.truth[f] == [] && Logical(s.tier, f) == Some([])
  }

  /** The opener is in a call that truncates `f`, or has just returned from one. */
  predicate Truncates(opener: Opener, f: nat) {
    (InTruncation(opener) || opener.Cleared?) && opener.f == f
  }

  predicate TruncatesAt(systems: seq<System>, n: nat, o: nat, f: nat) {
    n < |systems| && o < |systems[n].openers| && Truncates(systems[n].openers[o], f)
  }

  /** The opener's present or last call on `f` began with step `k` of the history. */
  predicate BeganAt(actions: seq<Action>, systems: seq<System>, o: nat, f: nat, k: nat, i: nat)
    requires IsHistory(actions, systems)
  {
    && k < i < |systems| && actions[k] == OpenTruncating(o, f)
    && (forall n :: k < n <= i ==> TruncatesAt(systems, n, o, f))
    && (forall n :: k < n < i ==> actions[n] != OpenTruncating(o, f))
  }

  /** In state `j`, after the call began, the truncation took effect. */
  predicate TookEffect(actions: seq<Action>, systems: seq<System>, o: nat, f: nat, k: nat, j: nat, i: nat)
    requires IsHistory(actions, systems)
  {
    BeganAt(actions, systems, o, f, k, i) && k < j <= i && ReadsEmpty(systems[j], f)
  }

  /** While a process is truncating a stub, only a removal by it or by another process that is
      truncating the file can make it local, and then it is empty. */
  lemma StubGoesEmpty(s: System, a: Action, o: nat)
    requires SystemInv(s) && CanAct(s, a) && Undisturbed(s) && Undisturbed(Act(s, a))
    requires o < |s.openers| && InTruncation(s.openers[o]) && s.openers[o].f < |s.tier.files|
    requires s.tier.files[s.openers[o].f].stub
    requires InTruncation(Act(s, a).openers[o]) || Act(s, a).openers[o].Cleared?
    requires Act(s, a).openers[o].f == s.openers[o].f
    ensures var s', f := Act(s, a), s.openers[o].f;
            f < |s'.tier.files| && (ReadsEmpty(s', f) || (InTruncation(s'.openers[o]) && s'.tier.files[f].stub))
  {
    var f := s.openers[o].f;
    assert OpenerOk(s, s.openers[o]);
    if a.Transfer? {
      MoveLeavesFile(s.tier, a.m, f);
    } else if a.ClearStub? {
      assert OpenerOk(s, s.openers[a.o]);
    } else if a.ClearOid? {
      assert OpenerOk(s, s.openers[a.o]);
    }
  }

  /** Who is truncating after a step was truncating before it, unless the step began the call. */
  lemma WasTruncating(s: System, a: Action, o: nat, f: nat)
    requires CanAct(s, a) && o < |Act(s, a).openers| && Truncates(Act(s, a).openers[o], f)
    requires a != OpenTruncating(o, f)
    ensures o < |s.openers| && Truncates(s.openers[o], f)
    ensures s.openers[o].Cleared? ==> Act(s, a).openers[o] == s.openers[o]
  {
  }

  /** A call that has begun, one step on. */
  lemma BeganOn(actions: seq<Action>, systems: seq<System>, o: nat, f: nat, k: nat, i: nat)
    requires IsHistory(actions, systems) && 0 < i < |systems| && TruncatesAt(systems, i, o, f)
    requires actions[i - 1] == OpenTruncating(o, f) ==> k == i - 1
    requires actions[i - 1] != OpenTruncating(o, f) ==> BeganAt(actions, systems, o, f, k, i - 1)
    ensures BeganAt(actions, systems, o, f, k, i)
  {
  }

  /** The first step of a call leaves an empty local file, or a stub. */
  lemma KernelEffect(s: System, o: nat, f: nat)
    requires CanAct(s, OpenTruncating(o, f))
    ensures var s' := Act(s, OpenTruncating(o, f));
            f < |s'.tier.files| && (ReadsEmpty(s', f) || s'.tier.files[f].stub)
  {
  }

  /** The truncation has taken effect, or the file is still a stub. */
  lemma {:induction false} Effect(actions: seq<Action>, systems: seq<System>, i: nat, o: nat, f: nat)
    returns (k: nat, j: nat)
    requires IsHistory(actions, systems) && CarefulHistory(actions, systems)
    requires Initial(systems[0].tier) && AllOut(systems[0])
    requires TruncatesAt(systems, i, o, f)
    ensures BeganAt(actions, systems, o, f, k, i)
    ensures TookEffect(actions, systems, o, f, k, j, i)
            || (InTruncation(systems[i].openers[o])
                && f < |systems[i].tier.files| && systems[i].tier.files[f].stub)
  {
    var s, a := systems[i - 1], actions[i - 1];
    if a == OpenTruncating(o, f) {
      k, j := i - 1, i;
      BeganOn(actions, systems, o, f, k, i);
      KernelEffect(s, o, f);
    } else {
      WasTruncating(s, a, o, f);
      assert TruncatesAt(systems, i - 1, o, f);
      k, j := Effect(actions, systems, i - 1, o, f);
      BeganOn(actions, systems, o, f, k, i);
      if !TookEffect(actions, systems, o, f, k, j, i - 1) {
        j := i;
        HistoryKeepsInv(actions, systems, i - 1);
        StubGoesEmpty(s, a, o);
      }
    }
  }

  /** A call with O_TRUNC that has returned the descriptor: at some moment during the call the file
      read as empty, and as the application wanted it to; from then on, as always, it reads as what
      the application last wrote. */
  lemma TruncatingOpenIsSafe(actions: seq<Action>, systems: seq<System>, i: nat, o: nat)
    requires IsHistory(actions, systems) && CarefulHistory(actions, systems)
    requires Initial(systems[0].tier) && AllOut(systems[0]) && i < |systems|
    requires o < |systems[i].openers| && systems[i].openers[o].Cleared?
    ensures exists k: nat, j: nat :: TookEffect(actions, systems, o, systems[i].openers[o].f, k, j, i)
    ensures forall n, f :: 0 <= n < |systems| && 0 <= f < |systems[n].tier.files| ==> Intact(systems[n].tier, f)
  {
    var k, j := Effect(actions, systems, i, o, systems[i].openers[o].f);
    forall n, f | 0 <= n < |systems| && 0 <= f < |systems[n].tier.files| ensures Intact(systems[n].tier, f) {
      HistoryKeepsInv(actions, systems, n);
      InvIntact(systems[n].tier, f);
    }
  }

  /** Should the removal of `stub` fail while that of `object_id` succeeds, the file is left a stub
      that names no object: nothing can be read from it. */
  lemma StubKeptStrands(s: System, o: nat)
    requires CanAct(s, ClearStub(o, true)) && s.tier.files[s.openers[o].f].stub
    ensures var s', f := Act(Act(s, ClearStub(o, true)), ClearOid(o, false)), s.openers[o].f;
            s'.openers[o].Failed? && f < |s'.tier.files| && s'.tier.files[f].stub && Logical(s'.tier, f).None?
  {
  }

  // ---- The library's call ----------------------------------------------------------

  /** A call of the library's `FinishOpenCommon` is shown the file as it was at moments of a
      history. Where it reports a descriptor after a probe with which nothing went wrong, that probe
      saw the file's content. */
  lemma DescriptorMeansContent(actions: seq<Action>, systems: seq<System>, f: nat, moments: seq<nat>, writeOnly: bool,
                               inode: L.Inode, views: seq<L.View>, result: L.OpenResult)
    requires IsHistory(actions, systems) && CarefulHistory(actions, systems)
    requires Initial(systems[0].tier) && AllOut(systems[0])
    requires |moments| == |views|
    requires forall k :: 0 <= k < |views| ==>
               moments[k] < |systems| && f < |systems[moments[k]].tier.files|
               && views[k].file == systems[moments[k]].tier.files[f]
               && (views[k].file.stub ==> inode.supported)
    requires result.Descriptor? && result.at < |views| && L.Judged(writeOnly, inode, views[result.at]) == 1
    requires views[result.at].fault == L.ProbeFault(None, None)
    ensures var tier := systems[moments[result.at]].tier;
            && f < |tier.truth| && views[result.at].file.data == tier.truth[f]
            && Logical(tier, f) == Some(views[result.at].file.data)
  {
    HistoryKeepsInv(actions, systems, moments[result.at]);
    assert FileOk(systems[moments[result.at]].tier, f);
  }

  // ---- The steps lead somewhere ----------------------------------------------------

  /** Who is outside may open any file; who is inside a call can always take a step of it. */
  lemma OpenerCanStep(s: System, o: nat)
    requires o < |s.openers| && InRange(s, s.openers[o])
    ensures Outside(s.openers[o]) ==> forall f :: 0 <= f < |s.tier.files| && f < |s.tier.truth| ==>
              CanAct(s, Open(o, f)) && CanAct(s, OpenTruncating(o, f))
    ensures !Outside(s.openers[o]) ==>
              || CanAct(s, Action.Probe(o, false)) || CanAct(s, Request(o, false))
              || CanAct(s, ClearStub(o, false)) || CanAct(s, ClearOid(o, false))
  {
  }

  /** A request that is made leaves the process polling its file; one that fails ends the call. */
  lemma RequestPolls(s: System, o: nat, error: bool)
    requires CanAct(s, Request(o, error))
    ensures var s' := Act(s, Request(o, error));
            s'.tier == s.tier && s'.openers[o] == if error then Failed else Polling(s.openers[o].f)
  {
  }

  /** Two removals end the call with the descriptor exactly when neither fails; each attribute is gone
      unless its removal failed. */
  lemma RemovalsEndIff(s: System, o: nat, stubError: bool, oidError: bool)
    requires CanAct(s, ClearStub(o, stubError))
    ensures var f, s1 := s.openers[o].f, Act(s, ClearStub(o, stubError));
            CanAct(s1, ClearOid(o, oidError)) &&
            var s2 := Act(s1, ClearOid(o, oidError));
            && Outside(s2.openers[o]) && (s2.openers[o].Cleared? <==> !stubError && !oidError)
            && f < |s2.tier.files|
            && (s2.tier.files[f].stub <==> stubError && s.tier.files[f].stub)
            && s2.tier.files[f].oid == if oidError then s.tier.files[f].oid else None
  {
  }

  /** A probe that does not fail ends the call exactly when the file is local, with the descriptor. */
  lemma ProbeEndsIff(s: System, o: nat)
    requires CanAct(s, Action.Probe(o, false))
    ensures var was, now := s.openers[o], Act(s, Action.Probe(o, false)).openers[o];
            && (Outside(now) <==> !s.tier.files[was.f].stub)
            && (Outside(now) ==> if was.Truncated? then now.Cleared? else now.Returned?)
  {
  }
}
