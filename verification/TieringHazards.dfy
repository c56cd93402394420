/**
 What each hazardous move costs. Every lemma starts from any state of the invariant,
 lets the program go on as it is written, and says exactly when content survives.
 */
module TieringHazards {
  import opened Bytes
  import opened Options
  import opened FileBytes
  import opened Tiering
  import opened TieringInvariant
  import opened TieringTheorems
  import opened TieringPaths

  /** The second ftruncate fails: both attributes are removed although the data is gone.
      The file keeps its content exactly when it had none. */
  lemma SecondTruncateFails(s: State, w: nat)
    requires Inv(s) && OnFile(s, w) && s.workers[w].Up? && s.workers[w].upAt.Extend?
    ensures var f := s.workers[w].f;
            var end := Follow(s, [Fault(w), Go(w), Go(w)]);
            && end.Some? && f < |end.value.files| && end.value.truth == s.truth
            && !end.value.files[f].stub && end.value.files[f].oid.None?
            && Logical(end.value, f) == Some([])
            && (Logical(end.value, f) == Some(s.truth[f]) <==> s.workers[w].upAt.size == 0)
  {
    var f := s.workers[w].f;
    assert FileOk(s, f) && WorkerOk(s, s.workers[w]);
    FollowThree(s, Fault(w), Go(w), Go(w));
  }

  /** The location probe fails on a file that is already remote under this key: the sparse
      local bytes replace the object. Content survives exactly when they are still it. */
  lemma ProbeErrorOnRemote(s: State, w: nat)
    requires Inv(s) && OnFile(s, w) && s.workers[w].Up? && s.workers[w].upAt.Probe?
    requires s.files[s.workers[w].f].stub && s.files[s.workers[w].f].oid == Some(s.workers[w].key)
    ensures var f, n := s.workers[w].f, |s.files[s.workers[w].f].data|;
            var end := Follow(s, [Fault(w), PutTry(w, n, true, Good)]);
            && end.Some? && f < |end.value.files| && end.value.truth == s.truth
            && Logical(end.value, f) == Some(s.files[f].data)
            && (Logical(end.value, f) == Some(s.truth[f]) <==> s.files[f].data == s.truth[f])
  {
    var f := s.workers[w].f;
    var n := |s.files[f].data|;
    var put := PutTry(w, n, true, Good);
    assert FileOk(s, f);
    assert s.files[f].data[0..] == s.files[f].data;
    FollowTwo(s, Fault(w), put);
  }

  /** A request replaces an object that some file is a stub of, another file under the same key
      or the worker's own after a misjudged probe. However the request ends, that file keeps its
      content exactly when what was sent agrees with it, that is, when the object is the same. */
  lemma KeyCollision(s: State, w: nat, n: nat, verdict: Verdict, g: nat)
    requires Inv(s) && CanMove(s, PutTry(w, n, true, verdict))
    requires g < |s.files| && s.files[g].stub && s.files[g].oid == Some(s.workers[w].key)
    ensures var Up(f, key, at) := s.workers[w];
            var body := s.files[f].data[at.pos..];
            && (Logical(Apply(s, PutTry(w, n, true, verdict)), g) == Some(s.truth[g]) <==> body == s.truth[g])
            && (body == s.truth[g] <==> !Differs(s, key, body))
  {
    assert FileOk(s, g);
  }

  /** The moves of worker `v` that make its file a stub of the object it has stored. */
  function Marking(s: State, v: nat): seq<Move>
    requires v < |s.workers|
  {
    if s.workers[v].Up? && s.workers[v].upAt.SetStub? then [Go(v)] else [Go(v), Go(v)]
  }

  /** A request replaces the object that another worker has stored and is about to make a file a
      stub of. Once that is done the file reads as the intruder's bytes; it keeps its content
      exactly when they agree. */
  lemma KeyCollisionInFlight(s: State, w: nat, n: nat, verdict: Verdict, v: nat, g: nat)
    requires Inv(s) && CanMove(s, PutTry(w, n, true, verdict))
    requires v < |s.workers| && g < |s.files| && IsMarking(s, v, g, s.workers[w].key)
    ensures var Up(f, key, at) := s.workers[w];
            var body := s.files[f].data[at.pos..];
            var end := Follow(Apply(s, PutTry(w, n, true, verdict)), Marking(s, v));
            && end.Some? && g < |end.value.files| && end.value.truth == s.truth && end.value.files[g].stub
            && Logical(end.value, g) == Some(body)
            && (Logical(end.value, g) == Some(s.truth[g]) <==> body == s.truth[g])
            && (body == s.truth[g] <==> !Differs(s, key, body))
  {
    assert FileOk(s, g) && WorkerOk(s, s.workers[v]);
    var s1 := Apply(s, PutTry(w, n, true, verdict));
    assert v != w && s1.workers[v] == s.workers[v];
    if s.workers[v].upAt.SetStub? {
      FollowFirst(s1, Go(v), []);
      assert [Go(v)] + [] == [Go(v)];
    } else {
      FollowTwo(s1, Go(v), Go(v));
    }
  }

  /** A failed attempt has consumed `pos` bytes of the stream and the next one succeeds: the
      object is the rest of the file. Once `stub` is set the file reads as that suffix, and
      as its content exactly when nothing had been consumed. */
  lemma RetriedUpload(s: State, w: nat)
    requires Inv(s) && OnFile(s, w) && s.workers[w].Up? && s.workers[w].upAt.Put?
    requires !s.files[s.workers[w].f].stub && s.files[s.workers[w].f].oid.None?
    ensures var f, pos := s.workers[w].f, s.workers[w].upAt.pos;
            pos <= |s.files[f].data| &&
            var end := Follow(s, [PutTry(w, |s.files[f].data| - pos, true, Good), Go(w), Go(w)]);
            && end.Some? && f < |end.value.files| && end.value.truth == s.truth
            && Logical(end.value, f) == Some(s.files[f].data[pos..])
            && (Logical(end.value, f) == Some(s.truth[f]) <==> pos == 0)
  {
    var f := s.workers[w].f;
    assert FileOk(s, f) && WorkerOk(s, s.workers[w]);
    var put := PutTry(w, |s.files[f].data| - s.workers[w].upAt.pos, true, Good);
    FollowThree(s, put, Go(w), Go(w));
  }

  /** A failed attempt has written bytes before this one and the stream was not rewound: the
      download succeeds and the file reads as its content exactly when nothing had been written. */
  lemma RetriedDownload(s: State, w: nat)
    requires Inv(s) && OnFile(s, w) && s.workers[w].Down? && s.workers[w].downAt.Get?
    requires s.workers[w].downAt.off < |s.truth[s.workers[w].f]|
    ensures var f, at := s.workers[w].f, s.workers[w].downAt;
            at.key in s.remote && at.off <= |s.remote[at.key]| &&
            var n := |s.remote[at.key]| - at.off;
            var end := Follow(s, [GetChunk(w, n), GetEnd(w, Good), Go(w)]);
            && end.Some? && f < |end.value.files| && end.value.truth == s.truth
            && !end.value.files[f].stub
            && (Logical(end.value, f) == Some(s.truth[f]) <==> at.pos == at.off)
  {
    var f, at := s.workers[w].f, s.workers[w].downAt;
    assert FileOk(s, f) && WorkerOk(s, s.workers[w]);
    var n := |s.remote[at.key]| - at.off;
    var s1 := Apply(s, GetChunk(w, n));
    var s2 := Apply(s1, GetEnd(w, Good));
    var s3 := Apply(s2, Go(w));
    LastChunk(s.files[f].data, s.truth[f], at.pos, at.off);
    assert s3.files[f] == s.files[f].(data := s1.files[f].data, stub := false);
    FollowThree(s, GetChunk(w, n), GetEnd(w, Good), Go(w));
  }

  /** The rest of the object, written at `pos`, completes the file exactly when it belongs there. */
  lemma LastChunk(data: Bytes, whole: Bytes, pos: nat, off: nat)
    requires off <= pos <= |data| <= |whole| && off < |whole|
    requires pos == off ==> data[..off] == whole[..off]
    ensures WriteAt(data, pos, whole[off..off + (|whole| - off)]) == whole <==> pos == off
  {
    WriteAtPrefix(data, pos, whole[off..]);
    assert whole[off..off + (|whole| - off)] == whole[off..];
    if pos == off {
      assert whole == whole[..off] + whole[off..];
      assert WriteAt(data, pos, whole[off..])[..|whole|] == WriteAt(data, pos, whole[off..]);
    }
  }

  /** A download from the beginning that never fails brings the content back exactly when the
      stub is not longer than its object: the stream is opened without truncating. */
  lemma CleanDownloadIff(s: State, w: nat)
    requires Locks(s) && OnFile(s, w) && s.workers[w].Down?
    requires var f, at := s.workers[w].f, s.workers[w].downAt;
             && at.Get? && at.pos == 0 && at.off == 0
             && s.files[f].stub && s.files[f].oid == Some(at.key)
             && at.key in s.remote && s.remote[at.key] == s.truth[f] && s.truth[f] != []
    ensures var f := s.workers[w].f;
            var end := Follow(s, [GetChunk(w, |s.truth[f]|), GetEnd(w, Good), Go(w)]);
            && end.Some? && f < |end.value.files| && end.value.truth == s.truth
            && !end.value.files[f].stub
            && (Logical(end.value, f) == Some(s.truth[f]) <==> |s.files[f].data| <= |s.truth[f]|)
  {
    var f, whole := s.workers[w].f, s.truth[s.workers[w].f];
    var s1 := Apply(s, GetChunk(w, |whole|));
    var s2 := Apply(s1, GetEnd(w, Good));
    var s3 := Apply(s2, Go(w));
    assert whole[0..0 + |whole|] == whole && [] + whole == whole;
    assert s3.files[f] == s.files[f].(data := WriteAt(s.files[f].data, 0, whole), stub := false);
    FollowThree(s, GetChunk(w, |whole|), GetEnd(w, Good), Go(w));
  }

  // ---- A stub without a name -------------------------------------------------------

  /** A file that can be brought back neither by a download, which needs the name, nor by an
      upload, which takes it for remote: a stub without `object_id` whose holder, if any, has not got
      further than storing it, or one that a mistaken upload has just named and is about to unname. */
  predicate Orphaned(s: State, f: nat) {
    && f < |s.files| && s.files[f].stub
    && ((s.files[f].oid.None? && forall w :: 0 <= w < |s.workers| && HoldsFile(s.workers[w], f) ==>
                                   Helpless(s, s.workers[w]))
        || exists w :: 0 <= w < |s.workers| && Unnaming(s, w, f))
  }

  predicate Helpless(s: State, wk: Worker) {
    || (wk.Up? && (wk.upAt.Probe? || wk.upAt.Put? || wk.upAt.Unlock? || (wk.upAt.SetOid? && wk.key in s.remote)))
    || (wk.Down? && (wk.downAt.Probe? || wk.downAt.GetOid? || wk.downAt.Unlock?))
  }

  predicate Unnaming(s: State, w: nat, f: nat) {
    && w < |s.workers| && f < |s.files|
    && var wk := s.workers[w];
       wk.Up? && wk.f == f && (wk.upAt.SetStub? || wk.upAt == UpAt.UndoOid(false))
       && s.files[f].oid == Some(wk.key) && wk.key in s.remote
  }

  /** The mistaken upload fails to take the name back, or dies before it does. */
  predicate Repairs(s: State, m: Move, f: nat) {
    || (m.Fault? && Unnaming(s, m.w, f) && s.workers[m.w].upAt.UndoOid?)
    || (m.Crash? && Unnaming(s, m.w, f))
  }

  /** A rollback that stops between its two removals, because the second fails or the worker
      dies, leaves a stub. The file can still be read exactly when the first removal had failed;
      otherwise it is orphaned. */
  lemma RollbackCutShort(s: State, w: nat, m: Move)
    requires Inv(s) && OnFile(s, w) && s.workers[w].Up? && s.workers[w].upAt.UndoStub?
    requires m == Fault(w) || m == Crash(w)
    ensures CanMove(s, m)
    ensures var s', f := Apply(s, m), s.workers[w].f;
            && s'.files[f].stub
            && (Logical(s', f) == Some(s.truth[f]) <==> s.files[f].oid.Some?)
            && (Logical(s', f).None? <==> s.files[f].oid.None?)
            && (Orphaned(s', f) <==> s.files[f].oid.None?)
  {
    assert FileOk(s, s.workers[w].f);
  }

  /** A move of the worker inside an orphaned file. */
  lemma HolderKeepsOrphan(s: State, m: Move, f: nat)
    requires Locks(s) && CanMove(s, m) && Orphaned(s, f)
    requires (m.Go? || m.Fault? || m.Crash? || m.PutTry?) && HoldsFile(s.workers[m.w], f)
    ensures Orphaned(Apply(s, m), f) <==> !Repairs(s, m, f)
    ensures Apply(s, m).files[f].data == s.files[f].data
    ensures Repairs(s, m, f) ==> Apply(s, m).files[f].stub && Logical(Apply(s, m), f).Some?
  {
    var s' := Apply(s, m);
    if Unnaming(s, m.w, f) {
      assert m.Go? && s.workers[m.w].upAt.SetStub? ==> Unnaming(s', m.w, f);
      assert m.Fault? && s.workers[m.w].upAt.SetStub? ==> Unnaming(s', m.w, f);
    } else {
      forall v | 0 <= v < |s.workers| && v != m.w ensures !Unnaming(s, v, f) {
      }
      assert m.Go? && s.workers[m.w].Up? && s.workers[m.w].upAt.SetOid? ==> Unnaming(s', m.w, f);
    }
  }

  /** A move of any other worker, or of the application, while an upload is about to unname the file. */
  lemma UnnamingKept(s: State, m: Move, f: nat, v: nat)
    requires Locks(s) && CanMove(s, m) && Unnaming(s, v, f) && s.files[f].stub
    requires m.AppWrite? || !HoldsFile(s.workers[m.w], f)
    ensures Unnaming(Apply(s, m), v, f) && Apply(s, m).files[f] == s.files[f]
  {
    assert Holding(s.workers[v]) && s.files[f].locked;
    if m.Go? && s.workers[m.w].f == f {
      // a worker outside the file finds it locked
      assert Apply(s, m).files == s.files;
    } else if !m.AppWrite? {
      assert m.w != v;
    }
  }

  /** Such a move while the file has no name. */
  lemma NamelessKept(s: State, m: Move, f: nat)
    requires Locks(s) && CanMove(s, m) && f < |s.files| && s.files[f].stub && s.files[f].oid.None?
    requires forall w :: 0 <= w < |s.workers| && HoldsFile(s.workers[w], f) ==> Helpless(s, s.workers[w])
    requires m.AppWrite? || !HoldsFile(s.workers[m.w], f)
    ensures Orphaned(Apply(s, m), f) && Apply(s, m).files[f] == s.files[f].(locked := Apply(s, m).files[f].locked)
  {
    var s' := Apply(s, m);
    forall v | 0 <= v < |s'.workers| && HoldsFile(s'.workers[v], f) ensures Helpless(s', s'.workers[v]) {
      if m.AppWrite? || v != m.w {
        assert Helpless(s, s.workers[v]);
      }
    }
  }

  lemma OthersKeepOrphan(s: State, m: Move, f: nat)
    requires Locks(s) && CanMove(s, m) && Orphaned(s, f)
    requires m.AppWrite? || !HoldsFile(s.workers[m.w], f)
    ensures Orphaned(Apply(s, m), f) && !Repairs(s, m, f)
    ensures Apply(s, m).files[f].data == s.files[f].data
  {
    if v :| 0 <= v < |s.workers| && Unnaming(s, v, f) {
      UnnamingKept(s, m, f, v);
    } else {
      NamelessKept(s, m, f);
    }
  }

  /** Exactly one thing repairs an orphan: an upload that took it for local stores it, names it, and
      then fails to take the name back or dies. Over any run, hazards included, the file stays
      orphaned, and its local bytes stay as they are, until that happens. */
  lemma {:induction false} OrphanUntilRepaired(moves: seq<Move>, states: seq<State>, i: nat, j: nat, f: nat)
    requires IsRun(moves, states) && i <= j < |states| && Locks(states[i]) && Orphaned(states[i], f)
    ensures Locks(states[j])
    ensures (forall n :: i <= n <= j ==> Orphaned(states[n], f))
            <==> (forall n :: i <= n < j ==> !Repairs(states[n], moves[n], f))
    ensures (forall n :: i <= n <= j ==> Orphaned(states[n], f)) ==> states[j].files[f].data == states[i].files[f].data
    decreases j
  {
    if i < j {
      OrphanUntilRepaired(moves, states, i, j - 1, f);
      assert Leads(moves, states, j - 1);
      var s, m := states[j - 1], moves[j - 1];
      MoveKeepsLocks(s, m);
      if Orphaned(s, f) {
        OrphanMove(s, m, f);
      }
    }
  }

  lemma OrphanMove(s: State, m: Move, f: nat)
    requires Locks(s) && CanMove(s, m) && Orphaned(s, f)
    ensures Orphaned(Apply(s, m), f) <==> !Repairs(s, m, f)
    ensures f < |Apply(s, m).files| && Apply(s, m).files[f].data == s.files[f].data
    ensures Repairs(s, m, f) ==> Apply(s, m).files[f].stub && Logical(Apply(s, m), f).Some?
  {
    if !m.AppWrite? && HoldsFile(s.workers[m.w], f) {
      HolderKeepsOrphan(s, m, f);
    } else {
      OthersKeepOrphan(s, m, f);
    }
  }
}
