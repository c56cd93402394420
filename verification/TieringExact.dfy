/**
 The hazards are exactly the moves that endanger a file: after any other move every
 careful continuation keeps every file intact, and after a hazard some careful
 continuation loses one.
 */
module TieringExact {
  import opened Options
  import opened Tiering
  import opened TieringInvariant
  import opened TieringTheorems
  import opened TieringPaths
  import opened TieringHazards

  /** The moves can be made from `s`, one after the other, and none is a hazard. */
  predicate CarefulPath(s: State, moves: seq<Move>)
    decreases |moves|
  {
    moves == [] || (CanMove(s, moves[0]) && !Hazard(s, moves[0]) && CarefulPath(Apply(s, moves[0]), moves[1..]))
  }

  /** After these careful moves file `g` is no longer intact. */
  predicate Loses(s: State, moves: seq<Move>, g: nat) {
    && CarefulPath(s, moves)
    && var end := Follow(s, moves);
       end.Some? && g < |end.value.files| && !Intact(end.value, g)
  }

  lemma {:induction false} PathKeepsInv(s: State, moves: seq<Move>)
    requires Inv(s) && CarefulPath(s, moves)
    ensures Follow(s, moves).Some? && Inv(Follow(s, moves).value)
    decreases |moves|
  {
    if moves != [] {
      MoveKeepsInv(s, moves[0]);
      PathKeepsInv(Apply(s, moves[0]), moves[1..]);
    }
  }

  lemma PathFirst(s: State, m: Move, rest: seq<Move>)
    requires CanMove(s, m) && !Hazard(s, m) && CarefulPath(Apply(s, m), rest)
    ensures CarefulPath(s, [m] + rest)
  {
    assert ([m] + rest)[1..] == rest;
  }

  lemma {:induction false} PathBoth(s: State, a: seq<Move>, b: seq<Move>)
    requires CarefulPath(s, a) && Follow(s, a).Some? && CarefulPath(Follow(s, a).value, b)
    ensures CarefulPath(s, a + b) && Follow(s, a + b) == Follow(Follow(s, a).value, b)
    decreases |a|
  {
    FollowBoth(s, a, b);
    if a == [] {
      assert a + b == b;
    } else {
      PathBoth(Apply(s, a[0]), a[1..], b);
      assert (a + b)[1..] == a[1..] + b;
    }
  }

  /** Calls that succeed are no hazards. */
  lemma {:induction false} GosAreCareful(s: State, moves: seq<Move>)
    requires Follow(s, moves).Some? && forall i :: 0 <= i < |moves| ==> moves[i].Go?
    ensures CarefulPath(s, moves)
    decreases |moves|
  {
    if moves != [] {
      GosAreCareful(Apply(s, moves[0]), moves[1..]);
    }
  }

  // ---- After a hazard --------------------------------------------------------------

  lemma FailedExtendLoses(s: State, w: nat)
    requires Inv(s) && CanMove(s, Fault(w)) && Hazard(s, Fault(w)) && s.workers[w].upAt.Extend?
    ensures Loses(Apply(s, Fault(w)), [Go(w), Go(w)], s.workers[w].f)
  {
    SecondTruncateFails(s, w);
    assert [Fault(w), Go(w), Go(w)] == [Fault(w)] + [Go(w), Go(w)];
    FollowFirst(s, Fault(w), [Go(w), Go(w)]);
    GosAreCareful(Apply(s, Fault(w)), [Go(w), Go(w)]);
  }

  lemma CutRollbackLoses(s: State, w: nat, m: Move)
    requires Inv(s) && CanMove(s, m) && Hazard(s, m) && (m == Fault(w) || m == Crash(w)) && s.workers[w].upAt.UndoStub?
    ensures Loses(Apply(s, m), [], s.workers[w].f)
  {
    NotInWindow(s, w, s.workers[w].f);
  }

  /** A suffix stored as if it were the file. */
  lemma SuffixLoses(s: State, w: nat, n: nat, stored: bool)
    requires Inv(s) && CanMove(s, PutTry(w, n, stored, Good))
    requires s.workers[w].upAt.pos > 0 && s.files[s.workers[w].f].oid.None?
    ensures Loses(Apply(s, PutTry(w, n, stored, Good)), [Go(w), Go(w)], s.workers[w].f)
  {
    var put := PutTry(w, n, stored, Good);
    RetriedUpload(s, w);
    assert [put, Go(w), Go(w)] == [put] + [Go(w), Go(w)];
    FollowFirst(s, put, [Go(w), Go(w)]);
    GosAreCareful(Apply(s, put), [Go(w), Go(w)]);
  }

  /** An object in use replaced by other bytes. */
  lemma ReplacedObjectLoses(s: State, w: nat, n: nat, verdict: Verdict, g: nat) returns (moves: seq<Move>)
    requires Inv(s) && CanMove(s, PutTry(w, n, true, verdict)) && g < |s.files|
    requires Differs(s, s.workers[w].key, s.files[s.workers[w].f].data[s.workers[w].upAt.pos..])
    requires Depends(s, g, s.workers[w].key)
    ensures Loses(Apply(s, PutTry(w, n, true, verdict)), moves, g)
  {
    var key := s.workers[w].key;
    if s.files[g].stub && s.files[g].oid == Some(key) {
      KeyCollision(s, w, n, verdict, g);
      moves := [];
    } else {
      var v :| 0 <= v < |s.workers| && IsMarking(s, v, g, key);
      KeyCollisionInFlight(s, w, n, verdict, v, g);
      moves := Marking(s, v);
      GosAreCareful(Apply(s, PutTry(w, n, true, verdict)), moves);
    }
  }

  /** Give up, and start the same download again. */
  function Again(w: nat, f: nat): seq<Move> {
    [GetEnd(w, GiveUp), Go(w), BeginDown(w, f)] + Gos(w, 3)
  }

  lemma AgainLeads(s: State, w: nat, f: nat, key: Key)
    requires OnFile(s, w) && s.workers[w].Down? && s.workers[w].f == f && s.workers[w].downAt.Get?
    requires s.files[f].stub && s.files[f].locked && s.files[f].oid == Some(key)
    ensures CarefulPath(s, Again(w, f))
    ensures Follow(s, Again(w, f)) == Some(Become(s, w, Down(f, DownAt.Get(key, 0, 0))))
  {
    var file := s.files[f];
    var s1 := Become(s, w, Down(f, DownAt.Unlock(false)));
    var s2 := Update(s1, w, Idle, file.(locked := false));
    var s3 := Become(s2, w, Down(f, DownAt.Lock));
    FollowThree(s, GetEnd(w, GiveUp), Go(w), BeginDown(w, f));
    assert Apply(s, GetEnd(w, GiveUp)) == s1 && Apply(s1, Go(w)) == s2 && Apply(s2, BeginDown(w, f)) == s3;
    var first := [GetEnd(w, GiveUp), Go(w), BeginDown(w, f)];
    PathFirst(s2, BeginDown(w, f), []);
    PathFirst(s1, Go(w), [BeginDown(w, f)]);
    PathFirst(s, GetEnd(w, GiveUp), [Go(w), BeginDown(w, f)]);
    assert [Go(w)] + [BeginDown(w, f)] == [Go(w), BeginDown(w, f)];
    assert [GetEnd(w, GiveUp)] + [Go(w), BeginDown(w, f)] == first;
    LockAgain(s3, w, f, key);
    PathBoth(s, first, Gos(w, 3));
    assert s2.files[f := file] == s.files;
    assert s3.workers[w := Down(f, DownAt.Get(key, 0, 0))] == s.workers[w := Down(f, DownAt.Get(key, 0, 0))];
  }

  lemma LockAgain(s: State, w: nat, f: nat, key: Key)
    requires OnFile(s, w) && s.workers[w] == Down(f, DownAt.Lock)
    requires s.files[f].stub && !s.files[f].locked && s.files[f].oid == Some(key)
    ensures CarefulPath(s, Gos(w, 3))
    ensures Follow(s, Gos(w, 3)) == Some(Update(s, w, Down(f, DownAt.Get(key, 0, 0)), s.files[f].(locked := true)))
  {
    var s1 := Apply(s, Go(w));
    var s2 := Apply(s1, Go(w));
    FollowThree(s, Go(w), Go(w), Go(w));
    assert Gos(w, 1) == [Go(w)] && Gos(w, 2) == [Go(w), Go(w)];
    assert Gos(w, 3) == [Go(w), Go(w), Go(w)];
    GosAreCareful(s, Gos(w, 3));
    var last := Down(f, DownAt.Get(key, 0, 0));
    assert Apply(s2, Go(w)).workers == s.workers[w := last];
  }

  /** A file written past its object's size: even the cleanest download brings it back wrong. */
  lemma OverrunLoses(s: State, w: nat, n: nat) returns (moves: seq<Move>)
    requires Inv(s) && CanMove(s, GetChunk(w, n)) && Hazard(s, GetChunk(w, n))
    ensures Loses(Apply(s, GetChunk(w, n)), moves, s.workers[w].f)
  {
    var f, key := s.workers[w].f, s.workers[w].downAt.key;
    var s1 := Apply(s, GetChunk(w, n));
    assert FileOk(s, f) && WorkerOk(s, s.workers[w]);
    AgainLeads(s1, w, f, key);
    var s2 := Become(s1, w, Down(f, DownAt.Get(key, 0, 0)));
    MoveKeepsLocks(s, GetChunk(w, n));
    StayKeepsLocks(s1, s2, w);
    CleanDownloadIff(s2, w);
    var whole := s.truth[f];
    var last := [GetChunk(w, |whole|), GetEnd(w, Good), Go(w)];
    CleanDownloadIsCareful(s2, w);
    PathBoth(s1, Again(w, f), last);
    moves := Again(w, f) + last;
  }

  lemma CleanDownloadIsCareful(s: State, w: nat)
    requires OnFile(s, w) && s.workers[w].Down? && s.workers[w].f < |s.truth|
    requires var f, at := s.workers[w].f, s.workers[w].downAt;
             && at.Get? && at.pos == 0 && at.off == 0
             && at.key in s.remote && s.remote[at.key] == s.truth[f] && s.truth[f] != []
    ensures CarefulPath(s, [GetChunk(w, |s.truth[s.workers[w].f]|), GetEnd(w, Good), Go(w)])
  {
    var whole := s.truth[s.workers[w].f];
    var s1 := Apply(s, GetChunk(w, |whole|));
    var s2 := Apply(s1, GetEnd(w, Good));
    PathFirst(s2, Go(w), []);
    PathFirst(s1, GetEnd(w, Good), [Go(w)]);
    PathFirst(s, GetChunk(w, |whole|), [GetEnd(w, Good), Go(w)]);
    assert [GetChunk(w, |whole|)] + [GetEnd(w, Good), Go(w)] == [GetChunk(w, |whole|), GetEnd(w, Good), Go(w)];
    assert [GetEnd(w, Good)] + [Go(w)] == [GetEnd(w, Good), Go(w)];
  }

  lemma HazardLoses(s: State, m: Move) returns (moves: seq<Move>, g: nat)
    requires Inv(s) && CanMove(s, m) && Hazard(s, m)
    ensures Loses(Apply(s, m), moves, g)
  {
    match m
    case Fault(w) =>
      g := s.workers[w].f;
      if s.workers[w].upAt.Extend? {
        FailedExtendLoses(s, w);
        moves := [Go(w), Go(w)];
      } else {
        CutRollbackLoses(s, w, m);
        moves := [];
      }
    case Crash(w) =>
      g, moves := s.workers[w].f, [];
      CutRollbackLoses(s, w, m);
    case PutTry(w, n, stored, verdict) =>
      if verdict.Good? && s.workers[w].upAt.pos > 0 && s.files[s.workers[w].f].oid.None? {
        g, moves := s.workers[w].f, [Go(w), Go(w)];
        SuffixLoses(s, w, n, stored);
      } else {
        g :| 0 <= g < |s.files| && Depends(s, g, s.workers[w].key);
        moves := ReplacedObjectLoses(s, w, n, verdict, g);
      }
    case GetChunk(w, n) =>
      g := s.workers[w].f;
      moves := OverrunLoses(s, w, n);
  }

  /** From any state of the invariant: a move is a hazard if and only if some careful
      continuation after it loses a file. So the theorems about careful runs leave out no move
      they could have covered. */
  lemma HazardIff(s: State, m: Move)
    requires Inv(s) && CanMove(s, m)
    ensures Hazard(s, m) <==> exists moves: seq<Move>, g: nat :: Loses(Apply(s, m), moves, g)
  {
    if Hazard(s, m) {
      var moves, g := HazardLoses(s, m);
    } else {
      MoveKeepsInv(s, m);
      forall moves: seq<Move>, g: nat ensures !Loses(Apply(s, m), moves, g) {
        if CarefulPath(Apply(s, m), moves) {
          PathKeepsInv(Apply(s, m), moves);
          var end := Follow(Apply(s, m), moves).value;
          if g < |end.files| {
            InvIntact(end, g);
          }
        }
      }
    }
  }
}
