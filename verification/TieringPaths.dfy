/**
 Following a worker through the rest of its call: what a file is like when every
 remaining step succeeds.
 */
module TieringPaths {
  import opened Options
  import opened FileBytes
  import opened Tiering

  /** Follow `moves` from `s` while each can be made. */
  function Follow(s: State, moves: seq<Move>): Option<State>
    decreases |moves|
  {
    if moves == [] then Some(s)
    else if CanMove(s, moves[0]) then Follow(Apply(s, moves[0]), moves[1..])
    else None
  }

  lemma FollowFirst(s: State, m: Move, rest: seq<Move>)
    requires CanMove(s, m)
    ensures Follow(s, [m] + rest) == Follow(Apply(s, m), rest)
  {
    assert ([m] + rest)[1..] == rest;
  }

  lemma {:induction false} FollowBoth(s: State, a: seq<Move>, b: seq<Move>)
    requires Follow(s, a).Some?
    ensures Follow(s, a + b) == Follow(Follow(s, a).value, b)
    decreases |a|
  {
    if a == [] {
      assert a + b == b;
    } else {
      assert (a + b)[1..] == a[1..] + b;
      FollowBoth(Apply(s, a[0]), a[1..], b);
    }
  }

  lemma FollowTwo(s: State, a: Move, b: Move)
    requires CanMove(s, a) && CanMove(Apply(s, a), b)
    ensures Follow(s, [a, b]) == Some(Apply(Apply(s, a), b))
  {
    FollowFirst(s, a, [b]);
    FollowFirst(Apply(s, a), b, []);
    assert [a] + [b] == [a, b] && [b] + [] == [b];
  }

  lemma FollowThree(s: State, a: Move, b: Move, c: Move)
    requires CanMove(s, a) && CanMove(Apply(s, a), b) && CanMove(Apply(Apply(s, a), b), c)
    ensures Follow(s, [a, b, c]) == Some(Apply(Apply(Apply(s, a), b), c))
  {
    FollowFirst(s, a, [b, c]);
    FollowTwo(Apply(s, a), b, c);
    assert [a] + [b, c] == [a, b, c];
  }

  /** `k` successful calls of worker `w`. */
  function Gos(w: nat, k: nat): seq<Move> {
    if k == 0 then [] else [Go(w)] + Gos(w, k - 1)
  }

  /** After `moves` the worker has left, its file is `end`, and nothing else has changed. */
  predicate Ends(s: State, w: nat, moves: seq<Move>, end: File) {
    && OnFile(s, w)
    && Follow(s, moves) == Some(s.(workers := s.workers[w := Idle], files := s.files[s.workers[w].f := end]))
  }

  /** One more move in front, by the same worker on the same file. */
  lemma EndsFirst(s: State, w: nat, m: Move, wk: Worker, file: File, rest: seq<Move>, end: File)
    requires OnFile(s, w) && CanMove(s, m) && !wk.Idle? && wk.f == s.workers[w].f
    requires Apply(s, m) == Update(s, w, wk, file) && Ends(Apply(s, m), w, rest, end)
    ensures Ends(s, w, [m] + rest, end)
  {
    FollowFirst(s, m, rest);
    var f := wk.f;
    assert s.workers[w := wk][w := Idle] == s.workers[w := Idle];
    assert s.files[f := file][f := end] == s.files[f := end];
  }

  lemma GoEnds(s: State, w: nat, wk: Worker, file: File, k: nat, end: File)
    requires CanMove(s, Go(w)) && !wk.Idle? && wk.f == s.workers[w].f
    requires Apply(s, Go(w)) == Update(s, w, wk, file) && Ends(Apply(s, Go(w)), w, Gos(w, k), end)
    ensures Ends(s, w, Gos(w, k + 1), end)
  {
    EndsFirst(s, w, Go(w), wk, file, Gos(w, k), end);
  }

  // ---- The rest of an upload -------------------------------------------------------

  predicate UpAtPoint(s: State, w: nat, at: UpAt) {
    OnFile(s, w) && s.workers[w].Up? && s.workers[w].upAt == at
  }

  lemma UnlockEnds(s: State, w: nat)
    requires OnFile(s, w)
    requires (s.workers[w].Up? && s.workers[w].upAt.Unlock?) || (s.workers[w].Down? && s.workers[w].downAt.Unlock?)
    ensures Ends(s, w, Gos(w, 1), s.files[s.workers[w].f].(locked := false))
  {
    FollowFirst(s, Go(w), []);
    assert Gos(w, 1) == [Go(w)] + [];
  }

  lemma ExtendEnds(s: State, w: nat, size: nat)
    requires UpAtPoint(s, w, UpAt.Extend(size))
    ensures var file := s.files[s.workers[w].f];
            Ends(s, w, Gos(w, 2), file.(data := Resize(file.data, size), locked := false))
  {
    var wk, file := s.workers[w], s.files[s.workers[w].f];
    UnlockEnds(Apply(s, Go(w)), w);
    GoEnds(s, w, wk.(upAt := UpAt.Unlock(true)), file.(data := Resize(file.data, size)), 1,
           file.(data := Resize(file.data, size), locked := false));
  }

  lemma TruncEnds(s: State, w: nat, size: nat)
    requires UpAtPoint(s, w, UpAt.Trunc(size))
    ensures Ends(s, w, Gos(w, 3), s.files[s.workers[w].f].(data := Zeros(size), locked := false))
  {
    var wk, file := s.workers[w], s.files[s.workers[w].f];
    ExtendEnds(Apply(s, Go(w)), w, size);
    assert Resize([], size) == Zeros(size);
    GoEnds(s, w, wk.(upAt := UpAt.Extend(size)), file.(data := []), 2, file.(data := Zeros(size), locked := false));
  }

  lemma StatEnds(s: State, w: nat)
    requires UpAtPoint(s, w, UpAt.Stat)
    ensures var file := s.files[s.workers[w].f];
            Ends(s, w, Gos(w, 4), file.(data := Zeros(|file.data|), locked := false))
  {
    var wk, file := s.workers[w], s.files[s.workers[w].f];
    TruncEnds(Apply(s, Go(w)), w, |file.data|);
    GoEnds(s, w, wk.(upAt := UpAt.Trunc(|file.data|)), file, 3, file.(data := Zeros(|file.data|), locked := false));
  }

  lemma SetStubEnds(s: State, w: nat)
    requires UpAtPoint(s, w, UpAt.SetStub) && !s.files[s.workers[w].f].stub
    ensures var file := s.files[s.workers[w].f];
            Ends(s, w, Gos(w, 5), file.(data := Zeros(|file.data|), stub := true, locked := false))
  {
    var wk, file := s.workers[w], s.files[s.workers[w].f];
    StatEnds(Apply(s, Go(w)), w);
    GoEnds(s, w, wk.(upAt := UpAt.Stat), file.(stub := true), 4,
           file.(data := Zeros(|file.data|), stub := true, locked := false));
  }

  lemma SetOidEnds(s: State, w: nat)
    requires UpAtPoint(s, w, UpAt.SetOid) && !s.files[s.workers[w].f].stub && s.files[s.workers[w].f].oid.None?
    ensures var file := s.files[s.workers[w].f];
            Ends(s, w, Gos(w, 6),
                 file.(data := Zeros(|file.data|), stub := true, oid := Some(s.workers[w].key), locked := false))
  {
    var wk, file := s.workers[w], s.files[s.workers[w].f];
    SetStubEnds(Apply(s, Go(w)), w);
    GoEnds(s, w, wk.(upAt := UpAt.SetStub), file.(oid := Some(wk.key)), 5,
           file.(data := Zeros(|file.data|), stub := true, oid := Some(wk.key), locked := false));
  }

  /** From the request on: a request that stores the whole file, then every call succeeds. */
  lemma PutEnds(s: State, w: nat)
    requires UpAtPoint(s, w, UpAt.Put(0)) && !s.files[s.workers[w].f].stub && s.files[s.workers[w].f].oid.None?
    ensures var Up(f, key, _) := s.workers[w];
            var data := s.files[f].data;
            Follow(s, [PutTry(w, |data|, true, Good)] + Gos(w, 6)) ==
            Some(s.(workers := s.workers[w := Idle], remote := s.remote[key := data],
                    files := s.files[f := File(Zeros(|data|), true, false, Some(key))]))
  {
    var Up(f, key, _) := s.workers[w];
    var data := s.files[f].data;
    var put := PutTry(w, |data|, true, Good);
    var s' := Apply(s, put);
    FollowFirst(s, put, Gos(w, 6));
    SetOidEnds(s', w);
    assert data[0..] == data;
    assert s'.workers[w := Idle] == s.workers[w := Idle];
  }
}
