/**
 The hazards are real: each is reached from files at rest by careful moves alone.
 Two local files with contents `a` and `b`, two idle workers, an empty store.
 */
module TieringWitnesses {
  import opened Bytes
  import opened Options
  import opened FileBytes
  import opened Tiering
  import opened TieringPaths
  import opened TieringExact
  import opened TruncatingOpen

  function Start(a: Bytes, b: Bytes): (s: State)
    ensures Initial(s)
  {
    State([File(a, false, false, None), File(b, false, false, None)], map[], [Idle, Idle], [a, b])
  }

  /** From files at rest, careful moves lead to a state where `m` can be made and is a hazard. */
  predicate Reached(a: Bytes, b: Bytes, moves: seq<Move>, m: Move) {
    && CarefulPath(Start(a, b), moves)
    && var s := Follow(Start(a, b), moves);
       s.Some? && CanMove(s.value, m) && Hazard(s.value, m)
  }

  /** Careful moves lead from one state to another. */
  predicate Carries(s: State, moves: seq<Move>, s': State) {
    CarefulPath(s, moves) && Follow(s, moves) == Some(s')
  }

  lemma CarriesOne(s: State, m: Move)
    requires CanMove(s, m) && !Hazard(s, m)
    ensures Carries(s, [m], Apply(s, m))
  {
    PathFirst(s, m, []);
    FollowFirst(s, m, []);
    assert [m] + [] == [m];
  }

  lemma CarriesOn(s: State, a: seq<Move>, s1: State, b: seq<Move>, s2: State)
    requires Carries(s, a, s1) && Carries(s1, b, s2)
    ensures Carries(s, a + b, s2)
  {
    PathBoth(s, a, b);
  }

  /** An uploading worker has the lock and is about to send. */
  function Entered(s: State, w: nat, f: nat, key: Key): State
    requires w < |s.workers| && f < |s.files|
  {
    s.(workers := s.workers[w := Up(f, key, UpAt.Put(0))], files := s.files[f := s.files[f].(locked := true)])
  }

  /** A call that begins, takes the lock and probes. */
  lemma EnterUp(s: State, w: nat, f: nat, key: Key)
    requires w < |s.workers| && s.workers[w].Idle? && f < |s.files| && !s.files[f].locked && !s.files[f].stub
    ensures Carries(s, [BeginUp(w, f, key), Go(w), Go(w)], Entered(s, w, f, key))
  {
    var s1 := Apply(s, BeginUp(w, f, key));
    var s2 := Apply(s1, Go(w));
    FollowThree(s, BeginUp(w, f, key), Go(w), Go(w));
    PathFirst(s2, Go(w), []);
    PathFirst(s1, Go(w), [Go(w)]);
    PathFirst(s, BeginUp(w, f, key), [Go(w), Go(w)]);
    assert Apply(s2, Go(w)).workers == s.workers[w := Up(f, key, UpAt.Put(0))];
    assert [BeginUp(w, f, key)] + [Go(w), Go(w)] == [BeginUp(w, f, key), Go(w), Go(w)];
    assert [Go(w)] + [Go(w)] == [Go(w), Go(w)];
  }

  lemma GosCarry(s: State, w: nat, k: nat, s': State)
    requires Follow(s, Gos(w, k)) == Some(s')
    ensures Carries(s, Gos(w, k), s')
  {
    OnlyGos(w, k);
    GosAreCareful(s, Gos(w, k));
  }

  lemma {:induction false} OnlyGos(w: nat, k: nat)
    ensures forall i :: 0 <= i < |Gos(w, k)| ==> Gos(w, k)[i].Go?
  {
    if k > 0 {
      OnlyGos(w, k - 1);
    }
  }

  /** Worker 0 has stored the first file and is about to mark it. */
  function Sent(a: Bytes, b: Bytes, key: Key): State {
    State([File(a, false, true, None), File(b, false, false, None)], map[key := a],
          [Up(0, key, UpAt.SetOid), Idle], [a, b])
  }

  function ToSent(a: Bytes, key: Key): seq<Move> {
    [BeginUp(0, 0, key), Go(0), Go(0)] + [PutTry(0, |a|, true, Good)]
  }

  lemma SentReached(a: Bytes, b: Bytes, key: Key)
    ensures Carries(Start(a, b), ToSent(a, key), Sent(a, b, key))
  {
    var s0 := Start(a, b);
    EnterUp(s0, 0, 0, key);
    var s1 := Entered(s0, 0, 0, key);
    var put := PutTry(0, |a|, true, Good);
    assert a[0..] == a;
    CarriesOne(s1, put);
    assert Apply(s1, put) == Sent(a, b, key);
    CarriesOn(s0, [BeginUp(0, 0, key), Go(0), Go(0)], s1, [put], Sent(a, b, key));
  }

  /** The first file is a stub, and nobody is inside. */
  function Uploaded(a: Bytes, b: Bytes, key: Key): State {
    State([File(Zeros(|a|), true, false, Some(key)), File(b, false, false, None)], map[key := a],
          [Idle, Idle], [a, b])
  }

  function ToUploaded(a: Bytes, key: Key): seq<Move> {
    ToSent(a, key) + Gos(0, 6)
  }

  lemma UploadedReached(a: Bytes, b: Bytes, key: Key)
    ensures Carries(Start(a, b), ToUploaded(a, key), Uploaded(a, b, key))
  {
    SentReached(a, b, key);
    SetOidEnds(Sent(a, b, key), 0);
    assert Sent(a, b, key).files[0 := Uploaded(a, b, key).files[0]] == Uploaded(a, b, key).files;
    assert Sent(a, b, key).workers[0 := Idle] == Uploaded(a, b, key).workers;
    GosCarry(Sent(a, b, key), 0, 6, Uploaded(a, b, key));
    CarriesOn(Start(a, b), ToSent(a, key), Sent(a, b, key), Gos(0, 6), Uploaded(a, b, key));
  }

  /** The first file, marked and measured, is about to be truncated. */
  function Marked(a: Bytes, b: Bytes, key: Key): State {
    State([File(a, true, true, Some(key)), File(b, false, false, None)], map[key := a],
          [Up(0, key, UpAt.Trunc(|a|)), Idle], [a, b])
  }

  lemma MarkedReached(a: Bytes, b: Bytes, key: Key)
    ensures Carries(Start(a, b), ToSent(a, key) + Gos(0, 3), Marked(a, b, key))
  {
    SentReached(a, b, key);
    assert Gos(0, 1) == [Go(0)] && Gos(0, 2) == [Go(0), Go(0)] && Gos(0, 3) == [Go(0), Go(0), Go(0)];
    var s := Sent(a, b, key);
    FollowThree(s, Go(0), Go(0), Go(0));
    var s1 := Apply(s, Go(0));
    var s2 := Apply(s1, Go(0));
    assert Apply(s2, Go(0)).files == Marked(a, b, key).files;
    assert Apply(s2, Go(0)).workers == Marked(a, b, key).workers;
    GosCarry(Sent(a, b, key), 0, 3, Marked(a, b, key));
    CarriesOn(Start(a, b), ToSent(a, key), Sent(a, b, key), Gos(0, 3), Marked(a, b, key));
  }

  /** The second ftruncate fails. */
  lemma FailedExtendReached(a: Bytes, b: Bytes, key: Key)
    requires a != []
    ensures Reached(a, b, ToSent(a, key) + Gos(0, 3) + [Go(0)], Fault(0))
  {
    MarkedReached(a, b, key);
    var s := Marked(a, b, key);
    CarriesOne(s, Go(0));
    CarriesOn(Start(a, b), ToSent(a, key) + Gos(0, 3), s, [Go(0)], Apply(s, Go(0)));
  }

  /** The first ftruncate fails, and the rollback is cut short after its first removal. */
  lemma CutRollbackReached(a: Bytes, b: Bytes, key: Key)
    ensures Reached(a, b, ToSent(a, key) + Gos(0, 3) + ([Fault(0)] + [Go(0)]), Fault(0))
    ensures Reached(a, b, ToSent(a, key) + Gos(0, 3) + ([Fault(0)] + [Go(0)]), Crash(0))
  {
    MarkedReached(a, b, key);
    var s := Marked(a, b, key);
    var s1 := Apply(s, Fault(0));
    CarriesOne(s, Fault(0));
    CarriesOne(s1, Go(0));
    CarriesOn(s, [Fault(0)], s1, [Go(0)], Apply(s1, Go(0)));
    CarriesOn(Start(a, b), ToSent(a, key) + Gos(0, 3), s, [Fault(0)] + [Go(0)], Apply(s1, Go(0)));
  }

  /** The second file is sent under the key of the first, already a stub. */
  lemma CollisionReached(a: Bytes, b: Bytes, key: Key)
    requires a != b
    ensures Reached(a, b, ToUploaded(a, key) + [BeginUp(1, 1, key), Go(1), Go(1)], PutTry(1, |b|, true, Good))
  {
    UploadedReached(a, b, key);
    var s := Uploaded(a, b, key);
    EnterUp(s, 1, 1, key);
    var s1 := Entered(s, 1, 1, key);
    CarriesOn(Start(a, b), ToUploaded(a, key), s, [BeginUp(1, 1, key), Go(1), Go(1)], s1);
    assert b[0..] == b && Depends(s1, 0, key);
  }

  /** The second file is sent under the key of the first while that one is not yet marked. */
  lemma CollisionInFlightReached(a: Bytes, b: Bytes, key: Key)
    requires a != b
    ensures Reached(a, b, ToSent(a, key) + [BeginUp(1, 1, key), Go(1), Go(1)], PutTry(1, |b|, true, Good))
  {
    SentReached(a, b, key);
    var s := Sent(a, b, key);
    EnterUp(s, 1, 1, key);
    var s1 := Entered(s, 1, 1, key);
    CarriesOn(Start(a, b), ToSent(a, key), s, [BeginUp(1, 1, key), Go(1), Go(1)], s1);
    assert b[0..] == b && IsMarking(s1, 0, 0, key);
    assert Depends(s1, 0, key);
  }

  /** A stub is taken for local, and its zero bytes are sent under its own key. */
  lemma MisjudgedProbeReached(a: Bytes, b: Bytes, key: Key)
    requires a != Zeros(|a|)
    ensures Reached(a, b, ToUploaded(a, key) + ([BeginUp(1, 0, key)] + ([Go(1)] + [Fault(1)])),
                    PutTry(1, |a|, true, Good))
  {
    UploadedReached(a, b, key);
    var s := Uploaded(a, b, key);
    var s1 := Apply(s, BeginUp(1, 0, key));
    var s2 := Apply(s1, Go(1));
    var s3 := Apply(s2, Fault(1));
    CarriesOne(s, BeginUp(1, 0, key));
    CarriesOne(s1, Go(1));
    CarriesOne(s2, Fault(1));
    CarriesOn(s1, [Go(1)], s2, [Fault(1)], s3);
    CarriesOn(s, [BeginUp(1, 0, key)], s1, [Go(1)] + [Fault(1)], s3);
    CarriesOn(Start(a, b), ToUploaded(a, key), s, [BeginUp(1, 0, key)] + ([Go(1)] + [Fault(1)]), s3);
    assert Zeros(|a|)[0..] == Zeros(|a|) && Depends(s3, 0, key);
  }

  /** An attempt consumes `n` bytes and fails; the next one succeeds with the rest. */
  lemma SuffixReached(a: Bytes, b: Bytes, key: Key, n: nat)
    requires 0 < n <= |a|
    ensures Reached(a, b, [BeginUp(0, 0, key), Go(0), Go(0)] + [PutTry(0, n, false, Retry)],
                    PutTry(0, |a| - n, true, Good))
  {
    var s := Start(a, b);
    EnterUp(s, 0, 0, key);
    var s1 := Entered(s, 0, 0, key);
    var put := PutTry(0, n, false, Retry);
    CarriesOne(s1, put);
    CarriesOn(s, [BeginUp(0, 0, key), Go(0), Go(0)], s1, [put], Apply(s1, put));
  }

  /** Worker 1 is about to receive the object of the first file. */
  function Receiving(a: Bytes, b: Bytes, key: Key): State {
    State([File(Zeros(|a|), true, true, Some(key)), File(b, false, false, None)], map[key := a],
          [Idle, Down(0, DownAt.Get(key, 0, 0))], [a, b])
  }

  function ToReceiving(a: Bytes, key: Key): seq<Move> {
    ToUploaded(a, key) + ([BeginDown(1, 0)] + Gos(1, 3))
  }

  lemma ReceivingReached(a: Bytes, b: Bytes, key: Key)
    ensures Carries(Start(a, b), ToReceiving(a, key), Receiving(a, b, key))
  {
    UploadedReached(a, b, key);
    var s := Uploaded(a, b, key);
    var s1 := Apply(s, BeginDown(1, 0));
    CarriesOne(s, BeginDown(1, 0));
    LockAgain(s1, 1, 0, key);
    assert Update(s1, 1, Down(0, DownAt.Get(key, 0, 0)), s1.files[0].(locked := true)) == Receiving(a, b, key);
    CarriesOn(s, [BeginDown(1, 0)], s1, Gos(1, 3), Receiving(a, b, key));
    CarriesOn(Start(a, b), ToUploaded(a, key), s, [BeginDown(1, 0)] + Gos(1, 3), Receiving(a, b, key));
  }

  /** An attempt writes one byte and fails; the next one writes the whole object after it. */
  lemma OverrunReached(a: Bytes, b: Bytes, key: Key)
    requires a != []
    ensures Reached(a, b, ToReceiving(a, key) + ([GetChunk(1, 1)] + [GetEnd(1, Retry)]), GetChunk(1, |a|))
  {
    ReceivingReached(a, b, key);
    var s := Receiving(a, b, key);
    var s1 := Apply(s, GetChunk(1, 1));
    CarriesOne(s, GetChunk(1, 1));
    CarriesOne(s1, GetEnd(1, Retry));
    CarriesOn(s, [GetChunk(1, 1)], s1, [GetEnd(1, Retry)], Apply(s1, GetEnd(1, Retry)));
    CarriesOn(Start(a, b), ToReceiving(a, key), s, [GetChunk(1, 1)] + [GetEnd(1, Retry)], Apply(s1, GetEnd(1, Retry)));
  }

  /** A whole download, from the call to the unlock. */
  function Download(w: nat, f: nat, n: nat): seq<Move> {
    [BeginDown(w, f)] + (Gos(w, 3) + ([GetChunk(w, n)] + ([GetEnd(w, Good)] + Gos(w, 3))))
  }

  /** Its bytes arrive in one chunk, in a file that holds none. */
  lemma FetchDown(s: State, w: nat, f: nat, key: Key, s': State)
    requires OnFile(s, w) && s.workers[w] == Down(f, DownAt.Get(key, 0, 0)) && key in s.remote && s.remote[key] != []
    requires s.files[f].stub && s.files[f].oid.Some? && s.files[f].data == []
    requires s' == s.(workers := s.workers[w := Idle], files := s.files[f := File(s.remote[key], false, false, None)])
    ensures Carries(s, [GetChunk(w, |s.remote[key]|)] + ([GetEnd(w, Good)] + Gos(w, 3)), s')
  {
    var whole := s.remote[key];
    var s1 := Apply(s, GetChunk(w, |whole|));
    var s2 := Apply(s1, GetEnd(w, Good));
    CarriesOne(s, GetChunk(w, |whole|));
    CarriesOne(s1, GetEnd(w, Good));
    assert whole[0..0 + |whole|] == whole && WriteAt([], 0, whole) == whole;
    assert s2.files[f := File(whole, false, false, None)] == s'.files && s2.workers[w := Idle] == s'.workers;
    FinishDown(s2, w, f, s');
    CarriesOn(s1, [GetEnd(w, Good)], s2, Gos(w, 3), s');
    CarriesOn(s, [GetChunk(w, |whole|)], s1, [GetEnd(w, Good)] + Gos(w, 3), s');
  }

  /** The lock that is missing between the kernel's truncation and the removals: a stub is unlocked
      when the kernel truncates it and when the attributes are removed, but a download has run from
      start to end in between. The file ends local with its old bytes. */
  lemma SplitOpenUndone(a: Bytes, b: Bytes, key: Key)
    requires a != []
    ensures Carries(Start(a, b), ToUploaded(a, key), Uploaded(a, b, key))
    ensures var s1 := KernelTruncated(Uploaded(a, b, key), 0);
            var s2 := s1.(files := s1.files[0 := File(a, false, false, None)]);
            && s1.files[0].stub && !s1.files[0].locked
            && Carries(s1, Download(1, 0, |a|), s2)
            && OidRemoved(StubRemoved(s2, 0), 0).files[0] == File(a, false, false, None)
  {
    UploadedReached(a, b, key);
    var s1 := KernelTruncated(Uploaded(a, b, key), 0);
    var s2 := s1.(files := s1.files[0 := File(a, false, false, None)]);
    var t1 := Apply(s1, BeginDown(1, 0));
    var t2 := Update(t1, 1, Down(0, DownAt.Get(key, 0, 0)), t1.files[0].(locked := true));
    var rest := [GetChunk(1, |a|)] + ([GetEnd(1, Good)] + Gos(1, 3));
    CarriesOne(s1, BeginDown(1, 0));
    LockAgain(t1, 1, 0, key);
    assert t2.files[0 := File(a, false, false, None)] == s2.files && t2.workers[1 := Idle] == s2.workers;
    FetchDown(t2, 1, 0, key, s2);
    CarriesOn(t1, Gos(1, 3), t2, rest, s2);
    CarriesOn(s1, [BeginDown(1, 0)], t1, Gos(1, 3) + rest, s2);
  }

  /** The two removals and the unlock of a download that has received everything. */
  lemma FinishDown(s: State, w: nat, f: nat, s': State)
    requires OnFile(s, w) && s.workers[w] == Down(f, DownAt.RemStub) && s.files[f].stub && s.files[f].oid.Some?
    requires s' == s.(workers := s.workers[w := Idle], files := s.files[f := File(s.files[f].data, false, false, None)])
    ensures Carries(s, Gos(w, 3), s')
  {
    var s1 := Apply(s, Go(w));
    var s2 := Apply(s1, Go(w));
    FollowThree(s, Go(w), Go(w), Go(w));
    assert Gos(w, 1) == [Go(w)] && Gos(w, 2) == [Go(w), Go(w)] && Gos(w, 3) == [Go(w), Go(w), Go(w)];
    assert Apply(s2, Go(w)).workers == s'.workers && Apply(s2, Go(w)).files == s'.files;
    GosCarry(s, w, 3, s');
  }

  /** A local file truncated by an open while its upload is about to set `object_id`: the library
      finds it local and returns; the upload makes it a stub that reads as all its old bytes. */
  lemma LocalOpenUndone(a: Bytes, b: Bytes, key: Key)
    ensures Carries(Start(a, b), ToSent(a, key), Sent(a, b, key))
    ensures var s1 := KernelTruncated(Sent(a, b, key), 0);
            var s2 := Follow(s1, Gos(0, 6));
            && !s1.files[0].stub && s1.truth[0] == []
            && s2.Some? && |s2.value.files| == 2 && s2.value.files[0].stub && Logical(s2.value, 0) == Some(a)
  {
    SentReached(a, b, key);
    SetOidEnds(KernelTruncated(Sent(a, b, key), 0), 0);
  }
}
