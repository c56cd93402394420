/**
 A file sent to the store and brought back by the program's own two functions.
 */
module RoundTrip {
  import opened Tiering
  import opened TieringInvariant
  import opened FileOps

  /** No move from number `from` on is a hazard. */
  ghost predicate CarefulFrom(moves: seq<Move>, states: seq<State>, from: nat) {
    forall i: nat :: from <= i && Leads(moves, states, i) ==> !Hazard(states[i], moves[i])
  }

  /** Careful moves by workers keep the invariant and what the application last wrote. */
  lemma {:induction false} SegmentKeepsInv(moves: seq<Move>, states: seq<State>, me: nat, i: nat, j: nat)
    requires Ran(moves, states, me) && CarefulFrom(moves, states, i) && i <= j < |states| && Inv(states[i])
    ensures Inv(states[j]) && states[j].truth == states[i].truth
    decreases j
  {
    if i < j {
      SegmentKeepsInv(moves, states, me, i, j - 1);
      assert Made(moves, states, j - 1, me);
      MoveKeepsInv(states[j - 1], moves[j - 1]);
    }
  }

  /** A successful upload followed by a successful download restores exactly the original
      bytes and leaves neither attribute, whatever sizes the chunks had on either side and
      whatever failed and was rolled back without a hazard. `worldUp` and `worldDown` are what
      the two calls meet. */
  method UploadThenDownload(fs: FileSystem, f: nat, key: Key, worldUp: World, worldDown: World)
    returns (up: int, down: int)
    requires fs.Valid() && fs.At(Idle) && Inv(fs.Now())
    requires f < |fs.files| && !fs.files[f].stub
    modifies fs`files, fs`moves, fs`states, fs.store
    ensures fs.Valid() && fs.At(Idle)
    ensures CarefulFrom(fs.moves, fs.states, old(|fs.moves|)) ==> Inv(fs.Now())
    ensures CarefulFrom(fs.moves, fs.states, old(|fs.moves|)) && up == 0 && down == 0 && !worldDown.Fails(ProbeCall) ==>
      f < |fs.files| && !fs.files[f].stub && fs.files[f].oid.None? && fs.files[f].data == old(fs.files[f].data)
    // when nothing fails, both succeed if the store lets the transfers through
    ensures up == 0 ==> old(fs.Enters(f, worldUp))
    ensures old(fs.Enters(f, worldUp) && fs.files[f].oid.None?) && worldUp.failing == {} && up == -1 ==>
      !worldUp.usable || !worldUp.closes || BadPut(old(|fs.files[f].data|), fs.retries, worldUp)
  {
    ghost var from := |fs.states| - 1;
    assert FileOk(fs.Now(), f);
    var puts, gets;
    up, puts := fs.UploadFile(f, key, worldUp);
    down, gets := fs.DownloadFile(f, worldDown);
    if CarefulFrom(fs.moves, fs.states, from) {
      SegmentKeepsInv(fs.moves, fs.states, fs.me, from, |fs.states| - 1);
      assert f < |fs.files| ==> FileOk(fs.Now(), f);
    }
  }

  /** The attempts that the upload loop makes in this world do not end in success. */
  ghost predicate BadPut(size: nat, retries: int, world: World) {
    exists log :: Sends(size, retries, world, log) && !WentThrough(world, log)
  }
}
