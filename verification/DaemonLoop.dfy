/**
 The consumer of the daemon: `transfer_files_loop` over a primary and a secondary
 queue, while producers go on pushing between its steps. What the producers push, and
 when, is an arbitrary schedule; the loop is proved to do on it exactly what `Run` says.
 */
module DaemonLoop {
  import opened Bytes
  import Q = Queue

  // ---- What the loop does on a schedule --------------------------------------------

  /** One of the two queues: its limits, everything it ever received, how much it has given out.
      A missing queue has no room. */
  datatype Side = Side(max: nat, dataMax: nat, received: seq<Bytes>, given: nat)

  /** What one iteration did. */
  datatype Round = Acted(fromPrimary: bool, element: Bytes) | NothingToDo

  /** What other threads try to push before the first try of an iteration, and between its tries, and
      whether an action performed in it fails. */
  datatype Arrivals = Arrivals(toPrimary: seq<Bytes>, toSecondary: seq<Bytes>,
                               laterToPrimary: seq<Bytes>, laterToSecondary: seq<Bytes>, actionFails: bool)

  datatype Daemon = Daemon(primary: Side, secondary: Side, log: seq<Round>)

  /** A push that does not wait: a full queue and a wrong size are the producer's problem. */
  function Offer(side: Side, element: Bytes): Side {
    if 0 < |element| <= side.dataMax && |side.received| - side.given < side.max
    then side.(received := side.received + [element]) else side
  }

  function OfferAll(side: Side, batch: seq<Bytes>): Side {
    if batch == [] then side else Offer(OfferAll(side, batch[..|batch| - 1]), batch[|batch| - 1])
  }

  /** A queue with room for an element receives it, behind all others; one that is full, or whose
      elements are too small, stays as it was. */
  lemma OfferReceives(side: Side, element: Bytes)
    ensures Offer(side, element).received ==
              if |element| == 0 || |element| > side.dataMax || |side.received| >= side.given + side.max
              then side.received else side.received + [element]
  {
  }

  predicate Empty(side: Side) {
    |side.received| <= side.given
  }

  function Take(side: Side): Side {
    side.(given := side.given + 1)
  }

  function Iterate(d: Daemon, a: Arrivals): Daemon {
    var p, s := OfferAll(d.primary, a.toPrimary), OfferAll(d.secondary, a.toSecondary);
    if !Empty(p) then Daemon(Take(p), s, d.log + [Acted(true, p.received[p.given])])
    else
      var p', s' := OfferAll(p, a.laterToPrimary), OfferAll(s, a.laterToSecondary);
      if !Empty(s') then Daemon(p', Take(s'), d.log + [Acted(false, s'.received[s'.given])])
      else Daemon(p', s', d.log + [NothingToDo])
  }

  function Run(d: Daemon, schedule: seq<Arrivals>): Daemon {
    if schedule == [] then d else Iterate(Run(d, schedule[..|schedule| - 1]), schedule[|schedule| - 1])
  }

  // ---- What that means -------------------------------------------------------------

  /** The elements acted on from one of the queues, in order. */
  function From(log: seq<Round>, primary: bool): seq<Bytes> {
    if log == [] then []
    else
      var e := log[|log| - 1];
      From(log[..|log| - 1], primary) + if e.Acted? && e.fromPrimary == primary then [e.element] else []
  }

  lemma FromSnoc(log: seq<Round>, e: Round, primary: bool)
    ensures From(log + [e], primary)
         == From(log, primary) + if e.Acted? && e.fromPrimary == primary then [e.element] else []
  {
    assert (log + [e])[..|log|] == log;
  }

  /** Actions that failed, in the first iterations. */
  function Failures(log: seq<Round>, schedule: seq<Arrivals>): nat
    requires |log| <= |schedule|
  {
    if log == [] then 0
    else
      var last := |log| - 1;
      Failures(log[..last], schedule) + if log[last].Acted? && schedule[last].actionFails then 1 else 0
  }

  /** Pushes only add at the end. */
  lemma {:induction false} OfferAllAdds(side: Side, batch: seq<Bytes>)
    ensures var side' := OfferAll(side, batch);
            side.received <= side'.received && side'.given == side.given
            && side'.max == side.max && side'.dataMax == side.dataMax
  {
    if batch != [] {
      OfferAllAdds(side, batch[..|batch| - 1]);
    }
  }

  lemma IterateAdds(d: Daemon, a: Arrivals)
    ensures var d' := Iterate(d, a);
            d.primary.received <= d'.primary.received && d.secondary.received <= d'.secondary.received
            && |d'.log| == |d.log| + 1 && d.log <= d'.log
  {
    OfferAllAdds(d.primary, a.toPrimary);
    OfferAllAdds(d.secondary, a.toSecondary);
    OfferAllAdds(OfferAll(d.primary, a.toPrimary), a.laterToPrimary);
    OfferAllAdds(OfferAll(d.secondary, a.toSecondary), a.laterToSecondary);
  }

  lemma {:induction false} RunLength(d: Daemon, schedule: seq<Arrivals>)
    ensures |Run(d, schedule).log| == |d.log| + |schedule|
  {
    if schedule != [] {
      RunLength(d, schedule[..|schedule| - 1]);
    }
  }

  /** What the first iterations received and logged stays at the front. */
  lemma {:induction false} RunAdds(d: Daemon, schedule: seq<Arrivals>, i: nat)
    requires i <= |schedule|
    ensures Run(d, schedule[..i]).primary.received <= Run(d, schedule).primary.received
    ensures Run(d, schedule[..i]).secondary.received <= Run(d, schedule).secondary.received
    ensures Run(d, schedule[..i]).log <= Run(d, schedule).log
  {
    var n := |schedule|;
    if i == n {
      assert schedule[..i] == schedule;
    } else {
      RunAdds(d, schedule[..n - 1], i);
      assert schedule[..n - 1][..i] == schedule[..i];
      IterateAdds(Run(d, schedule[..n - 1]), schedule[n - 1]);
    }
  }

  /** The queue has given out exactly these elements since it had given out `start`. */
  predicate Served(side: Side, start: nat, elements: seq<Bytes>) {
    side.given == start + |elements| <= |side.received| && elements == side.received[start..side.given]
  }

  lemma ServedMore(side: Side, side': Side, start: nat, elements: seq<Bytes>)
    requires Served(side, start, elements) && side.received <= side'.received
    ensures side'.given == side.given ==> Served(side', start, elements)
    ensures side'.given == side.given + 1 && side.given < |side'.received| ==>
              Served(side', start, elements + [side'.received[side.given]])
  {
    assert side'.received[start..side.given] == side.received[start..side.given];
  }

  lemma IterateServes(d: Daemon, a: Arrivals, p0: nat, s0: nat)
    requires Served(d.primary, p0, From(d.log, true)) && Served(d.secondary, s0, From(d.log, false))
    ensures var d' := Iterate(d, a);
            Served(d'.primary, p0, From(d'.log, true)) && Served(d'.secondary, s0, From(d'.log, false))
  {
    var d' := Iterate(d, a);
    OfferAllAdds(d.primary, a.toPrimary);
    OfferAllAdds(d.secondary, a.toSecondary);
    OfferAllAdds(OfferAll(d.primary, a.toPrimary), a.laterToPrimary);
    OfferAllAdds(OfferAll(d.secondary, a.toSecondary), a.laterToSecondary);
    ServedMore(d.primary, d'.primary, p0, From(d.log, true));
    ServedMore(d.secondary, d'.secondary, s0, From(d.log, false));
    FromSnoc(d.log, d'.log[|d.log|], true);
    FromSnoc(d.log, d'.log[|d.log|], false);
  }

  /** Every element taken from a queue is acted on exactly once, in the order received. */
  lemma {:induction false} ActedOnceInOrder(d: Daemon, schedule: seq<Arrivals>)
    requires d.log == [] && d.primary.given <= |d.primary.received| && d.secondary.given <= |d.secondary.received|
    ensures var d' := Run(d, schedule);
            && Served(d'.primary, d.primary.given, From(d'.log, true))
            && Served(d'.secondary, d.secondary.given, From(d'.log, false))
  {
    if schedule != [] {
      ActedOnceInOrder(d, schedule[..|schedule| - 1]);
      IterateServes(Run(d, schedule[..|schedule| - 1]), schedule[|schedule| - 1], d.primary.given, d.secondary.given);
    }
  }

  /** How many elements the primary queue has received when iteration `i` tries it. */
  function PrimarySeen(d: Daemon, schedule: seq<Arrivals>, i: nat): nat
    requires i < |schedule|
  {
    |OfferAll(Run(d, schedule[..i]).primary, schedule[i].toPrimary).received|
  }

  /** How many elements the secondary queue has received when iteration `i` tries it, if it does. */
  function SecondarySeen(d: Daemon, schedule: seq<Arrivals>, i: nat): nat
    requires i < |schedule|
  {
    var first := OfferAll(Run(d, schedule[..i]).secondary, schedule[i].toSecondary);
    |OfferAll(first, schedule[i].laterToSecondary).received|
  }

  /** Iteration `i` serves the primary queue exactly when it had received something not yet handed
      out, and idles exactly when at the two tries both queues had handed out all they had received. */
  predicate PriorityKept(d: Daemon, schedule: seq<Arrivals>, log: seq<Round>, i: nat)
    requires i < |log| == |schedule|
  {
    var primaryDone := PrimarySeen(d, schedule, i) == d.primary.given + |From(log[..i], true)|;
    var secondaryDone := SecondarySeen(d, schedule, i) == d.secondary.given + |From(log[..i], false)|;
    && |Run(d, schedule[..i]).primary.received| <= PrimarySeen(d, schedule, i)
    && PrimarySeen(d, schedule, i) <= |Run(d, schedule).primary.received|
    && (log[i].Acted? && log[i].fromPrimary <==> !primaryDone)
    && (log[i].Acted? && !log[i].fromPrimary <==> primaryDone && !secondaryDone)
    && (log[i].NothingToDo? <==> primaryDone && secondaryDone)
  }

  lemma PriorityAlways(d: Daemon, schedule: seq<Arrivals>, i: nat)
    requires d.log == [] && d.primary.given <= |d.primary.received| && d.secondary.given <= |d.secondary.received|
    requires i < |schedule|
    ensures |Run(d, schedule).log| == |schedule| && PriorityKept(d, schedule, Run(d, schedule).log, i)
  {
    var before, log, a := Run(d, schedule[..i]), Run(d, schedule).log, schedule[i];
    RunAdds(d, schedule, i);
    RunAdds(d, schedule, i + 1);
    RunLength(d, schedule);
    RunLength(d, schedule[..i]);
    assert schedule[..i + 1][..i] == schedule[..i];
    assert Run(d, schedule[..i + 1]) == Iterate(before, a);
    assert log[..i] == before.log && log[i] == Iterate(before, a).log[i];
    ActedOnceInOrder(d, schedule[..i]);
    OfferAllAdds(before.primary, a.toPrimary);
    OfferAllAdds(OfferAll(before.primary, a.toPrimary), a.laterToPrimary);
    OfferAllAdds(before.secondary, a.toSecondary);
    OfferAllAdds(OfferAll(before.secondary, a.toSecondary), a.laterToSecondary);
  }

  // ---- The loop itself -------------------------------------------------------------

  ghost function SideOf(queue: Q.Queue?): Side
    reads queue
  {
    if queue == null then Side(0, 0, [], 0) else Side(queue.maxSize, queue.dataMaxSize, queue.pushed, queue.popped)
  }

  /** Other threads push these elements. */
  method Producers(queue: Q.Queue?, batch: seq<Bytes>)
    requires queue != null ==> queue.Valid()
    modifies queue, if queue != null then {queue.region} else {}
    ensures queue != null ==> queue.Valid()
    ensures SideOf(queue) == OfferAll(old(SideOf(queue)), batch)
  {
    var n := 0;
    while n < |batch|
      invariant n <= |batch| && (queue != null ==> queue.Valid())
      invariant SideOf(queue) == OfferAll(old(SideOf(queue)), batch[..n])
    {
      var element := batch[n];
      if queue != null {
        var data := new byte[|element|](i requires 0 <= i < |element| => element[i]);
        assert data[..|element|] == element;
        var _ := queue.TryPush(data, |element|);
      }
      assert batch[..n + 1][..n] == batch[..n];
      n := n + 1;
    }
    assert batch[..n] == batch;
  }

  /** One try on one queue: with room for the largest element, it fails only when empty, and then
      leaves the size alone. */
  method TryQueue(queue: Q.Queue?, path: array<byte>, pathSize: nat) returns (popped: bool, size: nat)
    requires queue != null ==> queue.Valid() && queue.dataMaxSize <= pathSize && path != queue.region
    requires pathSize <= path.Length
    modifies queue, path
    ensures queue != null ==> queue.Valid()
    ensures popped == !Empty(old(SideOf(queue)))
    ensures SideOf(queue) == if popped then Take(old(SideOf(queue))) else old(SideOf(queue))
    ensures !popped ==> size == pathSize
    ensures popped ==> size <= path.Length && path[..size] == old(SideOf(queue).received[SideOf(queue).given])
  {
    popped, size := false, pathSize;
    if queue != null {
      var r;
      ghost var front := queue.Contents();
      assert front != [] ==> front[0] == queue.pushed[queue.popped];
      FrontFits(queue);
      r, size := queue.TryPop(path, pathSize);
      popped := r == Q.Ok;
      if popped {
        assert path[..size] == path[..][..size];
      }
    }
  }

  lemma FrontFits(queue: Q.Queue)
    requires queue.Valid()
    ensures queue.curSize > 0 ==> |queue.pushed[queue.popped]| <= queue.dataMaxSize
  {
  }

  /** One iteration of the loop: `path_size` starts anew, a failed try leaves it for the next. */
  method OneRound(primary: Q.Queue?, secondary: Q.Queue?, path: array<byte>, a: Arrivals, ghost log: seq<Round>)
    returns (round: Round)
    requires primary != null ==> primary.Valid() && primary.dataMaxSize <= path.Length && path != primary.region
    requires secondary != null ==> secondary.Valid() && secondary.dataMaxSize <= path.Length && path != secondary.region
    requires primary != null && secondary != null ==> primary != secondary && primary.region != secondary.region
    modifies primary, secondary, path
    modifies if primary != null then {primary.region} else {}
    modifies if secondary != null then {secondary.region} else {}
    ensures (primary != null ==> primary.Valid()) && (secondary != null ==> secondary.Valid())
    ensures Daemon(SideOf(primary), SideOf(secondary), log + [round])
         == Iterate(old(Daemon(SideOf(primary), SideOf(secondary), log)), a)
  {
    Producers(primary, a.toPrimary);
    Producers(secondary, a.toSecondary);
    var pathSize := path.Length;
    var popped;
    popped, pathSize := TryQueue(primary, path, pathSize);
    if popped {
      return Acted(true, path[..pathSize]);
    }
    Producers(primary, a.laterToPrimary);
    Producers(secondary, a.laterToSecondary);
    popped, pathSize := TryQueue(secondary, path, pathSize);
    round := if popped then Acted(false, path[..pathSize]) else NothingToDo;
  }

  /** One iteration for each entry of the schedule. Every element popped is acted on exactly once,
      in the order its queue received it; the secondary queue is served only when the primary had
      nothing left to hand out, and the loop idles only when neither had. */
  method TransferFilesLoop(primary: Q.Queue?, secondary: Q.Queue?, pathMax: nat, schedule: seq<Arrivals>)
    returns (log: seq<Round>, failures: nat)
    requires primary != null ==> primary.Valid() && primary.dataMaxSize <= pathMax
    requires secondary != null ==> secondary.Valid() && secondary.dataMaxSize <= pathMax
    requires primary != null && secondary != null ==> primary != secondary && primary.region != secondary.region
    modifies primary, secondary
    modifies if primary != null then {primary.region} else {}
    modifies if secondary != null then {secondary.region} else {}
    ensures (primary != null ==> primary.Valid()) && (secondary != null ==> secondary.Valid())
    ensures Daemon(SideOf(primary), SideOf(secondary), log)
         == Run(old(Daemon(SideOf(primary), SideOf(secondary), [])), schedule)
    ensures Served(SideOf(primary), old(SideOf(primary)).given, From(log, true))
    ensures Served(SideOf(secondary), old(SideOf(secondary)).given, From(log, false))
    ensures |log| == |schedule|
    ensures forall i :: 0 <= i < |log| ==>
              PriorityKept(old(Daemon(SideOf(primary), SideOf(secondary), [])), schedule, log, i)
    ensures failures == Failures(log, schedule)
  {
    var path := new byte[pathMax];
    log, failures := [], 0;
    ghost var start := Daemon(SideOf(primary), SideOf(secondary), []);
    var n := 0;
    while n < |schedule|
      invariant n == |log| <= |schedule| && failures == Failures(log, schedule)
      invariant (primary != null ==> primary.Valid()) && (secondary != null ==> secondary.Valid())
      invariant Daemon(SideOf(primary), SideOf(secondary), log) == Run(start, schedule[..n])
    {
      var round := OneRound(primary, secondary, path, schedule[n], log);
      assert schedule[..n + 1][..n] == schedule[..n];
      assert (log + [round])[..|log|] == log;
      log := log + [round];
      if round.Acted? && schedule[n].actionFails {
        failures := failures + 1;
      }
      n := n + 1;
    }
    assert schedule[..n] == schedule;
    ActedOnceInOrder(start, schedule);
    RunLength(start, schedule);
    forall i | 0 <= i < |log| ensures PriorityKept(start, schedule, log, i) {
      PriorityAlways(start, schedule, i);
    }
  }
}
