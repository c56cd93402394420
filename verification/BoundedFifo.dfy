/**
 The specification the concurrent queue is measured against: a first-in first-out
 list of at most `cap` byte strings, observed through events.
 */
module BoundedFifo {
  import opened Bytes

  datatype Fifo = Fifo(cap: nat, items: seq<Bytes>)

  /** What a caller can observe. The three `Seen...` events explain a failed call. */
  datatype Event =
    | Silent
    | Enqueued(data: Bytes)
    | Dequeued(data: Bytes)
    | SeenFull
    | SeenEmpty
    | SeenTooLong(room: nat)

  predicate Step(q: Fifo, e: Event, q': Fifo) {
    match e
    case Silent => q' == q
    case Enqueued(data) => |q.items| < q.cap && q' == q.(items := q.items + [data])
    case Dequeued(data) => q.items != [] && data == q.items[0] && q' == q.(items := q.items[1..])
    case SeenFull => |q.items| == q.cap && q' == q
    case SeenEmpty => q.items == [] && q' == q
    case SeenTooLong(room) => q.items != [] && room < |q.items[0]| && q' == q
  }

  /** `q'` is reached from `q` by the events in order. */
  ghost predicate Run(q: Fifo, events: seq<Event>, q': Fifo)
    decreases |events|
  {
    if events == [] then q' == q
    else
      var last := |events| - 1;
      exists mid :: Run(q, events[..last], mid) && Step(mid, events[last], q')
  }

  lemma RunOn(q: Fifo, events: seq<Event>, mid: Fifo, e: Event, q': Fifo)
    requires Run(q, events, mid) && Step(mid, e, q')
    ensures Run(q, events + [e], q')
  {
    assert (events + [e])[..|events|] == events;
  }

  function Entered(events: seq<Event>): seq<Bytes> {
    if events == [] then []
    else
      var last := |events| - 1;
      Entered(events[..last]) + if events[last].Enqueued? then [events[last].data] else []
  }

  function Left(events: seq<Event>): seq<Bytes> {
    if events == [] then []
    else
      var last := |events| - 1;
      Left(events[..last]) + if events[last].Dequeued? then [events[last].data] else []
  }

  lemma StepConserves(q: Fifo, e: Event, q': Fifo, entered: seq<Bytes>, left: seq<Bytes>)
    requires Step(q, e, q') && entered == left + q.items && |q.items| <= q.cap
    ensures q'.cap == q.cap && |q'.items| <= q.cap
    ensures entered + (if e.Enqueued? then [e.data] else []) == left + (if e.Dequeued? then [e.data] else []) + q'.items
  {
    match e
    case Enqueued(data) => assert entered + [data] == left + (q.items + [data]);
    case Dequeued(data) => assert q.items == [data] + q'.items;
    case _ =>
  }

  /** Over any run that starts empty, what has entered is what has left followed by
      what is still inside, in order and byte for byte; the bound always holds. */
  lemma {:induction false} RunConserves(cap: nat, events: seq<Event>, q: Fifo)
    requires Run(Fifo(cap, []), events, q)
    ensures q.cap == cap && |q.items| <= cap
    ensures Entered(events) == Left(events) + q.items
    decreases |events|
  {
    if events == [] {
    } else {
      var last := |events| - 1;
      var mid :| Run(Fifo(cap, []), events[..last], mid) && Step(mid, events[last], q);
      RunConserves(cap, events[..last], mid);
      StepConserves(mid, events[last], q, Entered(events[..last]), Left(events[..last]));
    }
  }
}
