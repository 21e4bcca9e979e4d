/** The two-lane priority queue behind the bus, and what draining it guarantees. */
module Queueing {
  import opened Basics
  import opened EventBus

  datatype Lane = HighLane | NormalLane

  function LaneOf(e: Event): Lane {
    if e.priority.High? || e.priority.Critical? then HighLane else NormalLane
  }

  /** The queue with its single consumer: two lanes, the event being dispatched, and what its handlers have still
      to publish. */
  datatype Queues = Queues(high: seq<Event>, normal: seq<Event>, inFlight: Option<Event>, rest: seq<Event>) {

    function Unfinished(lane: Lane): nat {
      (if lane == HighLane then |high| else |normal|)
      + (if inFlight.Some? && LaneOf(inFlight.value) == lane then 1 else 0)
    }

    predicate Idle() {
      high == [] && normal == [] && inFlight == None
    }

    ghost predicate InLanes() {
      && (forall e :: e in high ==> LaneOf(e) == HighLane)
      && (forall e :: e in normal ==> LaneOf(e) == NormalLane)
      && (inFlight == None ==> rest == [])
    }

    /** An event joins the lane of its priority. */
    function With(e: Event): Queues {
      if LaneOf(e) == HighLane then this.(high := high + [e]) else this.(normal := normal + [e])
    }

    /** The oldest high event, or without one the oldest normal event, is in flight. */
    function Taking(): Queues
      requires high != [] || normal != []
    {
      if high != [] then this.(high := high[1..], inFlight := Some(high[0]))
      else this.(normal := normal[1..], inFlight := Some(normal[0]))
    }
  }

  /** One lane: what waits in it, and how many puts have not been marked done. */
  class TaskQueue {
    var waiting: seq<Event>
    var unfinished: nat
    ghost var put: seq<Event>
    ghost var taken: seq<Event>
    ghost var finished: nat

    /** Events leave in the order they came; what is unfinished is queued or in flight. */
    ghost predicate Valid()
      reads this
    {
      && put == taken + waiting
      && finished <= |taken|
      && unfinished == |waiting| + (|taken| - finished)
    }

    constructor ()
      ensures Valid() && waiting == put == taken == [] && finished == 0
    {
      waiting, unfinished, put, taken, finished := [], 0, [], [], 0;
    }

    method Put(e: Event)
      requires Valid()
      modifies this
      ensures Valid() && waiting == old(waiting) + [e] && put == old(put) + [e]
      ensures taken == old(taken) && finished == old(finished)
    {
      waiting, unfinished := waiting + [e], unfinished + 1;
      put := put + [e];
    }

    method GetNowait() returns (e: Event)
      requires Valid() && waiting != []
      modifies this
      ensures Valid() && e == old(waiting)[0] && waiting == old(waiting)[1..]
      ensures taken == old(taken) + [e] && put == old(put) && finished == old(finished)
    {
      e, waiting := waiting[0], waiting[1..];
      taken := taken + [e];
    }

    method TaskDone()
      requires Valid() && finished < |taken|
      modifies this
      ensures Valid() && waiting == old(waiting) && put == old(put) && taken == old(taken)
      ensures finished == old(finished) + 1 && unfinished == old(unfinished) - 1
    {
      unfinished := unfinished - 1;
      finished := finished + 1;
    }
  }

  class PriorityQueue {
    const high: TaskQueue
    const normal: TaskQueue
    var lastSource: Option<Lane>

    function InFlight(lane: Lane): nat
      reads this
    {
      if lastSource == Some(lane) then 1 else 0
    }

    /** The single consumer has at most one event in flight, taken from the lane remembered as the source. */
    ghost predicate Valid()
      reads this, high, normal
    {
      && high != normal && high.Valid() && normal.Valid()
      && (forall e :: e in high.put ==> e.priority.High? || e.priority.Critical?)
      && (forall e :: e in normal.put ==> e.priority.Low? || e.priority.Normal?)
      && |high.taken| - high.finished == InFlight(HighLane)
      && |normal.taken| - normal.finished == InFlight(NormalLane)
    }

    /** The value of the queue: the event in flight is the one last taken from the remembered lane. */
    ghost function View(): Queues
      requires Valid()
      reads this, high, normal
    {
      var inFlight := match lastSource
        case None => None
        case Some(HighLane) => Some(high.taken[|high.taken| - 1])
        case Some(NormalLane) => Some(normal.taken[|normal.taken| - 1]);
      Queues(high.waiting, normal.waiting, inFlight, [])
    }

    /** What a join of a lane waits for to be zero. */
    lemma UnfinishedIsCounted()
      requires Valid()
      ensures high.unfinished == View().Unfinished(HighLane) && normal.unfinished == View().Unfinished(NormalLane)
      ensures View().InLanes()
    {
      if lastSource == Some(HighLane) {
        assert high.taken[|high.taken| - 1] in high.put;
      } else if lastSource == Some(NormalLane) {
        assert normal.taken[|normal.taken| - 1] in normal.put;
      }
    }

    constructor ()
      ensures Valid() && fresh(high) && fresh(normal) && high.put == normal.put == [] && lastSource == None
    {
      high := new TaskQueue();
      normal := new TaskQueue();
      lastSource := None;
    }

    method Put(e: Event)
      requires Valid()
      modifies high, normal
      ensures Valid()
      ensures high.put == old(high.put) + (if e.priority.High? || e.priority.Critical? then [e] else [])
      ensures normal.put == old(normal.put) + (if e.priority.Low? || e.priority.Normal? then [e] else [])
      ensures high.taken == old(high.taken) && normal.taken == old(normal.taken)
      ensures View() == old(View()).With(e)
    {
      if LaneOf(e) == HighLane {
        high.Put(e);
      } else {
        normal.Put(e);
      }
    }

    /** A get that finds something waiting takes the oldest high event, and the oldest normal one only when
        no high event waits. */
    method Get() returns (e: Event)
      requires Valid() && lastSource == None && (high.waiting != [] || normal.waiting != [])
      modifies this, high, normal
      ensures Valid() && lastSource == Some(FirstLane(old(high.waiting)))
      ensures high.put == old(high.put) && normal.put == old(normal.put)
      ensures if old(high.waiting) != []
        then e == old(high.waiting)[0] && high.taken == old(high.taken) + [e] && normal.taken == old(normal.taken)
        else e == old(normal.waiting)[0] && normal.taken == old(normal.taken) + [e] && high.taken == old(high.taken)
      ensures View() == old(View()).Taking() && View().inFlight == Some(e)
    {
      if high.waiting != [] {
        e := high.GetNowait();
        lastSource := Some(HighLane);
      } else {
        e := normal.GetNowait();
        lastSource := Some(NormalLane);
      }
    }

    /** Marks the event in flight as done in the lane it came from; without one it does nothing. */
    method TaskDone()
      requires Valid()
      modifies this, high, normal
      ensures Valid() && lastSource == None
      ensures high.unfinished == old(high.unfinished) - old(InFlight(HighLane))
      ensures normal.unfinished == old(normal.unfinished) - old(InFlight(NormalLane))
      ensures high.put == old(high.put) && normal.put == old(normal.put)
      ensures high.taken == old(high.taken) && normal.taken == old(normal.taken)
      ensures View() == old(View()).(inFlight := None)
    {
      if lastSource == Some(HighLane) {
        high.TaskDone();
      } else if lastSource == Some(NormalLane) {
        normal.TaskDone();
      }
      lastSource := None;
    }

    method QSize() returns (n: nat)
      requires Valid()
      ensures n + InFlight(HighLane) + InFlight(NormalLane) == high.unfinished + normal.unfinished
    {
      n := |high.waiting| + |normal.waiting|;
    }
  }

  /** The lane a get looks in first finds something. */
  function FirstLane(highWaiting: seq<Event>): Lane {
    if highWaiting != [] then HighLane else NormalLane
  }
}
