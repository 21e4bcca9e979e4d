/** The replay engine: a cursor over time-sorted events, driven by run and step. At every await - asleep between
    events, or while the bus publishes one - the rest of the program makes any moves it likes. */
module Replay {
  import opened Interleavings
  import opened Reals
  import opened StableSort

  class ReplayClock {
    var baseTime: real
    var elapsed: real
    var speed: real
    var paused: bool

    constructor (start: real, speed: real)
      requires speed > 0.0
      ensures baseTime == start && elapsed == 0.0 && this.speed == speed && !paused
    {
      baseTime, elapsed, this.speed, paused := start, 0.0, speed, false;
    }

    function Now(): real
      reads this
    {
      if paused then baseTime else baseTime + elapsed * speed
    }

    method SetTime(time: real)
      modifies this`elapsed, this`baseTime
      ensures elapsed == 0.0 && baseTime == time
    {
      elapsed, baseTime := 0.0, time;
    }

    method Advance(seconds: real)
      modifies this`elapsed
      ensures elapsed == if paused then old(elapsed) else old(elapsed) + seconds
    {
      if !paused {
        elapsed := elapsed + seconds;
      }
    }

    method Pause()
      modifies this`paused
      ensures paused
    {
      paused := true;
    }

    method Resume()
      modifies this
      ensures !paused && speed == old(speed) && elapsed == 0.0
      ensures baseTime == old(baseTime + elapsed * speed) == Now()
    {
      paused := false;
      baseTime := Now();
      elapsed := 0.0;
    }
  }

  /** What happens during one await: time passes, others make their moves, and it may end in an exception. */
  datatype Await = Await(seconds: real, moves: seq<Move>, raises: bool)

  class ReplayEngine {
    const clock: ReplayClock
    var events: seq<Event>
    var index: nat
    var running: bool
    var paused: bool
    var syncMode: bool
    var published: seq<Event>     // since the events were loaded
    var failed: nat               // publications since then that raised
    var tasks: seq<Task>          // the coroutines, and where each of them stands
    var awaits: seq<Await>        // what happens at the awaits to come
    ghost var given: seq<Event>
    ghost var start: State        // when the events were loaded
    ghost var moves: seq<Move>    // everybody's moves since then

    function View(): State
      reads `events, `index, `running, `paused, `syncMode, `published, `failed, `tasks
    {
      State(events, index, running, paused, syncMode, published, failed, tasks)
    }

    /** The state is where the moves lead that were made since the events, stably sorted, were loaded. */
    ghost predicate Valid()
      reads `events, `index, `running, `paused, `syncMode, `published, `failed, `tasks, `given, `start, `moves
    {
      && events == start.events == SortByTime(given)
      && start.index == 0 && start.published == [] && start.failed == 0
      && View() == Exec(start, moves)
    }

    constructor (clock: ReplayClock)
      ensures Valid() && this.clock == clock && View() == Loaded([]) && start == Loaded([]) && awaits == []
    {
      this.clock := clock;
      events, index, running, paused, syncMode, published, failed, tasks := [], 0, false, false, false, [], 0, [];
      awaits, given, start, moves := [], [], Loaded([]), [];
    }

    /** Loading starts anew, whoever is running. */
    method LoadEvents(given: seq<Event>)
      modifies this`events, this`index, this`published, this`failed, this`given, this`start, this`moves
      modifies clock`elapsed, clock`baseTime
      ensures Valid() && this.given == given && IsStableSort(given, events) && moves == [] && start == View()
      ensures View() == old(View()).(events := events, index := 0, published := [], failed := 0)
      ensures InProgress(tasks) == 0 ==> Rewound(start)
      ensures events != [] ==> clock.Now() == events[0].time
    {
      SortsStably(given);
      hide IsStableSort, After;
      events, index, published, failed := SortByTime(given), 0, [], 0;
      if |events| > 0 {
        clock.SetTime(events[0].time);
      }
      this.given, start, moves := given, View(), [];
    }

    /** Events being distinct and none in mid-publication when they were loaded: whatever has happened since, what
        has been published is the sorted events in order, each once, exactly if no publication overlapped another
        or followed a failed one. */
    lemma ExactlyOnce()
      requires Valid() && Rewound(start) && Distinct(events)
      ensures published <= events <==> NeverOverlap(start, moves)
      ensures |published| == index + View().Unfinished()
    {
      ExactlyOnceIff(start, moves);
    }

    ghost method Note(move: Move)
      requires View() == After(Exec(start, moves), move)
      requires events == start.events == SortByTime(given)
      requires start.index == 0 && start.published == [] && start.failed == 0
      modifies this`moves
      ensures Valid() && moves == old(moves) + [move]
    {
      hide After, SortByTime, Exec, Gap;
      ExecNext(start, moves, move);
      moves := moves + [move];
    }

    method DoPause()
      modifies this`paused, clock`paused
      ensures paused
    {
      paused := true;
      clock.Pause();
    }

    method DoResume()
      modifies this`paused, clock
      ensures !paused && clock.speed == old(clock.speed)
    {
      paused := false;
      clock.Resume();
    }

    method DoStop()
      modifies this`running
      ensures !running
    {
      running := false;
    }

    /** The event at the cursor goes out, with the clock at its time. */
    method BeginPublication(event: Event, k: nat, stepping: bool)
      requires index < |events| && event == events[index] && k < |tasks|
      modifies this`published, this`tasks, clock`elapsed, clock`baseTime
      ensures View() == Begin(old(View()), k, stepping)
      ensures clock.Now() == event.time
    {
      clock.SetTime(event.time);
      published := published + [event];
      tasks := tasks[k := Publishing(event, stepping)];
    }

    /** Somebody else goes on to the next await. */
    method GoOnWith(k: nat, speed: real)
      requires k < |tasks|
      modifies this`index, this`running, this`syncMode, this`published, this`tasks, clock`elapsed, clock`baseTime
      ensures View() == GoOn(old(View()), k, speed)
    {
      match tasks[k] {
        case Looping =>
          if index < |events| && running {
            if !paused {
              BeginPublication(events[index], k, false);
            }
          } else {
            syncMode, running, tasks := false, false, tasks[k := Finished];
          }
        case Publishing(event, stepping) =>
          index := index + 1;
          tasks := tasks[k := if stepping then Finished
                              else if index < |events| then Waiting(Gap(event, events[index], speed)) else Looping];
        case Waiting(left) =>
          tasks := tasks[k := if left > 0.0 && running then Waiting(left - Smaller(left, 0.1)) else Looping];
        case Finished =>
      }
    }

    /** Somebody else ends in an exception. */
    method Interrupt(k: nat)
      requires k < |tasks|
      modifies this`running, this`syncMode, this`failed, this`tasks
      ensures View() == Raised(old(View()), k)
    {
      match tasks[k] {
        case Publishing(_, stepping) =>
          failed, tasks := failed + 1, tasks[k := Finished];
          if !stepping {
            syncMode, running := false, false;
          }
        case Finished =>
        case _ =>
          syncMode, running, tasks := false, false, tasks[k := Finished];
      }
    }

    /** A move of the rest of the program. */
    method Perform(move: Move)
      requires Valid()
      modifies this`index, this`running, this`paused, this`syncMode, this`published, this`failed, this`tasks, this`moves
      modifies clock
      ensures Valid() && moves == old(moves) + [move] && View() == After(old(View()), move)
    {
      hide SortByTime, Exec, GoOn, Raised;
      match move {
        case StartRun =>
          tasks := tasks + [if running then Finished else Looping];
          if !running {
            running, paused, syncMode := true, false, true;
          }
        case StartStep =>
          tasks := tasks + [Finished];
          if index < |events| {
            BeginPublication(events[index], |tasks| - 1, true);
          }
        case Go(k, speed) => if k < |tasks| { GoOnWith(k, speed); }
        case Fail(k) => if k < |tasks| { Interrupt(k); }
        case Stop => DoStop();
        case Pause => DoPause();
        case Resume => DoResume();
      }
      Note(move);
    }

    /** Coroutine k awaits; the next batch of others' moves, if any is left, takes place. */
    method Suspend(k: nat) returns (raised: bool)
      requires Valid() && k < |tasks|
      modifies this`index, this`running, this`paused, this`syncMode, this`published, this`failed, this`tasks, this`moves
      modifies this`awaits, clock
      ensures Valid() && old(moves) <= moves
      ensures k < |tasks| && tasks[k] == old(tasks[k])
      ensures old(awaits) != [] ==> |awaits| < |old(awaits)|
      ensures old(awaits) == [] ==> !raised && awaits == [] && View() == old(View()) && moves == old(moves)
    {
      hide Valid, After;
      if |awaits| == 0 {
        return false;
      }
      var next := awaits[0];
      awaits := awaits[1..];
      clock.Advance(next.seconds);
      for i := 0 to |next.moves|
        invariant Valid() && old(moves) <= moves && k < |tasks| && tasks[k] == old(tasks[k])
        invariant awaits == old(awaits)[1..]
      {
        if !Of(next.moves[i], k) {
          OthersKeep(View(), next.moves[i], k);
          Perform(next.moves[i]);
        }
      }
      return next.raises;
    }

    /** Publishes the event at the cursor and awaits the bus; `move` is what this is in the coroutine's life. */
    method PublishEvent(event: Event, k: nat, stepping: bool, ghost move: Move) returns (raised: bool)
      requires events == start.events == SortByTime(given)
      requires start.index == 0 && start.published == [] && start.failed == 0
      requires index < |events| && event == events[index] && k < |tasks|
      requires After(Exec(start, moves), move) == Begin(View(), k, stepping)
      modifies this`index, this`running, this`paused, this`syncMode, this`published, this`failed, this`tasks, this`moves
      modifies this`awaits, clock
      ensures Valid() && old(moves) + [move] <= moves
      ensures k < |tasks| && tasks[k] == Publishing(event, stepping)
      ensures old(awaits) != [] ==> |awaits| < |old(awaits)|
      ensures old(awaits) == [] ==> !raised && awaits == [] && View() == Begin(old(View()), k, stepping)
    {
      hide Exec, SortByTime, After;
      BeginPublication(event, k, stepping);
      Note(move);
      raised := Suspend(k);
    }

    /** The publication is over: the cursor moves on, and a run goes to sleep until the next event. */
    method EndPublication(event: Event, k: nat, stepping: bool)
      requires Valid() && k < |tasks| && tasks[k] == Publishing(event, stepping)
      modifies this`index, this`tasks, this`moves
      ensures Valid() && old(moves) <= moves && View() == End(old(View()), k, clock.speed)
    {
      hide Exec, SortByTime, Gap;
      index := index + 1;
      tasks := tasks[k := if stepping then Finished
                          else if index < |events| then Waiting(Gap(event, events[index], clock.speed)) else Looping];
      Note(Go(k, clock.speed));
    }

    /** The coroutine ends in an exception: a run cleans up behind itself. */
    method EndRaised(k: nat)
      requires Valid() && k < |tasks|
      modifies this`running, this`syncMode, this`failed, this`tasks, this`moves
      ensures Valid() && old(moves) <= moves && View() == Raised(old(View()), k)
    {
      hide Exec, SortByTime, Raised;
      Interrupt(k);
      Note(Fail(k));
    }

    /** A run at the head of its loop ends, or looks on while the replay is paused. */
    method LoopMove(k: nat)
      requires Valid() && k < |tasks| && tasks[k] == Looping && (index >= |events| || !running || paused)
      modifies this`running, this`syncMode, this`tasks, this`moves
      ensures Valid() && old(moves) <= moves
      ensures View() == if index < |events| && old(running) then old(View()) else Ended(old(View()), k)
    {
      hide Exec, SortByTime;
      if index >= |events| || !running {
        syncMode, running, tasks := false, false, tasks[k := Finished];
      }
      Note(Go(k, clock.speed));
    }

    /** A sleeping run falls asleep for another chunk, or goes back to the head of its loop. */
    method SleepMove(k: nat, left: real)
      requires Valid() && k < |tasks| && tasks[k] == Waiting(left)
      modifies this`tasks, this`moves
      ensures Valid() && old(moves) <= moves
      ensures View() == old(View()).(tasks := old(tasks)[k :=
                if left > 0.0 && running then Waiting(left - Smaller(left, 0.1)) else Looping])
    {
      hide Exec, SortByTime;
      tasks := tasks[k := if left > 0.0 && running then Waiting(left - Smaller(left, 0.1)) else Looping];
      Note(Go(k, clock.speed));
    }

    /** One event is published and the cursor moves on, unless the events are over or the publication raises. */
    method Step() returns (stepped: bool, raised: bool)
      requires Valid()
      modifies this`index, this`running, this`paused, this`syncMode, this`published, this`failed, this`tasks, this`moves
      modifies this`awaits, clock
      ensures Valid() && old(moves) + [StartStep] <= moves && stepped == (old(index) < |events|)
      ensures |old(tasks)| < |tasks| && tasks[|old(tasks)|] == Finished
      ensures old(awaits) == [] ==>
        && !raised && awaits == [] && running == old(running) && paused == old(paused) && failed == old(failed)
        && index == old(index) + (if stepped then 1 else 0)
        && published == old(published) + if stepped then [events[old(index)]] else []
    {
      hide Exec, SortByTime, Gap;
      var k := |tasks|;
      tasks := tasks + [Finished];
      if index >= |events| {
        Note(StartStep);
        return false, false;
      }
      var event := events[index];
      raised := PublishEvent(event, k, true, StartStep);
      hide Valid, After;
      if raised {
        EndRaised(k);
        return true, true;
      }
      EndPublication(event, k, true);
      return true, false;
    }

    /** Sleeps for the scaled distance to the next event in chunks of a tenth of a second. Unless stopped or
        interrupted, the chunks add up to the distance exactly, and there are at most one more than its whole
        tenths. */
    method WaitForNext(k: nat, current: Event, next: Event) returns (slept: real, raised: bool, ghost chunks: nat)
      requires Valid() && k < |tasks| && tasks[k] == Waiting(Gap(current, next, clock.speed))
      modifies this`index, this`running, this`paused, this`syncMode, this`published, this`failed, this`tasks, this`moves
      modifies this`awaits, clock
      ensures Valid() && old(moves) <= moves && k < |tasks|
      ensures raised ==> tasks[k].Waiting?
      ensures !raised ==> tasks[k] == Looping
      ensures |awaits| <= |old(awaits)|
      ensures old(awaits) == [] ==>
        !raised && awaits == [] && View() == old(View()).(tasks := old(tasks)[k := Looping])
      ensures var whole := Gap(current, next, old(clock.speed));
        && 0.0 <= slept <= whole && (!raised && running ==> slept == whole)
        && slept * 10.0 <= chunks as real && chunks <= (whole * 10.0).Floor + 1
    {
      hide Valid, Gap, Chunks;
      GapScales(current, next, clock.speed);
      slept, chunks, raised := 0.0, 0, false;
      ghost var whole := Gap(current, next, clock.speed);
      ChunksAtMost(whole);
      var delta := next.time - current.time;
      if delta <= 0.0 {
        SleepMove(k, 0.0);
        return;
      }
      var adjusted := delta / Larger(clock.speed, 0.001);
      if adjusted < 0.001 {
        SleepMove(k, 0.0);
        return;
      }
      while adjusted > 0.0 && running
        invariant Valid() && old(moves) <= moves && k < |tasks| && tasks[k] == Waiting(adjusted)
        invariant |awaits| <= |old(awaits)|
        invariant old(awaits) == [] ==>
          awaits == [] && View() == old(View()).(tasks := old(tasks)[k := Waiting(adjusted)])
        invariant slept + adjusted == whole && 0.0 <= adjusted && 0.0 <= slept
        invariant chunks + Chunks(adjusted) <= Chunks(whole) && slept * 10.0 <= chunks as real
        decreases Chunks(adjusted)
      {
        var chunk := Smaller(adjusted, 0.1);
        ChunkShrinks(adjusted);
        SleepMove(k, adjusted);
        raised := Suspend(k);
        slept, chunks := slept + chunk, chunks + 1;
        adjusted := adjusted - chunk;
        if raised {
          return;
        }
      }
      SleepMove(k, adjusted);
    }

    /** Plays events until the end, a stop or an exception. A run that is paused with nothing left to happen sleeps
        on: it is observed as asleep. Left to itself a run plays all events that are left and ends. */
    method Run() returns (asleep: bool, raised: bool)
      requires Valid()
      modifies this`index, this`running, this`paused, this`syncMode, this`published, this`failed, this`tasks, this`moves
      modifies this`awaits, clock
      ensures Valid() && old(moves) + [StartRun] <= moves
      ensures |old(tasks)| < |tasks| && tasks[|old(tasks)|] == if asleep then Looping else Finished
      ensures old(running) ==> !asleep && !raised && View() == old(View()).(tasks := old(tasks) + [Finished])
      ensures !old(running) && asleep ==> paused && running && awaits == [] && index < |events|
      ensures !old(running) && old(awaits) == [] ==>
        && !asleep && !raised && !running && !syncMode && failed == old(failed)
        && index == (if old(index) < |events| then |events| else old(index))
        && published == old(published) + Slice(events, old(index), |events|)
    {
      hide Valid, After, Slice;
      asleep, raised := false, false;
      var k := |tasks|;
      var started := BeginRun();
      if !started {
        return;
      }
      SliceStarts(events, index);
      while index < |events| && running
        invariant Valid() && old(moves) + [StartRun] <= moves && k < |tasks| && tasks[k] == Looping
        invariant old(awaits) == [] ==> Undisturbed(old(index), old(published), old(failed), k)
        decreases |awaits|, |events| - index
      {
        if paused {
          if |awaits| == 0 {
            return true, false;
          }
          LoopMove(k);
          raised := Suspend(k);
        } else {
          SliceNext(events, old(index), index);
          raised := PlayNext(k);
        }
        if raised {
          EndRaised(k);
          return;
        }
      }
      LoopMove(k);
    }

    method BeginRun() returns (started: bool)
      requires Valid()
      modifies this`running, this`paused, this`syncMode, this`tasks, this`moves
      ensures Valid() && old(moves) + [StartRun] <= moves && started == !old(running)
      ensures View() == if started
        then old(View()).(running := true, paused := false, syncMode := true, tasks := old(tasks) + [Looping])
        else old(View()).(tasks := old(tasks) + [Finished])
    {
      hide Exec, SortByTime;
      started := !running;
      tasks := tasks + [if running then Finished else Looping];
      if started {
        running, paused, syncMode := true, false, true;
      }
      Note(StartRun);
    }

    /** What a run that nobody disturbs has done so far. */
    ghost predicate Undisturbed(from: nat, before: seq<Event>, failures: nat, k: nat)
      reads `events, `index, `running, `paused, `published, `failed, `tasks, `awaits
    {
      && awaits == [] && running && !paused && failed == failures && from <= index
      && index <= (if from < |events| then |events| else from)
      && published == before + Slice(events, from, index)
    }

    /** A run publishes the event at the cursor and sleeps until the next one is due. */
    method PlayNext(k: nat) returns (raised: bool)
      requires Valid() && k < |tasks| && tasks[k] == Looping && index < |events| && running && !paused
      modifies this`index, this`running, this`paused, this`syncMode, this`published, this`failed, this`tasks, this`moves
      modifies this`awaits, clock
      ensures Valid() && old(moves) <= moves && k < |tasks|
      ensures if raised then (tasks[k].Publishing? && !tasks[k].stepping) || tasks[k].Waiting?
              else tasks[k] == Looping
      ensures old(awaits) != [] ==> |awaits| < |old(awaits)|
      ensures old(awaits) == [] ==>
        && !raised && awaits == [] && running && !paused && failed == old(failed) && syncMode == old(syncMode)
        && index == old(index) + 1 && published == old(published) + [events[old(index)]]
    {
      hide Exec, SortByTime, Gap;
      var event := events[index];
      raised := PublishEvent(event, k, false, Go(k, clock.speed));
      hide Valid, After;
      if raised {
        return;
      }
      EndPublication(event, k, false);
      if index < |events| {
        var _, interrupted, _ := WaitForNext(k, event, events[index]);
        raised := interrupted;
      }
    }
  }

  /** The events from one position to another, if there are any. */
  function Slice(events: seq<Event>, from: nat, end: nat): seq<Event> {
    if from <= end <= |events| then events[from..end] else []
  }

  lemma SliceStarts(events: seq<Event>, from: nat)
    ensures Slice(events, from, from) == []
    ensures from >= |events| ==> Slice(events, from, |events|) == []
  {
  }

  lemma SliceNext(events: seq<Event>, from: nat, i: nat)
    ensures from <= i < |events| ==> Slice(events, from, i + 1) == Slice(events, from, i) + [events[i]]
  {
  }

  function Chunks(adjusted: real): nat
    requires adjusted >= 0.0
  {
    if adjusted == 0.0 then 0 else (adjusted * 10.0).Floor + 1
  }

  lemma ChunkShrinks(adjusted: real)
    requires adjusted > 0.0
    ensures Chunks(adjusted - Smaller(adjusted, 0.1)) + 1 <= Chunks(adjusted)
  {
    if adjusted > 0.1 {
      assert (adjusted - 0.1) * 10.0 == adjusted * 10.0 - 1.0;
    }
  }

  lemma ChunksAtMost(whole: real)
    requires whole >= 0.0
    ensures Chunks(whole) <= (whole * 10.0).Floor + 1
  {
  }

  lemma GapScales(current: Event, next: Event, speed: real)
    ensures var adjusted := (next.time - current.time) / Larger(speed, 0.001);
      Gap(current, next, speed) == if next.time <= current.time || adjusted < 0.001 then 0.0 else adjusted
    ensures Gap(current, next, speed) >= 0.0
  {
  }

  /** The wait for the next event: nothing if it is due within a thousandth of a second, else the distance in time
      divided by the speed, which counts as a thousandth at least. */
  lemma GapIs(current: Event, next: Event, speed: real)
    ensures var factor, gap := if speed < 0.001 then 0.001 else speed, Gap(current, next, speed);
      if next.time - current.time < 0.001 * factor then gap == 0.0
      else gap >= 0.001 && gap * factor == next.time - current.time
  {
    var delta, factor := next.time - current.time, if speed < 0.001 then 0.001 else speed;
    GapScales(current, next, speed);
    assert Larger(speed, 0.001) == factor;
    var adjusted := delta / factor;
    Scaled(adjusted, factor, delta);
  }

  lemma Scaled(q: real, factor: real, product: real)
    requires factor > 0.0 && product / factor == q
    ensures q * factor == product && (q < 0.001 <==> product < 0.001 * factor)
  {
    assert q * factor == product;
    if q < 0.001 {
      PositiveProduct(0.001 - q, factor, (0.001 - q) * factor);
    } else {
      ProductSign(q - 0.001, factor);
    }
  }
}
