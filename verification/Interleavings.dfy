/** The coroutines that may drive a replay at the same time - runs, single steps and restarts - interleaved in any
    way at their awaits, and exactly when every event is published once. */
module Interleavings {
  import opened Reals
  import opened StableSort

  /** Where a coroutine stands: at the head of a run's loop, awaiting a publication, or asleep between events. */
  datatype Task =
    | Looping
    | Publishing(event: Event, stepping: bool)
    | Waiting(left: real)
    | Finished

  datatype State = State(events: seq<Event>, index: nat, running: bool, paused: bool, syncMode: bool,
                         published: seq<Event>, failed: nat, tasks: seq<Task>) {

    /** Publications that have begun and not moved the cursor: still in progress, or ended by an exception. */
    function Unfinished(): nat {
      InProgress(tasks) + failed
    }
  }

  /** What can happen next. A coroutine goes on to its next await, with the speed the clock then has, or ends there
      with an exception. */
  datatype Move =
    | StartRun
    | StartStep
    | Go(task: nat, speed: real)
    | Fail(task: nat)
    | Stop
    | Pause
    | Resume

  function InProgress(tasks: seq<Task>): nat {
    if tasks == [] then 0 else InProgress(tasks[..|tasks| - 1]) + if tasks[|tasks| - 1].Publishing? then 1 else 0
  }

  function Loaded(events: seq<Event>): State {
    State(events, 0, false, false, false, [], 0, [])
  }

  /** Events have just been loaded while no publication was in progress, whoever else is about. */
  predicate Rewound(st: State) {
    st.index == 0 && st.published == [] && st.Unfinished() == 0
  }

  /** A coroutine's own move. */
  predicate Of(move: Move, k: nat) {
    (move.Go? || move.Fail?) && move.task == k
  }

  /** The time to sleep between two events: their distance over the speed, or none if that is negligible. */
  function Gap(current: Event, next: Event, speed: real): real {
    var delta := next.time - current.time;
    if delta <= 0.0 then 0.0
    else
      var adjusted := delta / Larger(speed, 0.001);
      if adjusted < 0.001 then 0.0 else adjusted
  }

  /** A coroutine publishes the event at the cursor. */
  function Begin(st: State, k: nat, stepping: bool): State
    requires k < |st.tasks| && st.index < |st.events|
  {
    st.(published := st.published + [st.events[st.index]],
        tasks := st.tasks[k := Publishing(st.events[st.index], stepping)])
  }

  /** Its publication is over, and the cursor moves on. */
  function End(st: State, k: nat, speed: real): State
    requires k < |st.tasks| && st.tasks[k].Publishing?
  {
    var next := st.index + 1;
    st.(index := next,
        tasks := st.tasks[k := if st.tasks[k].stepping then Finished
                               else if next < |st.events| then Waiting(Gap(st.tasks[k].event, st.events[next], speed))
                               else Looping])
  }

  /** A run ends, however it does. */
  function Ended(st: State, k: nat): State
    requires k < |st.tasks|
  {
    st.(running := false, syncMode := false, tasks := st.tasks[k := Finished])
  }

  function GoOn(st: State, k: nat, speed: real): State
    requires k < |st.tasks|
  {
    match st.tasks[k]
    case Looping =>
      if st.index >= |st.events| || !st.running then Ended(st, k)
      else if st.paused then st
      else Begin(st, k, false)
    case Publishing(_, _) => End(st, k, speed)
    case Waiting(left) =>
      if left > 0.0 && st.running then st.(tasks := st.tasks[k := Waiting(left - Smaller(left, 0.1))])
      else st.(tasks := st.tasks[k := Looping])
    case Finished => st
  }

  /** An exception leaves a publication without moving the cursor; a run's clean-up still takes place. */
  function Raised(st: State, k: nat): State
    requires k < |st.tasks|
  {
    match st.tasks[k]
    case Publishing(_, stepping) =>
      var next := st.(failed := st.failed + 1);
      if stepping then next.(tasks := st.tasks[k := Finished]) else Ended(next, k)
    case Finished => st
    case _ => Ended(st, k)
  }

  function After(st: State, move: Move): State {
    match move
    case StartRun =>
      if st.running then st.(tasks := st.tasks + [Finished])
      else st.(running := true, paused := false, syncMode := true, tasks := st.tasks + [Looping])
    case StartStep =>
      var next := st.(tasks := st.tasks + [Finished]);
      if st.index < |st.events| then Begin(next, |st.tasks|, true) else next
    case Go(k, speed) => if k < |st.tasks| then GoOn(st, k, speed) else st
    case Fail(k) => if k < |st.tasks| then Raised(st, k) else st
    case Stop => st.(running := false)
    case Pause => st.(paused := true)
    case Resume => st.(paused := false)
  }

  function Exec(st: State, moves: seq<Move>): State {
    if moves == [] then st else After(Exec(st, moves[..|moves| - 1]), moves[|moves| - 1])
  }

  /** The moves that begin a publication. */
  predicate Begins(st: State, move: Move) {
    && st.index < |st.events|
    && (move.StartStep?
        || (move.Go? && move.task < |st.tasks| && st.tasks[move.task].Looping? && st.running && !st.paused))
  }

  /** No publication begins while another is in progress or after one has failed. */
  ghost predicate NeverOverlap(st: State, moves: seq<Move>) {
    forall k :: 0 <= k < |moves| && Begins(Exec(st, moves[..k]), moves[k]) ==> Exec(st, moves[..k]).Unfinished() == 0
  }

  predicate Distinct(events: seq<Event>) {
    forall i, j :: 0 <= i < j < |events| ==> events[i] != events[j]
  }

  predicate Repeats(published: seq<Event>) {
    exists i, j :: 0 <= i < j < |published| && published[i] == published[j]
  }

  // ---------------------------------------------------------------------------------------------
  // What every interleaving keeps
  // ---------------------------------------------------------------------------------------------

  lemma {:induction false} InProgressUpdate(tasks: seq<Task>, k: nat, task: Task)
    requires k < |tasks|
    ensures InProgress(tasks[k := task]) == InProgress(tasks)
            + (if task.Publishing? then 1 else 0) - (if tasks[k].Publishing? then 1 else 0)
  {
    var last := |tasks| - 1;
    if k < last {
      InProgressUpdate(tasks[..last], k, task);
      assert tasks[k := task][..last] == tasks[..last][k := task];
    } else {
      assert tasks[k := task][..last] == tasks[..last];
    }
  }

  lemma InProgressNext(tasks: seq<Task>, task: Task)
    ensures InProgress(tasks + [task]) == InProgress(tasks) + if task.Publishing? then 1 else 0
  {
    assert (tasks + [task])[..|tasks|] == tasks;
  }

  lemma GoCounts(st: State, k: nat, speed: real)
    requires k < |st.tasks|
    ensures var next := GoOn(st, k, speed);
      var begins := Begins(st, Go(k, speed));
      && next.events == st.events
      && next.index + next.Unfinished() == st.index + st.Unfinished() + (if begins then 1 else 0)
      && next.published == st.published + if begins then [st.events[st.index]] else []
  {
    hide InProgress, Gap;
    var next := GoOn(st, k, speed);
    InProgressUpdate(st.tasks, k, next.tasks[k]);
    assert next.tasks == st.tasks[k := next.tasks[k]];
  }

  lemma StepCounts(st: State, move: Move)
    ensures var next := After(st, move);
      && next.events == st.events
      && next.index + next.Unfinished() == st.index + st.Unfinished() + (if Begins(st, move) then 1 else 0)
      && next.published == st.published + if Begins(st, move) then [st.events[st.index]] else []
  {
    hide InProgress, GoOn;
    match move {
      case StartRun =>
        InProgressNext(st.tasks, Finished);
        InProgressNext(st.tasks, Looping);
      case StartStep =>
        InProgressNext(st.tasks, Finished);
        if st.index < |st.events| {
          InProgressUpdate(st.tasks + [Finished], |st.tasks|, Publishing(st.events[st.index], true));
        }
      case Go(k, speed) =>
        if k < |st.tasks| {
          GoCounts(st, k, speed);
        }
      case Fail(k) =>
        if k < |st.tasks| {
          var next := After(st, move);
          InProgressUpdate(st.tasks, k, next.tasks[k]);
          assert next.tasks == st.tasks[k := next.tasks[k]];
        }
      case _ =>
    }
  }

  /** The publications begun are those that have moved the cursor and those that have not. */
  lemma {:induction false} BegunAreCounted(start: State, moves: seq<Move>)
    requires Rewound(start)
    ensures var st := Exec(start, moves);
      st.events == start.events && |st.published| == st.index + st.Unfinished()
  {
    if moves != [] {
      hide After;
      BegunAreCounted(start, moves[..|moves| - 1]);
      StepCounts(Exec(start, moves[..|moves| - 1]), moves[|moves| - 1]);
    }
  }

  lemma NeverOverlapNext(st: State, moves: seq<Move>, move: Move)
    ensures NeverOverlap(st, moves + [move]) <==>
      NeverOverlap(st, moves) && (Begins(Exec(st, moves), move) ==> Exec(st, moves).Unfinished() == 0)
  {
    hide Exec, Begins;
    var more := moves + [move];
    assert more[..|moves|] == moves;
    assert forall k :: 0 <= k < |moves| ==> more[..k] == moves[..k] && more[k] == moves[k];
    if NeverOverlap(st, more) {
      assert more[|moves|] == move;
    }
  }

  /** Publishing the event at a cursor that lags behind what has been published repeats it. */
  lemma LaggingRepeats(events: seq<Event>, published: seq<Event>, index: nat)
    requires published <= events && index < |published|
    ensures Repeats(published + [events[index]])
  {
    var more := published + [events[index]];
    assert more[index] == more[|published|];
  }

  lemma RepeatsGrow(published: seq<Event>, e: Event)
    requires Repeats(published)
    ensures Repeats(published + [e])
  {
    var i, j :| 0 <= i < j < |published| && published[i] == published[j];
    var more := published + [e];
    assert more[i] == more[j];
  }

  /** Without overlap the published events are the first of the loaded ones; with it some event is repeated. */
  lemma {:induction false} PrefixOrRepeats(start: State, moves: seq<Move>)
    requires Rewound(start)
    ensures var st := Exec(start, moves);
      if NeverOverlap(start, moves) then st.published <= start.events else Repeats(st.published)
  {
    hide After, NeverOverlap, Repeats, Begins, State.Unfinished;
    if moves == [] {
      assert NeverOverlap(start, moves) by { NothingOverlaps(start); }
    } else {
      var past, move := moves[..|moves| - 1], moves[|moves| - 1];
      var st := Exec(start, past);
      PrefixOrRepeats(start, past);
      BegunAreCounted(start, past);
      StepCounts(st, move);
      NeverOverlapNext(start, past, move);
      assert past + [move] == moves;
      if Begins(st, move) {
        BeginsInside(st, move);
        var e := st.events[st.index];
        if !NeverOverlap(start, past) {
          RepeatsGrow(st.published, e);
        } else if st.Unfinished() != 0 {
          LaggingRepeats(start.events, st.published, st.index);
        } else {
          assert st.published + [e] == start.events[..st.index + 1];
        }
      } else {
        assert st.published + [] == st.published;
      }
    }
  }

  lemma NothingOverlaps(st: State)
    ensures NeverOverlap(st, [])
  {
  }

  lemma BeginsInside(st: State, move: Move)
    requires Begins(st, move)
    ensures st.index < |st.events|
  {
  }

  lemma DistinctNeverRepeats(events: seq<Event>, published: seq<Event>)
    requires Distinct(events) && published <= events
    ensures !Repeats(published)
  {
    assert forall i :: 0 <= i < |published| ==> published[i] == events[i];
  }

  /** Over every interleaving of runs, restarts, steps, stops, pauses and exceptions: events being distinct, what is
      published is the loaded events in order, each once, if and only if no publication began while another was in
      progress or after one had failed. The cursor then stands at the first event whose publication is not over. */
  lemma ExactlyOnceIff(start: State, moves: seq<Move>)
    requires Rewound(start) && Distinct(start.events)
    ensures var st := Exec(start, moves);
      && (st.published <= start.events <==> NeverOverlap(start, moves))
      && |st.published| == st.index + st.Unfinished()
  {
    hide Exec, NeverOverlap, Repeats;
    var st := Exec(start, moves);
    PrefixOrRepeats(start, moves);
    BegunAreCounted(start, moves);
    if st.published <= start.events {
      DistinctNeverRepeats(start.events, st.published);
    }
  }

  // ---------------------------------------------------------------------------------------------
  // One driver at a time
  // ---------------------------------------------------------------------------------------------

  /** Coroutines that have not finished. */
  function Alive(tasks: seq<Task>): nat {
    if tasks == [] then 0 else Alive(tasks[..|tasks| - 1]) + if tasks[|tasks| - 1].Finished? then 0 else 1
  }

  /** Runs and steps are started only when the one before has finished, and no publication raises. */
  ghost predicate OneByOne(st: State, moves: seq<Move>) {
    forall k :: 0 <= k < |moves| ==>
      var before := Exec(st, moves[..k]);
      && (moves[k].StartRun? || moves[k].StartStep? ==> Alive(before.tasks) == 0)
      && (moves[k].Fail? && moves[k].task < |before.tasks| ==> !before.tasks[moves[k].task].Publishing?)
  }

  lemma {:induction false} AliveUpdate(tasks: seq<Task>, k: nat, task: Task)
    requires k < |tasks|
    ensures Alive(tasks[k := task]) == Alive(tasks)
            + (if task.Finished? then 0 else 1) - (if tasks[k].Finished? then 0 else 1)
    ensures Alive(tasks) >= InProgress(tasks) + if tasks[k].Looping? || tasks[k].Waiting? then 1 else 0
  {
    var last := |tasks| - 1;
    if k < last {
      AliveUpdate(tasks[..last], k, task);
      assert tasks[k := task][..last] == tasks[..last][k := task];
    } else {
      assert tasks[k := task][..last] == tasks[..last];
      AliveAtLeast(tasks[..last]);
    }
  }

  lemma {:induction false} AliveAtLeast(tasks: seq<Task>)
    ensures Alive(tasks) >= InProgress(tasks)
  {
    if tasks != [] {
      AliveAtLeast(tasks[..|tasks| - 1]);
    }
  }

  lemma AliveNext(tasks: seq<Task>, task: Task)
    ensures Alive(tasks + [task]) == Alive(tasks) + if task.Finished? then 0 else 1
  {
    assert (tasks + [task])[..|tasks|] == tasks;
  }

  lemma StepAlive(st: State, move: Move)
    requires Alive(st.tasks) <= 1 && st.failed == 0
    requires move.StartRun? || move.StartStep? ==> Alive(st.tasks) == 0
    requires move.Fail? && move.task < |st.tasks| ==> !st.tasks[move.task].Publishing?
    ensures Alive(After(st, move).tasks) <= 1 && After(st, move).failed == 0
    ensures Begins(st, move) ==> st.Unfinished() == 0
  {
    hide Alive, InProgress;
    AliveAtLeast(st.tasks);
    match move {
      case StartRun =>
        AliveNext(st.tasks, Finished);
        AliveNext(st.tasks, Looping);
      case StartStep =>
        AliveNext(st.tasks, Finished);
        if st.index < |st.events| {
          AliveUpdate(st.tasks + [Finished], |st.tasks|, Publishing(st.events[st.index], true));
        }
      case Go(k, _) =>
        if k < |st.tasks| {
          var next := After(st, move);
          AliveUpdate(st.tasks, k, next.tasks[k]);
          assert next.tasks == st.tasks[k := next.tasks[k]];
        }
      case Fail(k) =>
        if k < |st.tasks| {
          var next := After(st, move);
          AliveUpdate(st.tasks, k, next.tasks[k]);
          assert next.tasks == st.tasks[k := next.tasks[k]];
        }
      case _ =>
    }
  }

  lemma {:induction false} OneByOneAlive(start: State, moves: seq<Move>)
    requires Rewound(start) && Alive(start.tasks) <= 1 && OneByOne(start, moves)
    ensures var st := Exec(start, moves); Alive(st.tasks) <= 1 && st.failed == 0
    ensures NeverOverlap(start, moves)
  {
    if moves != [] {
      var past, move := moves[..|moves| - 1], moves[|moves| - 1];
      assert past + [move] == moves;
      OneByOneEarlier(start, moves);
      hide After, Alive, Begins, NeverOverlap, OneByOne;
      OneByOneAlive(start, past);
      StepAlive(Exec(start, past), move);
      NeverOverlapNext(start, past, move);
    }
  }

  lemma OneByOneEarlier(start: State, moves: seq<Move>)
    requires moves != [] && OneByOne(start, moves)
    ensures OneByOne(start, moves[..|moves| - 1])
    ensures var before, move := Exec(start, moves[..|moves| - 1]), moves[|moves| - 1];
      && (move.StartRun? || move.StartStep? ==> Alive(before.tasks) == 0)
      && (move.Fail? && move.task < |before.tasks| ==> !before.tasks[move.task].Publishing?)
  {
    hide Exec, Alive;
    var past := moves[..|moves| - 1];
    assert forall k :: 0 <= k < |past| ==> past[..k] == moves[..k] && past[k] == moves[k];
  }

  /** With one driver at a time, whatever the stops, pauses and resumes, no event is skipped or repeated. */
  lemma OneDriverSuffices(start: State, moves: seq<Move>)
    requires Rewound(start) && Alive(start.tasks) <= 1 && OneByOne(start, moves)
    ensures Exec(start, moves).published <= start.events
  {
    OneByOneAlive(start, moves);
    PrefixOrRepeats(start, moves);
  }

  /** Nothing moves a coroutine but its own moves. */
  lemma OthersKeep(st: State, move: Move, k: nat)
    requires k < |st.tasks| && !Of(move, k)
    ensures |After(st, move).tasks| >= |st.tasks| && After(st, move).tasks[k] == st.tasks[k]
    ensures After(st, move).events == st.events
  {
    hide Gap;
    if move.Go? && move.task < |st.tasks| {
      GoKeeps(st, move.task, move.speed);
      hide GoOn;
    }
  }

  lemma GoKeeps(st: State, k: nat, speed: real)
    requires k < |st.tasks|
    ensures var next := GoOn(st, k, speed); next.events == st.events && next.tasks == st.tasks[k := next.tasks[k]]
  {
    hide Gap;
  }

  // ---------------------------------------------------------------------------------------------
  // Stopped and paused
  // ---------------------------------------------------------------------------------------------

  /** A stopped replay publishes nothing until somebody starts a run or a step. */
  lemma {:induction false} StoppedIsQuiet(st: State, moves: seq<Move>)
    requires !st.running && forall i :: 0 <= i < |moves| ==> !moves[i].StartRun? && !moves[i].StartStep?
    ensures !Exec(st, moves).running && Exec(st, moves).published == st.published
  {
    if moves != [] {
      hide Gap;
      StoppedIsQuiet(st, moves[..|moves| - 1]);
    }
  }

  /** A paused replay publishes nothing until somebody resumes it, or starts a run or a step. */
  lemma {:induction false} PausedIsQuiet(st: State, moves: seq<Move>)
    requires st.paused
    requires forall i :: 0 <= i < |moves| ==> !moves[i].StartRun? && !moves[i].StartStep? && !moves[i].Resume?
    ensures Exec(st, moves).paused && Exec(st, moves).published == st.published
  {
    if moves != [] {
      hide Gap;
      PausedIsQuiet(st, moves[..|moves| - 1]);
    }
  }

  /** What lifts a pause: a resume, or the start of a run when none is running. */
  ghost predicate Lifts(st: State, moves: seq<Move>, j: nat) {
    j < |moves| && (moves[j].Resume? || (moves[j].StartRun? && !Exec(st, moves[..j]).running))
  }

  ghost predicate PauseStands(st: State, moves: seq<Move>, i: nat) {
    i < |moves| && moves[i].Pause? && forall j :: i < j < |moves| ==> !Lifts(st, moves, j)
  }

  /** A replay is paused exactly if somebody has paused it and nothing has lifted the pause since. */
  lemma {:induction false} PausedIff(st: State, moves: seq<Move>)
    requires !st.paused
    ensures Exec(st, moves).paused <==> exists i: nat :: PauseStands(st, moves, i)
  {
    if moves != [] {
      PausedIff(st, moves[..|moves| - 1]);
      StandingNext(st, moves);
      hide PauseStands;
      PausedNext(Exec(st, moves[..|moves| - 1]), moves[|moves| - 1]);
    }
  }

  lemma StandingNext(st: State, moves: seq<Move>)
    requires moves != []
    ensures var past, last := moves[..|moves| - 1], |moves| - 1;
      (exists i: nat :: PauseStands(st, moves, i)) <==>
      moves[last].Pause? || (!Lifts(st, moves, last) && exists i: nat :: PauseStands(st, past, i))
  {
    hide Exec, Lifts;
    var past, last := moves[..|moves| - 1], |moves| - 1;
    forall j: nat | j < last ensures Lifts(st, moves, j) <==> Lifts(st, past, j) {
      LiftsEarlier(st, moves, j);
    }
    if i: nat :| PauseStands(st, past, i) && !Lifts(st, moves, last) {
      assert PauseStands(st, moves, i);
    }
    if i: nat :| PauseStands(st, moves, i) {
      if i < last {
        assert PauseStands(st, past, i);
      }
    }
    if moves[last].Pause? {
      assert PauseStands(st, moves, last);
    }
  }

  lemma LiftsEarlier(st: State, moves: seq<Move>, j: nat)
    requires j < |moves| - 1
    ensures Lifts(st, moves, j) <==> Lifts(st, moves[..|moves| - 1], j)
  {
    assert moves[..|moves| - 1][..j] == moves[..j];
  }

  lemma PausedNext(st: State, move: Move)
    ensures After(st, move).paused <==>
      move.Pause? || (st.paused && !move.Resume? && !(move.StartRun? && !st.running))
  {
    hide Gap;
  }

  // ---------------------------------------------------------------------------------------------
  // Synchronous dispatch
  // ---------------------------------------------------------------------------------------------

  /** A run that has not come to its end. */
  predicate UnderWay(task: Task) {
    task.Looping? || task.Waiting? || (task.Publishing? && !task.stepping)
  }

  ghost predicate InStep(st: State) {
    && (st.running ==> st.syncMode)
    && (st.syncMode ==> exists k :: 0 <= k < |st.tasks| && UnderWay(st.tasks[k]))
  }

  lemma GoKeepsInStep(st: State, j: nat, speed: real)
    requires InStep(st) && j < |st.tasks|
    ensures InStep(GoOn(st, j, speed))
  {
    hide Gap;
    if st.syncMode {
      var k :| 0 <= k < |st.tasks| && UnderWay(st.tasks[k]);
      assert GoOn(st, j, speed).syncMode ==> UnderWay(GoOn(st, j, speed).tasks[k]);
    }
  }

  lemma AfterKeepsInStep(st: State, move: Move)
    requires InStep(st)
    ensures InStep(After(st, move))
  {
    hide GoOn;
    var next := After(st, move);
    if move.Go? && move.task < |st.tasks| {
      GoKeepsInStep(st, move.task, move.speed);
    } else if next.syncMode {
      if st.syncMode {
        var k :| 0 <= k < |st.tasks| && UnderWay(st.tasks[k]);
        assert UnderWay(next.tasks[k]);
      } else {
        assert UnderWay(next.tasks[|st.tasks|]);
      }
    }
  }

  /** Over every interleaving, the bus dispatches synchronously while the replay is running, and is back in its queued
      mode once no run is under way. */
  lemma {:induction false} SynchronousWhileRunning(start: State, moves: seq<Move>)
    requires InStep(start)
    ensures InStep(Exec(start, moves))
  {
    if moves != [] {
      hide After;
      SynchronousWhileRunning(start, moves[..|moves| - 1]);
      AfterKeepsInStep(Exec(start, moves[..|moves| - 1]), moves[|moves| - 1]);
    }
  }

  // ---------------------------------------------------------------------------------------------
  // One run at a time
  // ---------------------------------------------------------------------------------------------

  function RunsUnderWay(tasks: seq<Task>): nat {
    if tasks == [] then 0 else RunsUnderWay(tasks[..|tasks| - 1]) + if UnderWay(tasks[|tasks| - 1]) then 1 else 0
  }

  lemma {:induction false} RunsUpdate(tasks: seq<Task>, k: nat, task: Task)
    requires k < |tasks|
    ensures RunsUnderWay(tasks[k := task]) == RunsUnderWay(tasks)
            + (if UnderWay(task) then 1 else 0) - (if UnderWay(tasks[k]) then 1 else 0)
  {
    var last := |tasks| - 1;
    if k < last {
      RunsUpdate(tasks[..last], k, task);
      assert tasks[k := task][..last] == tasks[..last][k := task];
    } else {
      assert tasks[k := task][..last] == tasks[..last];
    }
  }

  lemma RunsNext(tasks: seq<Task>, task: Task)
    ensures RunsUnderWay(tasks + [task]) == RunsUnderWay(tasks) + if UnderWay(task) then 1 else 0
  {
    assert (tasks + [task])[..|tasks|] == tasks;
  }

  /** As many runs are under way as the replay thinks: one while it is running, else none. */
  predicate Alone(st: State) {
    RunsUnderWay(st.tasks) == if st.running then 1 else 0
  }

  lemma AfterKeepsAlone(st: State, move: Move)
    requires Alone(st) && !move.Stop?
    ensures Alone(After(st, move))
  {
    hide RunsUnderWay, Gap;
    match move {
      case StartRun =>
        RunsNext(st.tasks, Finished);
        RunsNext(st.tasks, Looping);
      case StartStep =>
        RunsNext(st.tasks, Finished);
        if st.index < |st.events| {
          RunsUpdate(st.tasks + [Finished], |st.tasks|, Publishing(st.events[st.index], true));
        }
      case Go(k, speed) =>
        if k < |st.tasks| {
          GoKeepsAlone(st, k, speed);
        }
      case Fail(k) =>
        if k < |st.tasks| {
          RunsUpdate(st.tasks, k, Finished);
          if UnderWay(st.tasks[k]) {
            RunsAtLeast(st.tasks, k);
          }
        }
      case _ =>
    }
  }

  lemma GoKeepsAlone(st: State, k: nat, speed: real)
    requires Alone(st) && k < |st.tasks|
    ensures Alone(GoOn(st, k, speed))
  {
    hide RunsUnderWay, Gap;
    var next := GoOn(st, k, speed);
    GoKeeps(st, k, speed);
    RunsUpdate(st.tasks, k, next.tasks[k]);
    if UnderWay(st.tasks[k]) {
      RunsAtLeast(st.tasks, k);
    }
  }

  lemma {:induction false} RunsAtLeast(tasks: seq<Task>, k: nat)
    requires k < |tasks| && UnderWay(tasks[k])
    ensures RunsUnderWay(tasks) >= 1
  {
    if k < |tasks| - 1 {
      RunsAtLeast(tasks[..|tasks| - 1], k);
    }
  }

  /** Unless somebody stops the replay, no run starts while another is under way. */
  lemma {:induction false} OneRunWithoutStops(start: State, moves: seq<Move>)
    requires Alone(start) && forall i :: 0 <= i < |moves| ==> !moves[i].Stop?
    ensures Alone(Exec(start, moves))
  {
    if moves != [] {
      hide After, Alone;
      OneRunWithoutStops(start, moves[..|moves| - 1]);
      AfterKeepsAlone(Exec(start, moves[..|moves| - 1]), moves[|moves| - 1]);
    }
  }

  // ---------------------------------------------------------------------------------------------
  // How it fails
  // ---------------------------------------------------------------------------------------------

  lemma ExecNext(st: State, moves: seq<Move>, move: Move)
    ensures Exec(st, moves + [move]) == After(Exec(st, moves), move)
  {
    assert (moves + [move])[..|moves|] == moves;
  }

  /** A step taken while an event is being published repeats it. */
  lemma StepRepeats(a: Event, b: Event)
    ensures Exec(Loaded([a, b]), [StartRun] + [Go(0, 1.0)] + [StartStep]).published == [a, a]
  {
    var st := Loaded([a, b]);
    ExecNext(st, [], StartRun);
    assert [] + [StartRun] == [StartRun];
    ExecNext(st, [StartRun], Go(0, 1.0));
    ExecNext(st, [StartRun] + [Go(0, 1.0)], StartStep);
  }

  /** So does a run after a publication that raised. */
  lemma FailureRepeats(a: Event, b: Event)
    ensures Exec(Loaded([a, b]), [StartRun] + [Go(0, 1.0)] + [Fail(0)] + [StartRun] + [Go(1, 1.0)]).published == [a, a]
  {
    var st := Loaded([a, b]);
    ExecNext(st, [], StartRun);
    assert [] + [StartRun] == [StartRun];
    ExecNext(st, [StartRun], Go(0, 1.0));
    ExecNext(st, [StartRun] + [Go(0, 1.0)], Fail(0));
    ExecNext(st, [StartRun] + [Go(0, 1.0)] + [Fail(0)], StartRun);
    ExecNext(st, [StartRun] + [Go(0, 1.0)] + [Fail(0)] + [StartRun], Go(1, 1.0));
  }

  /** A run is stopped in its sleep after the first event and started again: the first one wakes up while the
      second publishes, finds the engine running, and publishes the same event. */
  lemma RestartRepeats(a: Event, b: Event)
    requires b.time - a.time == 0.05
    ensures var asleep := [StartRun] + [Go(0, 1.0)] + [Go(0, 1.0)] + [Go(0, 1.0)];
      Exec(Loaded([a, b]), asleep + [Stop] + [StartRun] + [Go(1, 1.0)] + [Go(0, 1.0)] + [Go(0, 1.0)]).published
      == [a, b, b]
  {
    var st := Loaded([a, b]);
    var go, one := Go(0, 1.0), [StartRun];
    assert [] + one == one;
    ExecNext(st, [], StartRun);
    ExecNext(st, one, go);
    ExecNext(st, one + [go], go);
    assert Gap(a, b, 1.0) == 0.05;
    ExecNext(st, one + [go] + [go], go);
    var asleep := one + [go] + [go] + [go];
    assert Exec(st, asleep) == State([a, b], 1, true, false, true, [a], 0, [Waiting(0.0)]);
    ExecNext(st, asleep, Stop);
    ExecNext(st, asleep + [Stop], StartRun);
    ExecNext(st, asleep + [Stop] + [StartRun], Go(1, 1.0));
    ExecNext(st, asleep + [Stop] + [StartRun] + [Go(1, 1.0)], go);
    ExecNext(st, asleep + [Stop] + [StartRun] + [Go(1, 1.0)] + [go], go);
  }
}
