/** The running agent as a machine of atomic steps: channels that add, the drainer
    that takes and routes, the tasks it starts, the job driver, and `/clear`, all
    over one queue table and one loop flag. Every step is one critical section or
    one statement of the source, and a crash may come between any two. */
module Serving {
  import opened Text
  import opened Queue

  const MAX_MESSAGES_IN_ONE_PASS := 64

  // ---------------------------------------------------------------- the machine

  /** What the router made of a message: it was answered there and then, it started a
      task, it was put in the memory of the loop for the running task to read, or
      nothing was done with it and the trouble was noted. */
  datatype Outcome = Answered | Started | Delivered | Failed

  /** Where the drainer is. `Asleep` is waiting for a nudge, because nothing waited or
      because a take failed. `Routing` is inside the router; from there it may take
      the loop to start a task, find the loop held, or wait out the running task for
      `/clear`. */
  datatype Drainer =
    | Looking
    | Asleep
    | Took(sequence: nat)
    | Routing(sequence: nat)
    | Delivering(sequence: nat)
    | HasLoop(sequence: nat)
    | HandedOver(sequence: nat, finishes: nat)
    | Clearing(sequence: nat)
    | Routed(sequence: nat, outcome: Outcome)
    | Finishing(sequence: nat, outcome: Outcome)

  /** Where a person's task is: its turn runs or is refused, then its message is
      finished, then the loop is freed. */
  datatype Task = Working | Ended(ran: bool) | Finished

  datatype JobDriver = Resting | Asking | Running | Nightly

  /** What survives a crash is `table`. `delivered` is what the loop holds for the
      running task, and `reading` what that task took of it and has not written into
      its record yet. The fields after them are the history, kept for the proof;
      `takeFailed` is why the drainer is asleep. */
  datatype State = State(
    table: Table,
    busy: bool,
    holding: nat,
    handedOver: bool,
    nudged: bool,
    passed: nat,
    drainer: Drainer,
    tasks: map<nat, Task>,
    job: JobDriver,
    delivered: seq<nat>,
    reading: seq<nat>,
    accepted: set<nat>,
    handled: set<nat>,
    dropped: set<nat>,
    finishCalls: multiset<nat>,
    taken: nat,
    freed: nat,
    takeFailed: bool)

  datatype Step =
    | Add(message: Inbound)
    | TakeOne | TakeNone | TakeFails | EndPass | Wake
    | Hold
    | RouteAnswers | RouteFails
    | FindsTheLoopHeld | Deliver
    | StartTakesTheLoop | HandOver | Spawn
    | ClearTakesTheLoop | ClearFreesTheLoop
    | AskWhetherStillHolding | DrainerFinishes
    | TakeDelivered | ReadOne | DropTheRest
    | TaskEnds(task: nat, ran: bool) | TaskFinishes(task: nat) | TaskFrees(task: nat)
    | JobTakesTheLoop | JobFindsNothing | JobIsNightly | NightlyEnds | JobRuns | JobFrees
    | Crash

  const START := State(Table([], 1), false, 0, false, false, 0, Looking, map[], Resting, [], [], {}, {}, {}, multiset{}, 0, 0, false)

  /** Some task of a person or of a job is in its turn. */
  predicate SomeTurnRuns(s: State) {
    s.job.Running? || exists task | task in s.tasks :: s.tasks[task].Working?
  }

  predicate Enabled(capacity: nat, s: State, step: Step) {
    match step
    case Add(_) => CountHeld(s.table.rows) < capacity
    case TakeOne => s.drainer.Looking? && s.passed < MAX_MESSAGES_IN_ONE_PASS && OldestWaiting(s.table.rows) >= 0
    case TakeNone => s.drainer.Looking? && s.passed < MAX_MESSAGES_IN_ONE_PASS && OldestWaiting(s.table.rows) < 0
    case TakeFails => s.drainer.Looking? && s.passed < MAX_MESSAGES_IN_ONE_PASS
    case EndPass => s.drainer.Looking? && s.passed >= MAX_MESSAGES_IN_ONE_PASS
    case Wake => s.drainer.Asleep? && s.nudged
    case Hold => s.drainer.Took?
    case RouteAnswers => s.drainer.Routing?
    case RouteFails => s.drainer.Routing? || s.drainer.Delivering?
    case FindsTheLoopHeld => s.drainer.Routing? && s.busy
    case Deliver => s.drainer.Delivering? && |s.delivered| < capacity
    case StartTakesTheLoop => s.drainer.Routing? && !s.busy
    case HandOver => s.drainer.HasLoop?
    case Spawn => s.drainer.HandedOver?
    case ClearTakesTheLoop => s.drainer.Routing? && !s.busy
    case ClearFreesTheLoop => s.drainer.Clearing?
    case AskWhetherStillHolding => s.drainer.Routed?
    case DrainerFinishes => s.drainer.Finishing?
    case TakeDelivered => SomeTurnRuns(s) && s.reading == []
    case ReadOne => SomeTurnRuns(s) && s.reading != []
    case DropTheRest => SomeTurnRuns(s) && s.reading != []
    case TaskEnds(task, _) => task in s.tasks && s.tasks[task].Working? && s.reading == []
    case TaskFinishes(task) => task in s.tasks && s.tasks[task].Ended?
    case TaskFrees(task) => task in s.tasks && s.tasks[task].Finished?
    case JobTakesTheLoop => s.job.Resting? && !s.busy
    case JobFindsNothing => s.job.Asking?
    case JobIsNightly => s.job.Asking?
    case NightlyEnds => s.job.Nightly?
    case JobRuns => s.job.Asking?
    case JobFrees => s.job.Running? && s.reading == []
    case Crash => true
  }

  function TakeLoop(s: State): State {
    s.(busy := true, taken := s.taken + 1)
  }

  function FreeLoop(s: State): State {
    s.(busy := false, freed := s.freed + 1)
  }

  /** The statement that marks a message done, which does nothing when the queue
      holds no unfinished message under that number. */
  function Finish(s: State, sequence: nat): State {
    var at := Unfinished(s.table.rows, sequence);
    s.(table := if at < 0 then s.table else DoneAt(s.table, at), finishCalls := s.finishCalls + multiset{sequence})
  }

  function Members(numbers: seq<nat>): set<nat> {
    set q | q in numbers
  }

  function Do(capacity: nat, s: State, step: Step): State
    requires Enabled(capacity, s, step)
  {
    match step
    case Add(message) => s.(table := Inserted(s.table, message), accepted := s.accepted + {s.table.next}, nudged := true)
    case TakeOne =>
      var at := OldestWaiting(s.table.rows);
      s.(table := TakenAt(s.table, at), drainer := Took(s.table.rows[at].sequence))
    case TakeNone => s.(drainer := Asleep, passed := 0)
    case TakeFails => s.(drainer := Asleep, passed := 0, takeFailed := true)
    case EndPass => s.(passed := 0)
    case Wake => s.(drainer := Looking, nudged := false, takeFailed := false)
    case Hold => s.(holding := s.drainer.sequence, handedOver := false, drainer := Routing(s.drainer.sequence))
    case RouteAnswers => s.(drainer := Routed(s.drainer.sequence, Answered), handled := s.handled + {s.drainer.sequence})
    case RouteFails => s.(drainer := Routed(s.drainer.sequence, Failed))
    case FindsTheLoopHeld => s.(drainer := Delivering(s.drainer.sequence))
    case Deliver =>
      s.(drainer := Routed(s.drainer.sequence, Delivered), delivered := s.delivered + [s.drainer.sequence])
    case StartTakesTheLoop => TakeLoop(s).(drainer := HasLoop(s.drainer.sequence))
    case HandOver => s.(handedOver := true, drainer := HandedOver(s.drainer.sequence, s.holding))
    case Spawn => s.(tasks := s.tasks[s.drainer.finishes := Working], drainer := Routed(s.drainer.sequence, Started))
    case ClearTakesTheLoop => TakeLoop(s).(drainer := Clearing(s.drainer.sequence))
    case ClearFreesTheLoop => FreeLoop(s).(drainer := Routing(s.drainer.sequence))
    case AskWhetherStillHolding =>
      if s.handedOver then s.(drainer := Looking, passed := s.passed + 1) else s.(drainer := Finishing(s.drainer.sequence, s.drainer.outcome))
    case DrainerFinishes => Finish(s, s.drainer.sequence).(drainer := Looking, passed := s.passed + 1)
    case TakeDelivered => s.(reading := s.delivered, delivered := [])
    case ReadOne => s.(reading := s.reading[1..], handled := s.handled + {s.reading[0]})
    case DropTheRest => s.(reading := [], dropped := s.dropped + Members(s.reading))
    case TaskEnds(task, ran) =>
      s.(tasks := s.tasks[task := Ended(ran)], handled := if ran then s.handled + {task} else s.handled)
    case TaskFinishes(task) => Finish(s, task).(tasks := s.tasks[task := Finished])
    case TaskFrees(task) => FreeLoop(s).(tasks := s.tasks - {task})
    case JobTakesTheLoop => TakeLoop(s).(job := Asking)
    case JobFindsNothing => FreeLoop(s).(job := Resting)
    case JobIsNightly => FreeLoop(s).(job := Nightly)
    case NightlyEnds => s.(job := Resting)
    case JobRuns => s.(job := Running)
    case JobFrees => FreeLoop(s).(job := Resting)
    case Crash => START.(table := Recovered(s.table), accepted := s.accepted, handled := s.handled)
  }

  /** A run: any interleaving of enabled steps from an empty queue. */
  predicate IsRun(capacity: nat, states: seq<State>, steps: seq<Step>) {
    && |states| == |steps| + 1 && states[0] == START
    && forall i | 0 <= i < |steps| :: Enabled(capacity, states[i], steps[i]) && states[i + 1] == Do(capacity, states[i], steps[i])
  }

  // ---------------------------------------------------------------- what the table shows

  function InState(table: Table, state: RowState): set<nat> {
    set k | 0 <= k < |table.rows| && table.rows[k].state == state :: table.rows[k].sequence
  }

  lemma InsertShows(table: Table, message: Inbound)
    ensures var after := Inserted(table, message);
      InState(after, Waiting) == InState(table, Waiting) + {table.next}
      && InState(after, Taken) == InState(table, Taken) && InState(after, RowState.Done) == InState(table, RowState.Done)
  {
    var after := Inserted(table, message);
    forall state: RowState, q ensures q in InState(after, state) <==> q in InState(table, state) || (state.Waiting? && q == table.next) {
      if q in InState(table, state) {
        var k :| 0 <= k < |table.rows| && table.rows[k].state == state && table.rows[k].sequence == q;
        assert after.rows[k] == table.rows[k];
      }
      assert after.rows[|table.rows|].sequence == table.next;
    }
  }

  lemma UpdateShows(table: Table, at: nat, row: Row, state: RowState)
    requires Ordered(table) && at < |table.rows| && row.sequence == table.rows[at].sequence
    ensures InState(table.(rows := table.rows[at := row]), state)
            == (InState(table, state) - {row.sequence}) + (if row.state == state then {row.sequence} else {})
    ensures row.sequence in InState(table, state) <==> table.rows[at].state == state
  {
    var after := table.(rows := table.rows[at := row]);
    forall q ensures q in InState(after, state) <==> (q in InState(table, state) && q != row.sequence) || (row.state == state && q == row.sequence) {
      if q in InState(table, state) {
        var k :| 0 <= k < |table.rows| && table.rows[k].state == state && table.rows[k].sequence == q;
        if k != at {
          assert after.rows[k] == table.rows[k] && q != row.sequence;
        }
      }
      if q in InState(after, state) {
        var k :| 0 <= k < |after.rows| && after.rows[k].state == state && after.rows[k].sequence == q;
        if k != at {
          assert table.rows[k] == after.rows[k] && q != row.sequence;
        }
      }
      assert after.rows[at] == row;
    }
  }

  lemma RecoveryShows(table: Table)
    ensures InState(Recovered(table), Waiting) == InState(table, Waiting) + InState(table, Taken)
    ensures InState(Recovered(table), Taken) == {} && InState(Recovered(table), RowState.Done) == {}
  {
    hide RecoveredRows;
    var rows := table.rows;
    AllCameBack(rows);
    forall q ensures q in InState(Recovered(table), Waiting) <==> q in InState(table, Waiting) || q in InState(table, Taken) {
      if q in InState(table, Waiting) || q in InState(table, Taken) {
        var k :| 0 <= k < |rows| && !rows[k].state.Done? && rows[k].sequence == q;
        RecoveryLosesNone(rows, rows[k]);
        var j :| 0 <= j < |RecoveredRows(rows)| && RecoveredRows(rows)[j] == PutBack(rows[k]);
        assert RecoveredRows(rows)[j].sequence == q;
      }
      if q in InState(Recovered(table), Waiting) {
        var j :| 0 <= j < |RecoveredRows(rows)| && RecoveredRows(rows)[j].sequence == q;
        assert CameBack(rows, RecoveredRows(rows)[j]);
        var k :| 0 <= k < |rows| && !rows[k].state.Done? && RecoveredRows(rows)[j] == PutBack(rows[k]);
        assert rows[k].sequence == q;
      }
    }
    forall j | 0 <= j < |RecoveredRows(rows)| ensures RecoveredRows(rows)[j].state.Waiting? {
      assert CameBack(rows, RecoveredRows(rows)[j]);
    }
  }

  /** Marking done moves the number from its state to done. */
  lemma FinishShows(s: State, sequence: nat)
    requires Ordered(s.table) && sequence in InState(s.table, Taken)
    ensures var after := Finish(s, sequence).table;
      Ordered(after) && InState(after, Taken) == InState(s.table, Taken) - {sequence}
      && InState(after, Waiting) == InState(s.table, Waiting)
      && InState(after, RowState.Done) == InState(s.table, RowState.Done) + {sequence}
      && sequence !in InState(after, Waiting) && sequence !in InState(s.table, RowState.Done)
  {
    var at := Unfinished(s.table.rows, sequence);
    var k :| 0 <= k < |s.table.rows| && s.table.rows[k].state.Taken? && s.table.rows[k].sequence == sequence;
    assert at == k;
    var row := s.table.rows[at].(state := RowState.Done);
    UpdateShows(s.table, at, row, Taken);
    UpdateShows(s.table, at, row, Waiting);
    UpdateShows(s.table, at, row, RowState.Done);
  }

  lemma TakeShows(table: Table, at: nat)
    requires Ordered(table) && at < |table.rows| && table.rows[at].state.Waiting?
    ensures var after := TakenAt(table, at);
      var sequence := table.rows[at].sequence;
      Ordered(after) && InState(after, Taken) == InState(table, Taken) + {sequence}
      && InState(after, Waiting) == InState(table, Waiting) - {sequence}
      && InState(after, RowState.Done) == InState(table, RowState.Done)
      && sequence in InState(table, Waiting) && sequence !in InState(table, Taken) && sequence !in InState(table, RowState.Done)
  {
    var row := table.rows[at].(state := Taken, takenCount := table.rows[at].takenCount + 1);
    UpdateShows(table, at, row, Taken);
    UpdateShows(table, at, row, Waiting);
    UpdateShows(table, at, row, RowState.Done);
  }

  // ---------------------------------------------------------------- the loop

  predicate DrainerOwnsTheLoop(s: State) {
    s.drainer.HasLoop? || s.drainer.HandedOver? || s.drainer.Clearing?
  }

  predicate JobOwnsTheLoop(s: State) {
    s.job.Asking? || s.job.Running?
  }

  function OwnersOfTheLoop(s: State): nat {
    (if DrainerOwnsTheLoop(s) then 1 else 0) + TaskCount(s.tasks) + (if JobOwnsTheLoop(s) then 1 else 0)
  }

  function TaskCount(tasks: map<nat, Task>): nat {
    |tasks|
  }

  /** The loop is busy exactly while it has an owner, it has one at a time, and
      every taking of it has been matched by one freeing or is still owned. */
  predicate LoopIsOwned(s: State) {
    && OwnersOfTheLoop(s) == (if s.busy then 1 else 0)
    && s.taken == s.freed + OwnersOfTheLoop(s)
  }

  /** The steps that change which tasks there are, or whether there is anything. */
  predicate ChangesTasks(step: Step) {
    step.Spawn? || step.TaskEnds? || step.TaskFinishes? || step.TaskFrees? || step.Crash?
  }

  lemma TaskStepsKeepTheLoop(capacity: nat, s: State, step: Step)
    requires LoopIsOwned(s) && Enabled(capacity, s, step) && ChangesTasks(step)
    ensures LoopIsOwned(Do(capacity, s, step))
    ensures Do(capacity, s, step).freed > s.freed ==> s.busy
  {
    hide InState, Unfinished, OldestWaiting, Inserted, TakenAt, DoneAt, Recovered, CountHeld, TaskCount, SomeTurnRuns, Members;
    TaskCounts(s.tasks, 0, Working);
    match step
    case Spawn => TaskCounts(s.tasks, s.drainer.finishes, Working);
    case TaskEnds(task, ran) => TaskCounts(s.tasks, task, Ended(ran));
    case TaskFinishes(task) => TaskCounts(s.tasks, task, Finished);
    case TaskFrees(task) => TaskCounts(s.tasks, task, Finished);
    case _ =>
  }

  /** The steps that take, free or hand on the loop. */
  predicate ChangesTheLoop(step: Step) {
    step.StartTakesTheLoop? || step.HandOver? || step.ClearTakesTheLoop? || step.ClearFreesTheLoop?
    || step.JobTakesTheLoop? || step.JobFindsNothing? || step.JobIsNightly? || step.JobRuns? || step.JobFrees?
  }

  lemma LoopStepsKeepTheLoop(capacity: nat, s: State, step: Step)
    requires LoopIsOwned(s) && Enabled(capacity, s, step) && ChangesTheLoop(step)
    ensures LoopIsOwned(Do(capacity, s, step))
    ensures Do(capacity, s, step).freed > s.freed ==> s.busy
  {
    hide InState, CountHeld, OldestWaiting, TaskCount, SomeTurnRuns, Members;
  }

  lemma OtherStepsKeepTheLoop(capacity: nat, s: State, step: Step)
    requires LoopIsOwned(s) && Enabled(capacity, s, step) && !ChangesTheLoop(step) && !ChangesTasks(step)
    ensures LoopIsOwned(Do(capacity, s, step))
    ensures Do(capacity, s, step).freed > s.freed ==> s.busy
  {
    hide InState, Unfinished, OldestWaiting, Inserted, TakenAt, DoneAt, Recovered, CountHeld, TaskCount, SomeTurnRuns, Members;
  }

  lemma LoopStaysOwned(capacity: nat, s: State, step: Step)
    requires LoopIsOwned(s) && Enabled(capacity, s, step)
    ensures LoopIsOwned(Do(capacity, s, step))
    ensures Do(capacity, s, step).freed > s.freed ==> s.busy
  {
    hide Do, Enabled, LoopIsOwned;
    if ChangesTasks(step) {
      TaskStepsKeepTheLoop(capacity, s, step);
    } else if ChangesTheLoop(step) {
      LoopStepsKeepTheLoop(capacity, s, step);
    } else {
      OtherStepsKeepTheLoop(capacity, s, step);
    }
  }

  lemma TaskCounts(tasks: map<nat, Task>, task: nat, now: Task)
    ensures TaskCount(tasks[task := now]) == if task in tasks then TaskCount(tasks) else TaskCount(tasks) + 1
    ensures task in tasks ==> TaskCount(tasks - {task}) == TaskCount(tasks) - 1
    ensures TaskCount(map[]) == 0 && (TaskCount(tasks) == 0 <==> tasks == map[])
  {
    assert tasks[task := now].Keys == tasks.Keys + {task};
    assert (tasks - {task}).Keys == tasks.Keys - {task};
  }

  // ---------------------------------------------------------------- the messages

  /** The message the drainer answers for. */
  function DrainerHolds(s: State): set<nat> {
    match s.drainer
    case Took(sequence) => {sequence}
    case Routing(sequence) => {sequence}
    case Delivering(sequence) => {sequence}
    case HasLoop(sequence) => {sequence}
    case Clearing(sequence) => {sequence}
    case Finishing(sequence, _) => {sequence}
    case Routed(sequence, _) => if s.handedOver then {} else {sequence}
    case _ => {}
  }

  /** The message a task answers for, or the one about to start one. */
  function TasksHold(s: State): set<nat> {
    (if s.drainer.HandedOver? then {s.drainer.finishes} else {}) + OpenTasks(s.tasks)
  }

  function OpenTasks(tasks: map<nat, Task>): set<nat> {
    set task | task in tasks && !tasks[task].Finished?
  }

  lemma OpenTasksAfter(tasks: map<nat, Task>, task: nat, now: Task)
    ensures OpenTasks(tasks[task := now]) == (OpenTasks(tasks) - {task}) + (if now.Finished? then {} else {task})
    ensures task in tasks && tasks[task].Finished? ==> OpenTasks(tasks - {task}) == OpenTasks(tasks)
    ensures task in OpenTasks(tasks) <==> task in tasks && !tasks[task].Finished?
    ensures OpenTasks(map[]) == {}
  {
  }

  /** What the two fields under the lock say while a message is routed. */
  predicate HoldingIsRight(s: State) {
    match s.drainer
    case Routing(sequence) => s.holding == sequence && !s.handedOver
    case Delivering(sequence) => s.holding == sequence && !s.handedOver
    case HasLoop(sequence) => s.holding == sequence && !s.handedOver
    case Clearing(sequence) => s.holding == sequence && !s.handedOver
    case HandedOver(sequence, finishes) => finishes == sequence && s.handedOver
    case Finishing(_, outcome) => !s.handedOver && !outcome.Started?
    case Routed(_, outcome) => s.handedOver <==> outcome.Started?
    case _ => true
  }

  /** Every taken message has exactly one owner. */
  predicate MessagesAreOwned(s: State) {
    && Ordered(s.table) && HoldingIsRight(s)
    && InState(s.table, Taken) == DrainerHolds(s) + TasksHold(s)
    && DrainerHolds(s) !! TasksHold(s)
    && InState(s.table, RowState.Done) !! InState(s.table, Taken)
    && (forall task | task in s.tasks && s.tasks[task].Finished? :: task in InState(s.table, RowState.Done))
  }

  /** The numbers of the table by their state. */
  datatype Shown = Shown(waiting: set<nat>, taken: set<nat>, done: set<nat>)

  function Show(table: Table): Shown {
    Shown(InState(table, Waiting), InState(table, Taken), InState(table, RowState.Done))
  }

  /** What one step does to them. */
  function Moved(s: State, step: Step): Shown {
    var now := Show(s.table);
    match step
    case Add(_) => now.(waiting := now.waiting + {s.table.next})
    case TakeOne =>
      var at := OldestWaiting(s.table.rows);
      if at < 0 then now
      else var q := s.table.rows[at].sequence; now.(waiting := now.waiting - {q}, taken := now.taken + {q})
    case DrainerFinishes =>
      if s.drainer.Finishing? then now.(taken := now.taken - {s.drainer.sequence}, done := now.done + {s.drainer.sequence}) else now
    case TaskFinishes(task) => now.(taken := now.taken - {task}, done := now.done + {task})
    case Crash => Shown(now.waiting + now.taken, {}, {})
    case _ => now
  }

  /** Every finish asked for finds its message in hand, so none is refused. */
  lemma FinishesAreInHand(capacity: nat, s: State, step: Step)
    requires MessagesAreOwned(s) && Enabled(capacity, s, step)
    ensures step.DrainerFinishes? ==> s.drainer.sequence in Show(s.table).taken
    ensures step.TaskFinishes? ==> step.task in Show(s.table).taken
  {
    hide InState, Unfinished, OldestWaiting, RecoveredRows, CountHeld;
  }

  lemma StepMoves(capacity: nat, s: State, step: Step)
    requires MessagesAreOwned(s) && Enabled(capacity, s, step)
    ensures Show(Do(capacity, s, step).table) == Moved(s, step)
    ensures Ordered(Do(capacity, s, step).table) && Do(capacity, s, step).table.next >= s.table.next
    ensures step.Add? ==> Do(capacity, s, step).table.next > s.table.next
    ensures step.TakeOne? ==> Do(capacity, s, step).drainer.sequence in Show(s.table).waiting
                              && Do(capacity, s, step).drainer.sequence !in Show(s.table).done + Show(s.table).taken
  {
    hide InState, Unfinished, OldestWaiting, RecoveredRows, CountHeld, HoldingIsRight, DrainerHolds, TasksHold;
    match step
    case Add(message) => InsertShows(s.table, message);
    case TakeOne => TakeShows(s.table, OldestWaiting(s.table.rows));
    case DrainerFinishes =>
      FinishesAreInHand(capacity, s, step);
      FinishShows(s, s.drainer.sequence);
    case TaskFinishes(task) =>
      FinishesAreInHand(capacity, s, step);
      FinishShows(s, task);
    case Crash =>
      RecoveryShows(s.table);
      RecoveryKeepsTheOrder(s.table.rows, s.table.next);
    case _ =>
  }

  /** Whether the step leaves what the tasks answer for as it was. */
  lemma TasksHoldAfter(capacity: nat, s: State, step: Step)
    requires LoopIsOwned(s) && MessagesAreOwned(s) && Enabled(capacity, s, step)
    ensures TasksHold(Do(capacity, s, step))
            == match step
               case HandOver => TasksHold(s) + {s.drainer.sequence}
               case TaskFinishes(task) => TasksHold(s) - {task}
               case Crash => {}
               case _ => TasksHold(s)
    ensures step.TaskFinishes? ==> step.task in TasksHold(s)
  {
    hide InState, Unfinished, OldestWaiting, Inserted, TakenAt, DoneAt, Recovered, CountHeld, OpenTasks, Ordered, DrainerHolds,
         LoopIsOwned, SomeTurnRuns, Members;
    AloneInTheLoop(s);
    OpenTasksAfter(map[], 0, Finished);
    match step
    case Spawn => OpenTasksAfter(s.tasks, s.drainer.finishes, Working);
    case TaskEnds(task, ran) => OpenTasksAfter(s.tasks, task, Ended(ran));
    case TaskFinishes(task) => OpenTasksAfter(s.tasks, task, Finished);
    case TaskFrees(task) => OpenTasksAfter(s.tasks, task, Finished);
    case _ =>
  }

  /** While the drainer has the loop no task is there. */
  lemma AloneInTheLoop(s: State)
    requires LoopIsOwned(s)
    ensures DrainerOwnsTheLoop(s) ==> s.tasks == map[]
  {
  }

  lemma MessagesStayOwned(capacity: nat, s: State, step: Step)
    requires LoopIsOwned(s) && MessagesAreOwned(s) && Enabled(capacity, s, step)
    ensures MessagesAreOwned(Do(capacity, s, step))
  {
    hide InState, Unfinished, OldestWaiting, RecoveredRows, CountHeld, TasksHold, Inserted, TakenAt, DoneAt, Recovered,
         LoopIsOwned, Ordered, SomeTurnRuns, Members;
    StepMoves(capacity, s, step);
    FinishesAreInHand(capacity, s, step);
    TasksHoldAfter(capacity, s, step);
  }

  // ---------------------------------------------------------------- what the loop holds in memory

  /** What was delivered and not yet read, oldest first. */
  function InMemory(s: State): seq<nat> { s.reading + s.delivered }

  predicate NoneTwice(numbers: seq<nat>) {
    forall i, j | 0 <= i < j < |numbers| :: numbers[i] != numbers[j]
  }

  /** What may be done with and still in memory: a message whose row is done, or that
      the drainer has just delivered. */
  function MayBeInMemory(s: State): set<nat> {
    InState(s.table, RowState.Done)
    + (if (s.drainer.Routed? || s.drainer.Finishing?) && s.drainer.outcome.Delivered? then {s.drainer.sequence} else {})
  }

  /** Each delivered message is in memory once; what was dropped is there no more. */
  predicate MemoryIsOnce(s: State) {
    NoneTwice(InMemory(s)) && Members(InMemory(s)) !! s.dropped
    && Members(InMemory(s)) + s.dropped <= MayBeInMemory(s)
  }

  /** What the history says of a message that is out of the drainer's or its task's
      hands. */
  predicate OutcomesAreTrue(s: State) {
    && (s.drainer.Routed? || s.drainer.Finishing? ==>
          match s.drainer.outcome
          case Answered => s.drainer.sequence in s.handled
          case Delivered => s.drainer.sequence in Members(InMemory(s)) + s.handled + s.dropped
          case _ => true)
    && (forall task | task in s.tasks && s.tasks[task] == Ended(true) :: task in s.handled)
    && (forall q | q in s.accepted :: q < s.table.next)
    && InState(s.table, Waiting) + InState(s.table, Taken) + InState(s.table, RowState.Done) <= s.accepted
  }

  lemma MayBeInMemoryGrows(capacity: nat, s: State, step: Step)
    requires MessagesAreOwned(s) && Enabled(capacity, s, step) && !step.Crash?
    ensures MayBeInMemory(s) <= MayBeInMemory(Do(capacity, s, step))
    ensures step.Deliver? ==> s.drainer.sequence in MayBeInMemory(Do(capacity, s, step))
                              && s.drainer.sequence !in MayBeInMemory(s)
  {
    hide InState, Unfinished, OldestWaiting, RecoveredRows, CountHeld, Inserted, TakenAt, DoneAt, Recovered, Ordered,
         TasksHold, SomeTurnRuns, Members;
    StepMoves(capacity, s, step);
  }

  lemma OneMoreOnce(numbers: seq<nat>, q: nat)
    requires NoneTwice(numbers) && q !in numbers
    ensures NoneTwice(numbers + [q]) && Members(numbers + [q]) == Members(numbers) + {q}
  {
  }

  /** The front taken off. */
  lemma RestOnce(numbers: seq<nat>, n: nat)
    requires NoneTwice(numbers) && n <= |numbers|
    ensures NoneTwice(numbers[n..]) && Members(numbers) == Members(numbers[..n]) + Members(numbers[n..])
    ensures Members(numbers[..n]) !! Members(numbers[n..])
  {
    assert numbers == numbers[..n] + numbers[n..];
  }

  lemma MemoryStaysOnce(capacity: nat, s: State, step: Step)
    requires MessagesAreOwned(s) && MemoryIsOnce(s) && Enabled(capacity, s, step)
    ensures MemoryIsOnce(Do(capacity, s, step))
  {
    hide InState, Unfinished, OldestWaiting, RecoveredRows, CountHeld, Inserted, TakenAt, DoneAt, Recovered,
         SomeTurnRuns, InMemory, NoneTwice, MayBeInMemory, MessagesAreOwned, Members;
    MemoryMoves(capacity, s, step);
    NothingInMemory();
    if !step.Crash? {
      MayBeInMemoryGrows(capacity, s, step);
    }
    match step
    case Deliver =>
      NotAMember(InMemory(s), s.drainer.sequence);
      OneMoreOnce(InMemory(s), s.drainer.sequence);
    case ReadOne => RestOnce(InMemory(s), 1);
    case DropTheRest => RestOnce(InMemory(s), |s.reading|);
    case _ =>
  }

  lemma NothingInMemory()
    ensures NoneTwice([]) && Members([]) == {}
  {
  }

  lemma NotAMember(numbers: seq<nat>, q: nat)
    ensures q in numbers <==> q in Members(numbers)
  {
  }

  /** What one step does to the memory. */
  lemma MemoryMoves(capacity: nat, s: State, step: Step)
    requires Enabled(capacity, s, step)
    ensures var now, after := InMemory(s), InMemory(Do(capacity, s, step));
      && after == (match step
                   case Deliver => now + [s.drainer.sequence]
                   case ReadOne => now[1..]
                   case DropTheRest => now[|s.reading|..]
                   case Crash => []
                   case _ => now)
      && (step.ReadOne? ==> now != [] && now[0] == s.reading[0])
      && (step.DropTheRest? ==> |s.reading| <= |now| && now[..|s.reading|] == s.reading)
  {
    hide InState, Unfinished, OldestWaiting, RecoveredRows, CountHeld, Inserted, TakenAt, DoneAt, Recovered, SomeTurnRuns;
  }

  lemma OutcomesStayTrue(capacity: nat, s: State, step: Step)
    requires LoopIsOwned(s) && MessagesAreOwned(s) && MemoryIsOnce(s) && OutcomesAreTrue(s) && Enabled(capacity, s, step)
    ensures OutcomesAreTrue(Do(capacity, s, step))
  {
    hide InState, Unfinished, OldestWaiting, RecoveredRows, CountHeld, Inserted, TakenAt, DoneAt, Recovered, Ordered,
         LoopIsOwned, OpenTasks, SomeTurnRuns, InMemory, NoneTwice, MayBeInMemory, TasksHold, DrainerHolds;
    StepMoves(capacity, s, step);
    FinishesAreInHand(capacity, s, step);
    MemoryMoves(capacity, s, step);
  }

  // ---------------------------------------------------------------- what is lost, and nothing else

  /** Accepted, in no row and in no memory, and nothing ever came of it. */
  predicate Lost(s: State, q: nat) {
    q in s.accepted && q !in InState(s.table, Waiting) && q !in InState(s.table, Taken)
    && q !in s.handled && q !in InMemory(s)
  }

  /** The steps that lose a message nothing came of:
      - its row is marked done after its route failed, or after it was delivered and
        dropped unread by a task that was told to stop;
      - its row is marked done after its task's turn was refused;
      - it is dropped unread, or the program crashes before it is read, when its row is
        done already. */
  predicate Loses(s: State, step: Step, q: nat) {
    q !in s.handled &&
    match step
    case DrainerFinishes =>
      s.drainer.Finishing? && s.drainer.sequence == q
      && (s.drainer.outcome.Failed? || (s.drainer.outcome.Delivered? && q in s.dropped))
    case TaskFinishes(task) => task == q && task in s.tasks && s.tasks[task] == Ended(false)
    case DropTheRest => q in s.reading && q in InState(s.table, RowState.Done)
    case Crash => q in InMemory(s) && q in InState(s.table, RowState.Done)
    case _ => false
  }

  lemma StatesApart(table: Table)
    requires Ordered(table)
    ensures InState(table, Waiting) !! InState(table, RowState.Done) && InState(table, Waiting) !! InState(table, Taken)
  {
  }

  /** The drainer marks a message done: it is lost if nothing came of it and it is not
      in memory. */
  lemma FinishingLoses(capacity: nat, s: State, q: nat)
    requires MessagesAreOwned(s) && MemoryIsOnce(s) && OutcomesAreTrue(s) && Enabled(capacity, s, DrainerFinishes)
    ensures Lost(Do(capacity, s, DrainerFinishes), q) <==> Lost(s, q) || Loses(s, DrainerFinishes, q)
  {
    hide InState, Unfinished, OldestWaiting, RecoveredRows, CountHeld, Inserted, TakenAt, DoneAt, Recovered, Ordered,
         OpenTasks, SomeTurnRuns, InMemory, NoneTwice, Do;
    var after := Do(capacity, s, DrainerFinishes);
    StepMoves(capacity, s, DrainerFinishes);
    FinishesAreInHand(capacity, s, DrainerFinishes);
    MemoryMoves(capacity, s, DrainerFinishes);
    OwnedTablesAreOrdered(s);
    StatesApart(s.table);
    NotAMember(InMemory(s), q);
    FinishingKeepsHistory(capacity, s);
    var finished := s.drainer.sequence;
    assert finished in InState(s.table, Taken) && finished !in InState(s.table, RowState.Done);
    if q == finished {
      match s.drainer.outcome
      case Answered =>
      case Started =>
      case Delivered =>
      case Failed => assert q !in MayBeInMemory(s);
    }
  }

  /** A task marks its message done: it is lost if the turn was refused and nothing came
      of it before. */
  lemma TaskFinishingLoses(capacity: nat, s: State, task: nat, q: nat)
    requires MessagesAreOwned(s) && MemoryIsOnce(s) && OutcomesAreTrue(s) && Enabled(capacity, s, TaskFinishes(task))
    ensures Lost(Do(capacity, s, TaskFinishes(task)), q) <==> Lost(s, q) || Loses(s, TaskFinishes(task), q)
  {
    hide InState, Unfinished, OldestWaiting, RecoveredRows, CountHeld, Inserted, TakenAt, DoneAt, Recovered, Ordered,
         OpenTasks, SomeTurnRuns, InMemory, NoneTwice;
    StepMoves(capacity, s, TaskFinishes(task));
    FinishesAreInHand(capacity, s, TaskFinishes(task));
    MemoryMoves(capacity, s, TaskFinishes(task));
    OwnedTablesAreOrdered(s);
    StatesApart(s.table);
    NotAMember(InMemory(s), q);
    OpenTasksAfter(s.tasks, task, Finished);
    assert task in TasksHold(s) && task !in DrainerHolds(s) && task in InState(s.table, Taken);
    assert task !in MayBeInMemory(s);
    if q == task && s.tasks[task].ran {
      assert s.tasks[task] == Ended(true);
    }
  }

  lemma OwnedTablesAreOrdered(s: State)
    requires MessagesAreOwned(s)
    ensures Ordered(s.table)
  {
  }

  lemma FinishingKeepsHistory(capacity: nat, s: State)
    requires Enabled(capacity, s, DrainerFinishes)
    ensures var after := Do(capacity, s, DrainerFinishes); after.accepted == s.accepted && after.handled == s.handled
  {
    hide Unfinished, DoneAt;
  }

  /** One step loses a message exactly when it is one of those, and what is lost stays
      lost. */
  lemma WhatAStepLoses(capacity: nat, s: State, step: Step, q: nat)
    requires MessagesAreOwned(s) && MemoryIsOnce(s) && OutcomesAreTrue(s) && Enabled(capacity, s, step)
    ensures Lost(Do(capacity, s, step), q) <==> Lost(s, q) || Loses(s, step, q)
  {
    hide InState, Unfinished, OldestWaiting, RecoveredRows, CountHeld, Inserted, TakenAt, DoneAt, Recovered, Ordered,
         OpenTasks, SomeTurnRuns, InMemory, NoneTwice;
    StepMoves(capacity, s, step);
    FinishesAreInHand(capacity, s, step);
    MemoryMoves(capacity, s, step);
    StatesApart(s.table);
    var memory := InMemory(s);
    NotAMember(memory, q);
    match step
    case DropTheRest =>
      RestOnce(memory, |s.reading|);
      NotAMember(memory[|s.reading|..], q);
    case ReadOne =>
      RestOnce(memory, 1);
      NotAMember(memory[1..], q);
      assert memory[..1] == [memory[0]];
    case DrainerFinishes => FinishingLoses(capacity, s, q);
    case TaskEnds(task, _) => OpenTasksAfter(s.tasks, task, Finished);
    case TaskFinishes(task) => TaskFinishingLoses(capacity, s, task, q);
    case _ =>
  }

  /** Marking done is asked for at most once a message in one run, and once asked
      for the message is neither waiting nor in hand. */
  ghost predicate FinishedOnce(s: State) {
    forall q :: s.finishCalls[q] <= 1
                && (q in s.finishCalls ==> q < s.table.next && q !in InState(s.table, Waiting) && q !in InState(s.table, Taken))
  }

  lemma NumbersAreBelowNext(table: Table, state: RowState, q: nat)
    requires Ordered(table) && q in InState(table, state)
    ensures q < table.next
  {
  }

  lemma FinishedStaysOnce(capacity: nat, s: State, step: Step)
    requires LoopIsOwned(s) && MessagesAreOwned(s) && FinishedOnce(s) && Enabled(capacity, s, step)
    ensures FinishedOnce(Do(capacity, s, step))
  {
    hide InState, Unfinished, OldestWaiting, RecoveredRows, CountHeld, Inserted, TakenAt, DoneAt, Recovered, Ordered,
         LoopIsOwned, MessagesAreOwned;
    StepMoves(capacity, s, step);
    FinishesAreInHand(capacity, s, step);
    match step
    case DrainerFinishes => InHandIsElsewhereNot(s, s.drainer.sequence);
    case TaskFinishes(task) => InHandIsElsewhereNot(s, task);
    case _ =>
  }

  lemma InHandIsElsewhereNot(s: State, q: nat)
    requires MessagesAreOwned(s) && q in Show(s.table).taken
    ensures q < s.table.next && q !in Show(s.table).waiting
  {
    NumbersAreBelowNext(s.table, Taken, q);
    var k :| 0 <= k < |s.table.rows| && s.table.rows[k].state.Taken? && s.table.rows[k].sequence == q;
  }

  // ---------------------------------------------------------------- no lost wake-up

  /** A drainer that waits for a nudge is never left asleep over a message, unless it waits
      because its last take failed. */
  predicate NudgedWhenNeeded(s: State) {
    && (s.drainer.Asleep? && !s.takeFailed && InState(s.table, Waiting) != {} ==> s.nudged)
    && (s.takeFailed ==> s.drainer.Asleep?)
  }

  lemma NoneWaits(table: Table)
    ensures OldestWaiting(table.rows) < 0 <==> InState(table, Waiting) == {}
  {
    var at := OldestWaiting(table.rows);
    if at >= 0 {
      assert table.rows[at].sequence in InState(table, Waiting);
    }
  }

  lemma WhatNudges(capacity: nat, s: State, step: Step)
    requires Enabled(capacity, s, step)
    ensures var after := Do(capacity, s, step);
      && after.drainer.Asleep? == (match step
                                   case TakeNone => true
                                   case TakeFails => true
                                   case Wake => false
                                   case Crash => false
                                   case _ => s.drainer.Asleep?)
      && after.nudged == (match step case Add(_) => true case Wake => false case Crash => false case _ => s.nudged)
      && after.takeFailed == (match step case TakeFails => true case Wake => false case Crash => false case _ => s.takeFailed)
      && (step.TakeNone? ==> OldestWaiting(s.table.rows) < 0 && s.drainer.Looking?)
  {
    hide InState, Unfinished, OldestWaiting, RecoveredRows, CountHeld, Inserted, TakenAt, DoneAt, Recovered, SomeTurnRuns, Members;
  }

  lemma NudgeStays(capacity: nat, s: State, step: Step)
    requires LoopIsOwned(s) && MessagesAreOwned(s) && NudgedWhenNeeded(s) && Enabled(capacity, s, step)
    ensures NudgedWhenNeeded(Do(capacity, s, step))
  {
    hide InState, OldestWaiting, Do, Enabled, Ordered, LoopIsOwned, MessagesAreOwned;
    WhatNudges(capacity, s, step);
    StepMoves(capacity, s, step);
    NoneWaits(s.table);
  }

  // ---------------------------------------------------------------- over every run

  ghost predicate Safe(s: State) {
    LoopIsOwned(s) && MessagesAreOwned(s) && MemoryIsOnce(s) && OutcomesAreTrue(s) && FinishedOnce(s) && NudgedWhenNeeded(s)
  }

  lemma StepIsSafe(capacity: nat, s: State, step: Step)
    requires Safe(s) && Enabled(capacity, s, step)
    ensures Safe(Do(capacity, s, step))
  {
    LoopStaysOwned(capacity, s, step);
    MessagesStayOwned(capacity, s, step);
    MemoryStaysOnce(capacity, s, step);
    OutcomesStayTrue(capacity, s, step);
    FinishedStaysOnce(capacity, s, step);
    NudgeStays(capacity, s, step);
  }

  /** Every state of every run is safe. */
  lemma {:induction false} EveryRunIsSafe(capacity: nat, states: seq<State>, steps: seq<Step>, i: nat)
    requires IsRun(capacity, states, steps) && i < |states|
    ensures Safe(states[i])
  {
    hide Do, Enabled, Safe;
    if i == 0 {
      StartIsSafe();
    } else {
      EveryRunIsSafe(capacity, states, steps, i - 1);
      StepIsSafe(capacity, states[i - 1], steps[i - 1]);
      assert states[i - 1 + 1] == Do(capacity, states[i - 1], steps[i - 1]);
    }
  }

  lemma StartIsSafe()
    ensures Safe(START)
  {
    hide LoopIsOwned, MessagesAreOwned, MemoryIsOnce, OutcomesAreTrue, FinishedOnce, NudgedWhenNeeded;
    StartOwnsItsMessages();
    StartFinishedNothing();
    StartLosesNothing();
  }

  lemma StartLosesNothing()
    ensures LoopIsOwned(START) && MemoryIsOnce(START) && OutcomesAreTrue(START) && NudgedWhenNeeded(START)
  {
    hide InState, LoopIsOwned;
    EmptyShowsNothing(START.table, Waiting);
    EmptyShowsNothing(START.table, Taken);
    EmptyShowsNothing(START.table, RowState.Done);
    StartHasNoOwner();
  }

  lemma StartHasNoOwner()
    ensures LoopIsOwned(START)
  {
  }

  lemma StartOwnsItsMessages()
    ensures MessagesAreOwned(START)
  {
    hide InState, OpenTasks;
    OpenTasksAfter(START.tasks, 0, Finished);
    EmptyShowsNothing(START.table, Taken);
    EmptyShowsNothing(START.table, RowState.Done);
  }

  lemma StartFinishedNothing()
    ensures FinishedOnce(START)
  {
    hide InState;
  }

  lemma EmptyShowsNothing(table: Table, state: RowState)
    requires table.rows == []
    ensures InState(table, state) == {}
  {
  }

  lemma {:induction false} NoMoreThan(smaller: set<nat>, larger: set<nat>)
    requires smaller <= larger
    ensures |smaller| <= |larger|
  {
    if smaller != {} {
      var q :| q in smaller;
      NoMoreThan(smaller - {q}, larger - {q});
    }
  }

  lemma AtMostTwoInHand(s: State)
    requires LoopIsOwned(s) && MessagesAreOwned(s)
    ensures |InState(s.table, Taken)| <= 2
  {
    hide InState, Ordered;
    AloneInTheLoop(s);
    NoMoreThan(OpenTasks(s.tasks), s.tasks.Keys);
    assert |s.tasks.Keys| == |s.tasks|;
    assert s.drainer.HandedOver? ==> OpenTasks(s.tasks) == {};
    assert |TasksHold(s)| <= 1;
    assert |DrainerHolds(s)| <= 1;
  }

  /** Some step of the run so far lost the message. */
  ghost predicate LostByNow(states: seq<State>, steps: seq<Step>, i: nat, q: nat)
    requires |states| == |steps| + 1 && i < |states|
  {
    exists k | 0 <= k < i :: Loses(states[k], steps[k], q)
  }

  /** Over every run, a message that was accepted is in no row and in no memory with
      nothing come of it exactly when one of the steps that lose messages lost it. */
  lemma {:induction false} AMessageIsLostExactlyWhen(capacity: nat, states: seq<State>, steps: seq<Step>, i: nat, q: nat)
    requires IsRun(capacity, states, steps) && i < |states|
    ensures Lost(states[i], q) <==> LostByNow(states, steps, i, q)
  {
    hide Do, Enabled, Loses, Lost, Safe;
    if i == 0 {
      NothingIsLostYet(q);
    } else {
      var s, step := states[i - 1], steps[i - 1];
      AMessageIsLostExactlyWhen(capacity, states, steps, i - 1, q);
      EveryRunIsSafe(capacity, states, steps, i - 1);
      assert states[i - 1 + 1] == Do(capacity, s, step);
      SafeStepsLose(capacity, s, step, q);
    }
  }

  lemma NothingIsLostYet(q: nat)
    ensures !Lost(START, q)
  {
  }

  lemma SafeStepsLose(capacity: nat, s: State, step: Step, q: nat)
    requires Safe(s) && Enabled(capacity, s, step)
    ensures Lost(Do(capacity, s, step), q) <==> Lost(s, q) || Loses(s, step, q)
  {
    hide LoopIsOwned, MessagesAreOwned, MemoryIsOnce, OutcomesAreTrue, FinishedOnce, NudgedWhenNeeded, Enabled, Do, Lost, Loses;
    WhatAStepLoses(capacity, s, step, q);
  }

  /** What the agent promises, over every interleaving of adds, takes, routes,
      deliveries, hand-overs, task ends, job runs, clears and crashes:
      - an accepted message is waiting, in hand, or held for the running task to read,
        or something came of it, unless one of the steps that lose messages lost it;
      - a message in hand is answered for by the drainer or by a task, never both,
        and at most two are in hand at once;
      - marking done is asked for at most once a message in a run, and always finds
        the message in hand;
      - the loop is busy exactly while one caller owns it, and was freed as often
        as it was taken but for that one;
      - a drainer that saw the queue empty is nudged whenever a message waits. */
  lemma EveryRunKeepsItsPromises(capacity: nat, states: seq<State>, steps: seq<Step>, i: nat)
    requires IsRun(capacity, states, steps) && i < |states|
    ensures var s := states[i];
      && (forall q | q in s.accepted && !LostByNow(states, steps, i, q) ::
            q in InState(s.table, Waiting) || q in InState(s.table, Taken) || q in InMemory(s) || q in s.handled)
      && (forall q | q in InState(s.table, Taken) :: (q in DrainerHolds(s)) != (q in TasksHold(s)))
      && |InState(s.table, Taken)| <= 2
      && (forall q :: s.finishCalls[q] <= 1)
      && (i < |steps| && steps[i].DrainerFinishes? ==> s.drainer.sequence in InState(s.table, Taken))
      && (i < |steps| && steps[i].TaskFinishes? ==> steps[i].task in InState(s.table, Taken))
      && OwnersOfTheLoop(s) == (if s.busy then 1 else 0) && s.taken == s.freed + OwnersOfTheLoop(s)
      && (s.drainer.Asleep? && !s.takeFailed && InState(s.table, Waiting) != {} ==> s.nudged)
  {
    hide InState, Ordered, DrainerHolds, TasksHold, Do, HoldingIsRight, OldestWaiting, Unfinished, CountHeld, InMemory,
         LostByNow, MemoryIsOnce, OutcomesAreTrue;
    EveryRunIsSafe(capacity, states, steps, i);
    AtMostTwoInHand(states[i]);
    if i < |steps| {
      FinishesAreInHand(capacity, states[i], steps[i]);
    }
    forall q | q in states[i].accepted && !LostByNow(states, steps, i, q)
      ensures q in InState(states[i].table, Waiting) || q in InState(states[i].table, Taken)
           || q in InMemory(states[i]) || q in states[i].handled
    {
      AMessageIsLostExactlyWhen(capacity, states, steps, i, q);
    }
  }

  // ---------------------------------------------------------------- a message that is lost

  /** These steps are possible one after another, and lead from one state to the other. */
  predicate LeadTo(capacity: nat, s: State, steps: seq<Step>, t: State)
    decreases |steps|
  {
    if steps == [] then s == t
    else Enabled(capacity, s, steps[0]) && LeadTo(capacity, Do(capacity, s, steps[0]), steps[1..], t)
  }

  lemma {:induction false} LeadOn(capacity: nat, s: State, a: seq<Step>, t: State, b: seq<Step>, u: State)
    requires LeadTo(capacity, s, a, t) && LeadTo(capacity, t, b, u)
    ensures LeadTo(capacity, s, a + b, u)
    decreases |a|
  {
    hide Do, Enabled;
    if a == [] {
      assert a + b == b;
    } else {
      assert (a + b)[0] == a[0] && (a + b)[1..] == a[1..] + b;
      LeadOn(capacity, Do(capacity, s, a[0]), a[1..], t, b, u);
    }
  }

  lemma {:induction false} StatesOnTheWay(capacity: nat, s: State, steps: seq<Step>, t: State) returns (states: seq<State>)
    requires LeadTo(capacity, s, steps, t)
    ensures |states| == |steps| + 1 && states[0] == s && states[|steps|] == t
    ensures forall i | 0 <= i < |steps| ::
      Enabled(capacity, states[i], steps[i]) && states[i + 1] == Do(capacity, states[i], steps[i])
    decreases |steps|
  {
    hide Do, Enabled;
    if steps == [] {
      states := [s];
    } else {
      var rest := StatesOnTheWay(capacity, Do(capacity, s, steps[0]), steps[1..], t);
      states := [s] + rest;
      forall i | 0 <= i < |steps|
        ensures Enabled(capacity, states[i], steps[i]) && states[i + 1] == Do(capacity, states[i], steps[i])
      {
        if i > 0 {
          assert steps[i] == steps[1..][i - 1];
        }
      }
    }
  }

  const STARTING := [Hold, StartTakesTheLoop, HandOver, Spawn, AskWhetherStillHolding]
  const STEERING := [Hold, FindsTheLoopHeld, Deliver, AskWhetherStillHolding]

  lemma LeadsInOne(capacity: nat, s: State, step: Step, t: State)
    requires Enabled(capacity, s, step) && t == Do(capacity, s, step)
    ensures LeadTo(capacity, s, [step], t)
  {
    hide Do, Enabled;
    assert [step][1..] == [];
  }

  lemma LeadsInTwo(capacity: nat, s: State, a: Step, t: State, b: Step, u: State)
    requires Enabled(capacity, s, a) && t == Do(capacity, s, a) && Enabled(capacity, t, b) && u == Do(capacity, t, b)
    ensures LeadTo(capacity, s, [a, b], u)
  {
    hide Do, Enabled;
    assert [a, b][1..] == [b];
    LeadsInOne(capacity, t, b, u);
  }

  lemma TheLoopIsTaken(capacity: nat, s: State, q: nat)
    requires s.drainer == Took(q) && !s.busy
    ensures LeadTo(capacity, s, [Hold, StartTakesTheLoop],
      s.(busy := true, taken := s.taken + 1, holding := q, handedOver := false, drainer := HasLoop(q)))
  {
    hide LeadTo;
    var held := s.(holding := q, handedOver := false, drainer := Routing(q));
    LeadsInTwo(capacity, s, Hold, held, StartTakesTheLoop,
               held.(busy := true, taken := s.taken + 1, drainer := HasLoop(q)));
  }

  lemma TheTaskIsSpawned(capacity: nat, s: State, q: nat)
    requires s.drainer == HasLoop(q) && s.holding == q
    ensures LeadTo(capacity, s, [HandOver, Spawn],
      s.(handedOver := true, tasks := s.tasks[q := Working], drainer := Routed(q, Started)))
  {
    hide LeadTo;
    var over := s.(handedOver := true, drainer := HandedOver(q, q));
    LeadsInTwo(capacity, s, HandOver, over, Spawn, over.(tasks := s.tasks[q := Working], drainer := Routed(q, Started)));
  }

  /** From a message taken with the loop free to a task at work on it. */
  lemma ATaskStarts(capacity: nat, s: State, q: nat)
    requires s.drainer == Took(q) && !s.busy
    ensures LeadTo(capacity, s, STARTING,
      s.(busy := true, taken := s.taken + 1, holding := q, handedOver := true, tasks := s.tasks[q := Working],
         passed := s.passed + 1, drainer := Looking))
  {
    hide InState, Unfinished, OldestWaiting, RecoveredRows, CountHeld, Inserted, TakenAt, DoneAt, Recovered, Members, LeadTo,
         SomeTurnRuns, Finish;
    var has := s.(busy := true, taken := s.taken + 1, holding := q, handedOver := false, drainer := HasLoop(q));
    var spawned := has.(handedOver := true, tasks := s.tasks[q := Working], drainer := Routed(q, Started));
    var last := spawned.(drainer := Looking, passed := s.passed + 1);
    TheLoopIsTaken(capacity, s, q);
    TheTaskIsSpawned(capacity, has, q);
    LeadsInOne(capacity, spawned, AskWhetherStillHolding, last);
    LeadOn(capacity, s, [Hold, StartTakesTheLoop], has, [HandOver, Spawn], spawned);
    LeadOn(capacity, s, [Hold, StartTakesTheLoop] + [HandOver, Spawn], spawned, [AskWhetherStillHolding], last);
    assert [Hold, StartTakesTheLoop] + [HandOver, Spawn] + [AskWhetherStillHolding] == STARTING;
  }

  /** From a message taken with the loop held to its being put in the loop's memory. */
  lemma ASteerIsDelivered(capacity: nat, s: State, q: nat)
    requires s.drainer == Took(q) && s.busy && |s.delivered| < capacity
    ensures LeadTo(capacity, s, STEERING,
      s.(holding := q, handedOver := false, delivered := s.delivered + [q], drainer := Finishing(q, Delivered)))
  {
    hide InState, Unfinished, OldestWaiting, RecoveredRows, CountHeld, Inserted, TakenAt, DoneAt, Recovered, Members, LeadTo,
         SomeTurnRuns, Finish;
    var held := s.(holding := q, handedOver := false, drainer := Routing(q));
    var found := held.(drainer := Delivering(q));
    var put := found.(delivered := s.delivered + [q], drainer := Routed(q, Delivered));
    var last := put.(drainer := Finishing(q, Delivered));
    LeadsInTwo(capacity, s, Hold, held, FindsTheLoopHeld, found);
    LeadsInTwo(capacity, found, Deliver, put, AskWhetherStillHolding, last);
    LeadOn(capacity, s, [Hold, FindsTheLoopHeld], found, [Deliver, AskWhetherStillHolding], last);
    assert [Hold, FindsTheLoopHeld] + [Deliver, AskWhetherStillHolding] == STEERING;
  }

  /** A task at work on the first message. */
  function AtWork(message: Inbound): State {
    State(Table([Row(1, message, Taken, 1)], 2), true, 1, true, true, 1, Looking, map[1 := Working], Resting,
          [], [], {1}, {}, {}, multiset{}, 1, 0, false)
  }

  /** A second message delivered to it, and marked done. */
  function Steered(message: Inbound, steer: Inbound): State {
    State(Table([Row(1, message, Taken, 1), Row(2, steer, RowState.Done, 1)], 3), true, 2, false, true, 2, Looking,
          map[1 := Working], Resting, [2], [], {1, 2}, {}, {}, multiset{2}, 1, 0, false)
  }

  lemma TheFirstIsAtWork(capacity: nat, message: Inbound)
    requires capacity >= 2
    ensures LeadTo(capacity, START, [Add(message), TakeOne] + STARTING, AtWork(message))
  {
    var added := Do(capacity, START, Add(message));
    assert added.table == Table([Row(1, message, Waiting, 0)], 2);
    var taken := Do(capacity, added, TakeOne);
    assert taken.table == Table([Row(1, message, Taken, 1)], 2) && taken.drainer == Took(1);
    LeadsInTwo(capacity, START, Add(message), added, TakeOne, taken);
    ATaskStarts(capacity, taken, 1);
    assert map[][1 := Working] == map[1 := Working] && {} + {1} == {1};
    LeadOn(capacity, START, [Add(message), TakeOne], taken, STARTING, AtWork(message));
  }

  lemma TheSecondIsTaken(capacity: nat, message: Inbound, steer: Inbound) returns (taken: State)
    requires capacity >= 2
    ensures LeadTo(capacity, AtWork(message), [Add(steer), TakeOne], taken)
    ensures taken == AtWork(message).(table := Table([Row(1, message, Taken, 1), Row(2, steer, Taken, 1)], 3),
                                      drainer := Took(2), accepted := {1, 2})
  {
    var s, first := AtWork(message), Row(1, message, Taken, 1);
    assert s.table.rows[1..] == [];
    var added := Do(capacity, s, Add(steer));
    assert added.table == Table([first, Row(2, steer, Waiting, 0)], 3) && added.table.rows[1..] == [Row(2, steer, Waiting, 0)];
    assert OldestWaiting(added.table.rows) == 1;
    taken := Do(capacity, added, TakeOne);
    LeadsInTwo(capacity, s, Add(steer), added, TakeOne, taken);
    assert {1} + {2} == {1, 2};
  }

  lemma TheSecondIsSteered(capacity: nat, message: Inbound, steer: Inbound)
    requires capacity >= 2
    ensures LeadTo(capacity, AtWork(message), [Add(steer), TakeOne] + STEERING + [DrainerFinishes], Steered(message, steer))
  {
    var s, first := AtWork(message), Row(1, message, Taken, 1);
    var taken := TheSecondIsTaken(capacity, message, steer);
    var put := taken.(holding := 2, handedOver := false, delivered := [2], drainer := Finishing(2, Delivered));
    ASteerIsDelivered(capacity, taken, 2);
    assert [] + [2] == [2];
    LeadOn(capacity, s, [Add(steer), TakeOne], taken, STEERING, put);
    assert put.table.rows[1..] == [Row(2, steer, Taken, 1)];
    assert Unfinished(put.table.rows, 2) == 1;
    assert put.table.rows[1 := Row(2, steer, RowState.Done, 1)] == [first, Row(2, steer, RowState.Done, 1)];
    assert multiset{} + multiset{2} == multiset{2};
    LeadsInOne(capacity, put, DrainerFinishes, Steered(message, steer));
    LeadOn(capacity, s, [Add(steer), TakeOne] + STEERING, put, [DrainerFinishes], Steered(message, steer));
  }

  /** A person steers a task at work, and the program crashes before the task reads the
      words: they are nowhere, although the message was accepted and marked done. */
  lemma ASteerIsLostInACrash(capacity: nat, message: Inbound, steer: Inbound)
      returns (states: seq<State>, steps: seq<Step>)
    requires capacity >= 2
    ensures steps == [Add(message), TakeOne] + STARTING + ([Add(steer), TakeOne] + STEERING + [DrainerFinishes]) + [Crash]
    ensures IsRun(capacity, states, steps) && Lost(states[|steps|], 2) && LostByNow(states, steps, |steps|, 2)
    ensures states[|steps|].handled == {} && InState(states[|steps|].table, Waiting) == {1}
  {
    hide Do, Enabled, LeadTo, Lost, InState;
    var before, after := AtWork(message), Steered(message, steer);
    TheFirstIsAtWork(capacity, message);
    TheSecondIsSteered(capacity, message, steer);
    AfterTheCrash(capacity, message, steer);
    var crashed := Do(capacity, after, Crash);
    LeadsInOne(capacity, after, Crash, crashed);
    var starting, steering := [Add(message), TakeOne] + STARTING, [Add(steer), TakeOne] + STEERING + [DrainerFinishes];
    LeadOn(capacity, START, starting, before, steering, after);
    LeadOn(capacity, START, starting + steering, after, [Crash], crashed);
    steps := starting + steering + [Crash];
    states := StatesOnTheWay(capacity, START, steps, crashed);
    AMessageIsLostExactlyWhen(capacity, states, steps, |steps|, 2);
  }

  lemma AfterTheCrash(capacity: nat, message: Inbound, steer: Inbound)
    ensures Enabled(capacity, Steered(message, steer), Crash)
    ensures var crashed := Do(capacity, Steered(message, steer), Crash);
      && Lost(crashed, 2) && crashed.handled == {} && InState(crashed.table, Waiting) == {1}
  {
    var table := Steered(message, steer).table;
    assert table.rows[1..] == [Row(2, steer, RowState.Done, 1)] && table.rows[1..][1..] == [];
    assert RecoveredRows(table.rows[1..]) == [];
    assert RecoveredRows(table.rows) == [Row(1, message, Waiting, 1)];
    var rows := Recovered(table).rows;
    assert rows[0].sequence == 1;
  }

  // ---------------------------------------------------------------- the fields under the lock

  /** The three fields the drainer, the tasks, the job driver and `/clear` share.
      Each method is one critical section, and does to the fields what its step
      does to the machine. */
  class Agent {
    var busy: bool
    var holding: nat
    var handedOver: bool

    predicate Matches(s: State)
      reads this
    {
      busy == s.busy && holding == s.holding && handedOver == s.handedOver
    }

    constructor ()
      ensures Matches(START)
    {
      busy, holding, handedOver := false, 0, false;
    }

    method TakeTheLoop(ghost s: State) returns (taken: bool)
      requires Matches(s)
      modifies this
      ensures taken <==> !old(busy)
      ensures Matches(if taken then TakeLoop(s) else s)
    {
      if busy {
        return false;
      }
      busy := true;
      return true;
    }

    method FreeTheLoop(ghost s: State)
      requires Matches(s)
      modifies this
      ensures Matches(FreeLoop(s))
    {
      busy := false;
    }

    method HoldTheMessage(sequence: nat, ghost capacity: nat, ghost s: State)
      requires Matches(s) && s.drainer == Took(sequence)
      modifies this
      ensures Matches(Do(capacity, s, Hold))
    {
      holding := sequence;
      handedOver := false;
    }

    /** The number of the message the new task finishes when it ends. */
    method TookTheMessage(ghost capacity: nat, ghost s: State) returns (finishes: nat)
      requires Matches(s) && s.drainer.HasLoop?
      modifies this
      ensures Matches(Do(capacity, s, HandOver)) && Do(capacity, s, HandOver).drainer.finishes == finishes
      ensures HoldingIsRight(s) ==> finishes == s.drainer.sequence
    {
      finishes := holding;
      handedOver := true;
    }

    method StillHolding(ghost capacity: nat, ghost s: State) returns (still: bool)
      requires Matches(s) && s.drainer.Routed?
      ensures still <==> Do(capacity, s, AskWhetherStillHolding).drainer.Finishing?
    {
      return !handedOver;
    }
  }

  /** The loop's own memory of messages that came while a task was running. */
  class Loop {
    var queued: seq<nat>
    const capacity: nat

    predicate Holds(s: State)
      reads this
    {
      queued == s.delivered
    }

    constructor (capacity: nat)
      ensures Holds(START) && this.capacity == capacity
    {
      queued, this.capacity := [], capacity;
    }

    /** The router's call for a message that found the loop held. */
    method DeliverTo(sequence: nat, ghost s: State) returns (delivered: bool)
      requires Holds(s) && s.drainer == Delivering(sequence)
      modifies this
      ensures delivered <==> Enabled(capacity, s, Deliver)
      ensures Holds(Do(capacity, s, if delivered then Deliver else RouteFails))
    {
      if |queued| >= capacity {
        return false;
      }
      queued := queued + [sequence];
      return true;
    }

    /** The running task's call, at the end of its tool calls or of its reply. */
    method TakeThemAll(ghost s: State) returns (waiting: seq<nat>)
      requires Holds(s) && Enabled(capacity, s, TakeDelivered)
      modifies this
      ensures Holds(Do(capacity, s, TakeDelivered)) && waiting == Do(capacity, s, TakeDelivered).reading
    {
      waiting := queued;
      queued := [];
    }
  }
}
