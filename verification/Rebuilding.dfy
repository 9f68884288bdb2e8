/** The rebuild a start runs: it reads the checkpoints into a map, goes over the map in
    whatever order it gives, marks the tasks it finds running, and remembers. */
module Rebuilding {
  import opened Text
  import opened Resuming
  import opened Sorting

  // ---------------------------------------------------------------- reading the checkpoints

  lemma UnderOneMore(log: seq<Event>, i: nat, n: nat)
    requires i < |log|
    ensures Under(log[..i + 1], n) == Under(log[..i], n) + (if IsUnder(log[i], n) then [log[i]] else [])
  {
    assert log[..i + 1][..i] == log[..i];
  }

  lemma NewestOfOneMore(events: seq<Event>, event: Event)
    ensures Newest(events + [event]) ==
      if event.Checkpoint? && (Newest(events).None? || event.number >= Newest(events).value.number)
      then Some(event) else Newest(events)
  {
    assert (events + [event])[..|events|] == events;
  }

  ghost predicate HoldsTheNewest(newest: map<nat, Event>, log: seq<Event>) {
    forall n: nat :: n in newest.Keys <==> n > 0 && Newest(Under(log, n)).Some?
  }

  ghost predicate EachIsNewest(newest: map<nat, Event>, log: seq<Event>) {
    forall n | n in newest :: Newest(Under(log, n)) == Some(newest[n])
  }

  method NewestCheckpoints(log: seq<Event>) returns (newest: map<nat, Event>)
    ensures HoldsTheNewest(newest, log) && EachIsNewest(newest, log)
  {
    newest := map[];
    assert Under([], 0) == [];
    for i := 0 to |log|
      invariant HoldsTheNewest(newest, log[..i]) && EachIsNewest(newest, log[..i])
    {
      hide Newest, Under;
      var event := log[i];
      ghost var before := newest;
      if event.Checkpoint? && event.task > 0 {
        if event.task !in newest || event.number >= newest[event.task].number {
          newest := newest[event.task := event];
        }
      }
      forall n: nat ensures n in newest.Keys <==> n > 0 && Newest(Under(log[..i + 1], n)).Some?
      {
        NewestNow(log, i, n);
      }
      forall n | n in newest ensures Newest(Under(log[..i + 1], n)) == Some(newest[n]) {
        NewestNow(log, i, n);
      }
    }
    assert log[..|log|] == log;
  }

  lemma NewestNow(log: seq<Event>, i: nat, n: nat)
    requires i < |log|
    ensures var before := Newest(Under(log[..i], n)); var event := log[i];
      Newest(Under(log[..i + 1], n)) ==
        if event.Checkpoint? && event.task == n && (before.None? || event.number >= before.value.number)
        then Some(event) else before
  {
    hide Newest, Under;
    UnderOneMore(log, i, n);
    if IsUnder(log[i], n) {
      NewestOfOneMore(Under(log[..i], n), log[i]);
    } else {
      assert Under(log[..i], n) + [] == Under(log[..i], n);
    }
  }

  // ---------------------------------------------------------------- marking and remembering

  /** The event log. `failing` are the tasks whose mark cannot be written. */
  class Store {
    var log: seq<Event>
    const failing: set<nat>

    constructor (log: seq<Event>, failing: set<nat>)
      ensures this.log == log && this.failing == failing
    {
      this.log, this.failing := log, failing;
    }

    method MarkInterrupted(task: nat)
      modifies this
      ensures log == old(log) + Marks(task, Under(old(log), task), task in failing)
    {
      var events := Under(log, task);
      if !Loads(events) {
        return;
      }
      if task !in failing {
        log := log + [Checkpoint(task, LastCheckpoint(events).value.number + 1, Some(Stopped))];
      }
    }

    /** One task of the map: found running, it is marked, and comes back stopped. */
    method PickUp(n: nat, newest: Event) returns (task: Option<NumberedTask>)
      requires n > 0 && Newest(Under(log, n)) == Some(newest)
      modifies this
      ensures task == Stands(old(log), n)
      ensures forall m: nat :: Under(log, m) == if m == n then UnderAfter(old(log), n, failing) else Under(old(log), m)
    {
      hide Newest, Under;
      ghost var was := log;
      task := Pickup(n, Some(newest));
      assert task == Stands(was, n);
      if task.Some? && task.value.interrupted {
        MarkInterrupted(n);
        MarkedUnder(was, n, Marks(n, Under(was, n), n in failing));
      } else {
        NothingToMark(was, n, failing);
      }
    }

    /** Whatever order the map gives its keys in, the tasks come back in theirs, and
        each task found running is marked under its own number. */
    method TasksToPickUp() returns (found: seq<NumberedTask>)
      modifies this
      ensures found == Standing(old(log))
      ensures LeftBehind(old(log), log, failing)
    {
      hide Stands, StandingUpTo, Newest, Under, MarksLeft, HighestTask;
      ghost var was := log;
      var newest := NewestCheckpoints(log);
      found := [];
      var todo := newest.Keys;
      NoneElsewhere(was, newest, failing);
      while todo != {}
        invariant todo <= newest.Keys
        invariant KeysDiffer(found, NumberOf)
        invariant forall t | t in found :: t.number in newest.Keys - todo && Stands(was, t.number) == Some(t)
        invariant forall n | n in newest.Keys - todo && Stands(was, n).Some? :: Stands(was, n).value in found
        invariant forall n: nat :: Under(log, n) == if n in todo then Under(was, n) else UnderAfter(was, n, failing)
        decreases todo
      {
        var n :| n in todo;
        SameUnder(log, was, n, failing);
        StandsUnderItsNumber(was, n);
        var task := PickUp(n, newest[n]);
        todo := todo - {n};
        if task.Some? {
          found := found + [task.value];
        }
      }
      FoundIsStanding(was, found);
      found := Sort(found, ByKey(NumberOf));
    }

    /** Each task is remembered for the screen its ask came from, oldest first. */
    method RememberEach(standing: seq<NumberedTask>, tasks: ScreenTasks, ghost was: seq<Event>)
        returns (wasInterrupted: set<nat>)
      requires LeftBehind(was, log, failing) && tasks.Contents() == EMPTY
      requires forall t | t in standing :: t.number > 0
      modifies tasks`newest, tasks`spokenLast
      ensures tasks.Contents() == RememberAll(was, standing) && wasInterrupted == InterruptedOf(standing)
    {
      hide Under, ScreenOf, Remembered, LeftBehind;
      wasInterrupted := {};
      for i := 0 to |standing|
        invariant tasks.Contents() == RememberAll(was, standing[..i])
        invariant wasInterrupted == InterruptedOf(standing[..i])
      {
        var task := standing[i];
        assert standing[..i + 1][..i] == standing[..i];
        if task.interrupted {
          wasInterrupted := wasInterrupted + {task.number};
        }
        ScreenIsTheSame(was, log, task.number, failing);
        var screen := ScreenOf(Under(log, task.number));
        if screen.Some? {
          tasks.Remember(screen.value, Ended(Some(task.number), task.status));
        }
      }
      assert standing[..|standing|] == standing;
    }

    /** A start's memory of every screen, and the interrupted tasks it names. */
    method RememberedFromTheLog() returns (tasks: ScreenTasks)
      modifies this
      ensures fresh(tasks) && tasks.Contents() == Rebuilt(old(log)) && tasks.interrupted == InterruptedIn(old(log))
      ensures LeftBehind(old(log), log, failing)
    {
      hide Standing, Under, ScreenOf, RememberAll, LeftBehind, InterruptedAmong, InterruptedOf;
      ghost var was := log;
      tasks := new ScreenTasks();
      var standing := TasksToPickUp();
      LookedAtRises(was);
      if |standing| > MAX_TASKS_LOOKED_BACK_AT {
        standing := standing[|standing| - MAX_TASKS_LOOKED_BACK_AT..];
      }
      assert standing == LookedAt(was);
      var wasInterrupted := RememberEach(standing, tasks, was);
      HeldForItsScreen(was, standing);
      var named := tasks.InterruptedNewest(wasInterrupted);
      NamedOnce(was, tasks.Contents(), wasInterrupted, named);
      NamedInOrder(was, standing, named);
      tasks.interrupted := named;
    }
  }

  function InterruptedOf(tasks: seq<NumberedTask>): set<nat> {
    if tasks == [] then {}
    else
      var last := tasks[|tasks| - 1];
      InterruptedOf(tasks[..|tasks| - 1]) + if last.interrupted then {last.number} else {}
  }

  function NumberOf(task: NumberedTask): nat { task.number }

  function UnderAfter(log: seq<Event>, n: nat, failing: set<nat>): seq<Event> {
    Under(log, n) + MarksLeft(log, n, n in failing)
  }

  lemma MarkedUnder(log: seq<Event>, n: nat, more: seq<Event>)
    requires |more| <= 1 && forall e | e in more :: IsUnder(e, n)
    ensures forall m: nat :: Under(log + more, m) == Under(log, m) + (if m == n then more else [])
  {
    forall m: nat ensures Under(log + more, m) == Under(log, m) + (if m == n then more else []) {
      if more == [] {
        assert log + more == log && Under(log, m) + [] == Under(log, m);
      } else {
        assert (log + more)[..|log|] == log && more == [more[0]] && more[0] in more;
      }
    }
  }

  lemma NothingToMark(log: seq<Event>, n: nat, failing: set<nat>)
    requires n == 0 || Stands(log, n).None? || !Stands(log, n).value.interrupted
    ensures UnderAfter(log, n, failing) == Under(log, n)
  {
  }

  lemma NoneElsewhere(log: seq<Event>, newest: map<nat, Event>, failing: set<nat>)
    requires HoldsTheNewest(newest, log)
    ensures forall n: nat :: n !in newest.Keys ==> (n == 0 || Stands(log, n).None?) && UnderAfter(log, n, failing) == Under(log, n)
  {
    hide Newest, Under, MarksLeft, UnderAfter;
    forall n: nat | n !in newest.Keys
      ensures (n == 0 || Stands(log, n).None?) && UnderAfter(log, n, failing) == Under(log, n)
    {
      NothingToMark(log, n, failing);
    }
  }

  lemma SameUnder(a: seq<Event>, b: seq<Event>, n: nat, failing: set<nat>)
    requires Under(a, n) == Under(b, n)
    ensures Stands(a, n) == Stands(b, n) && UnderAfter(a, n, failing) == UnderAfter(b, n, failing)
    ensures Newest(Under(a, n)) == Newest(Under(b, n))
  {
    hide Under, Newest, Marks;
  }

  lemma FoundIsStanding(log: seq<Event>, found: seq<NumberedTask>)
    requires KeysDiffer(found, NumberOf)
    requires forall t | t in found :: t.number > 0 && Stands(log, t.number) == Some(t)
    requires forall n: nat | n > 0 && Stands(log, n).Some? :: Stands(log, n).value in found
    ensures Sort(found, ByKey(NumberOf)) == Standing(log)
  {
    hide Stands, StandingUpTo, HighestTask, Under, Sort;
    var top := HighestTask(log);
    StandingRises(log, top);
    SortIncreases(found, NumberOf);
    forall t ensures t in found <==> t in Standing(log) {
      if t in found {
        NoneStandsAbove(log, top, t.number);
      }
    }
    OneIncreasingOrder(Sort(found, ByKey(NumberOf)), Standing(log), NumberOf);
  }

  // ---------------------------------------------------------------- naming the interrupted

  lemma LookedAtRises(log: seq<Event>)
    ensures Rising(LookedAt(log)) && |LookedAt(log)| <= MAX_TASKS_LOOKED_BACK_AT
    ensures forall t | t in LookedAt(log) :: t.number > 0
  {
    hide StandingUpTo, HighestTask, Under, Stands;
    StandingRises(log, HighestTask(log));
    assert forall t | t in LookedAt(log) :: t in Standing(log);
  }

  lemma ScreenIsTheSame(log: seq<Event>, after: seq<Event>, n: nat, failing: set<nat>)
    requires n > 0 && LeftBehind(log, after, failing)
    ensures ScreenOf(Under(after, n)) == ScreenOf(Under(log, n))
  {
    TheMarkDecides(log, after, n, n in failing);
  }

  /** In a rebuilt memory each task is held for the screen it came from, so no two
      screens hold one task. */
  lemma HeldForItsScreen(log: seq<Event>, tasks: seq<NumberedTask>)
    requires |tasks| <= MAX_SCREENS
    ensures EachForItsScreen(log, RememberAll(log, tasks))
  {
    hide ScreenOf, Under, RememberAll;
    var m := RememberAll(log, tasks);
    forall screen | screen in m.newest
      ensures m.newest[screen].task.Some? && ScreenOf(Under(log, m.newest[screen].task.value)) == Some(screen)
    {
      RememberedIsTheLast(log, tasks, screen);
    }
  }

  predicate IsHeld(m: Memory, n: nat) {
    exists screen | screen in m.newest :: m.newest[screen].task == Some(n)
  }

  ghost predicate EachForItsScreen(log: seq<Event>, m: Memory) {
    forall screen | screen in m.newest ::
      m.newest[screen].task.Some? && ScreenOf(Under(log, m.newest[screen].task.value)) == Some(screen)
  }

  lemma {:induction false} NamesAre(log: seq<Event>, m: Memory, tasks: seq<NumberedTask>, n: nat)
    requires EachForItsScreen(log, m)
    ensures n in InterruptedAmong(log, m, tasks) <==> n in InterruptedOf(tasks) && IsHeld(m, n)
  {
    hide ScreenOf, Under;
    if tasks != [] {
      NamesAre(log, m, tasks[..|tasks| - 1], n);
      NamedWhenHeld(log, m, tasks[|tasks| - 1]);
    }
  }

  lemma NamedWhenHeld(log: seq<Event>, m: Memory, task: NumberedTask)
    requires EachForItsScreen(log, m)
    ensures IsNamed(log, m, task) <==> task.interrupted && IsHeld(m, task.number)
  {
    hide ScreenOf, Under;
  }

  lemma {:induction false} InterruptedAreBelow(tasks: seq<NumberedTask>, n: nat)
    requires Rising(tasks) && n in InterruptedOf(tasks)
    ensures tasks != [] && n <= tasks[|tasks| - 1].number
  {
    if n in InterruptedOf(tasks[..|tasks| - 1]) {
      InterruptedAreBelow(tasks[..|tasks| - 1], n);
    }
  }

  lemma {:induction false} NamesIncrease(log: seq<Event>, m: Memory, tasks: seq<NumberedTask>)
    requires Rising(tasks) && EachForItsScreen(log, m)
    ensures Increasing(InterruptedAmong(log, m, tasks), Itself)
  {
    hide IsNamed, EachForItsScreen, IsHeld;
    if tasks != [] {
      var front, last := tasks[..|tasks| - 1], tasks[|tasks| - 1];
      NamesIncrease(log, m, front);
      var among := InterruptedAmong(log, m, front);
      forall k | 0 <= k < |among| ensures among[k] < last.number {
        NamesAre(log, m, front, among[k]);
        InterruptedAreBelow(front, among[k]);
      }
    }
  }

  /** No two screens hold one task, so each is named once. */
  lemma NamedOnce(log: seq<Event>, m: Memory, was: set<nat>, named: seq<nat>)
    requires EachForItsScreen(log, m) && InOrder(named, ByKey(Itself))
    requires forall n: nat :: multiset(named)[n] == if n in was then |ScreensWith(m.newest, n)| else 0
    ensures Increasing(named, Itself) && forall n: nat :: (n in named <==> n in was && IsHeld(m, n))
  {
    hide ScreenOf, Under;
    forall n: nat ensures |ScreensWith(m.newest, n)| == if IsHeld(m, n) then 1 else 0 {
      if IsHeld(m, n) {
        var screen :| screen in m.newest && m.newest[screen].task == Some(n);
        assert ScreensWith(m.newest, n) == {screen};
      } else {
        assert ScreensWith(m.newest, n) == {};
      }
    }
    OnceEachIncreases(named);
    forall n: nat ensures n in named <==> n in was && IsHeld(m, n) {
      assert n in named <==> n in multiset(named);
    }
  }

  lemma NamedInOrder(log: seq<Event>, tasks: seq<NumberedTask>, named: seq<nat>)
    requires Rising(tasks) && |tasks| <= MAX_SCREENS && Increasing(named, Itself)
    requires forall n :: (n in named <==> n in InterruptedOf(tasks) && IsHeld(RememberAll(log, tasks), n))
    ensures named == InterruptedAmong(log, RememberAll(log, tasks), tasks)
  {
    hide RememberAll, InterruptedAmong, IsHeld, InterruptedOf, EachForItsScreen;
    var m := RememberAll(log, tasks);
    HeldForItsScreen(log, tasks);
    NamesIncrease(log, m, tasks);
    forall n ensures n in named <==> n in InterruptedAmong(log, m, tasks) {
      NamesAre(log, m, tasks, n);
    }
    OneIncreasingOrder(named, InterruptedAmong(log, m, tasks), Itself);
  }
}
