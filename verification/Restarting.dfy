/** What a start carries on, told from the log alone: from which checkpoint is a task's
    newest, what status it has, and which screen first asked. */
module Restarting {
  import opened Text
  import opened Wire
  import opened Resuming

  // ---------------------------------------------------------------- read off the log

  predicate IsCheckpointOf(event: Event, task: nat) { event.Checkpoint? && event.task == task }

  /** The checkpoint at this place is the task's newest: none has a higher number, and
      none with the same number comes after it. */
  predicate IsItsNewest(log: seq<Event>, task: nat, at: nat) {
    && at < |log| && IsCheckpointOf(log[at], task)
    && forall k | 0 <= k < |log| && IsCheckpointOf(log[k], task) ::
         log[k].number < log[at].number || (log[k].number == log[at].number && k <= at)
  }

  /** Its newest checkpoint reads as a record that is running, waiting, stopped or
      failed. */
  predicate CanBePickedUp(log: seq<Event>, task: nat) {
    exists at | 0 <= at < |log| ::
      IsItsNewest(log, task, at) && log[at].status in {Some(Running), Some(Waiting), Some(Stopped), Some(Failed)}
  }

  /** What a start makes of it: a running one was cut off and is stopped, any other is as
      it was. */
  function AsFound(task: nat, status: Status): NumberedTask {
    if status == Running then NumberedTask(task, Stopped, true) else NumberedTask(task, status, false)
  }

  predicate NamesAScreen(event: Event, task: nat) { event.Ask? && event.task == task && event.channel != "" }

  /** The first ask under its number that names a channel came from this screen. */
  predicate CameFrom(log: seq<Event>, task: nat, screen: string) {
    exists at | 0 <= at < |log| ::
      && NamesAScreen(log[at], task) && log[at].channel + ":" + log[at].sender == screen
      && forall k | 0 <= k < at :: !NamesAScreen(log[k], task)
  }

  /** The tasks with higher numbers that can be picked up. */
  function Newer(log: seq<Event>, task: nat): set<nat> {
    set k | 0 <= k < |log| && log[k].Checkpoint? && log[k].task > task && CanBePickedUp(log, log[k].task) :: log[k].task
  }

  // ---------------------------------------------------------------- the newest checkpoint

  lemma {:induction false} NewestIsFoundThere(log: seq<Event>, task: nat)
    ensures var newest := Newest(Under(log, task));
      if newest.None? then forall k | 0 <= k < |log| :: !IsCheckpointOf(log[k], task)
      else exists at | 0 <= at < |log| :: IsItsNewest(log, task, at) && log[at] == newest.value
  {
    if log != [] {
      var front, last := log[..|log| - 1], log[|log| - 1];
      NewestIsFoundThere(front, task);
      NewestAfter(Under(front, task), last);
      var before := Newest(Under(front, task));
      if IsUnder(last, task) {
        assert Newest(Under(log, task)) == (if last.Checkpoint? && (before.None? || last.number >= before.value.number) then Some(last) else before);
        StillItsNewest(log, task);
      } else {
        assert Under(front, task) + [] == Under(front, task);
        StillItsNewest(log, task);
      }
    }
  }

  lemma NewestAfter(events: seq<Event>, last: Event)
    ensures Newest(events + [last]) ==
      var before := Newest(events);
      if last.Checkpoint? && (before.None? || last.number >= before.value.number) then Some(last) else before
  {
    assert (events + [last])[..|events|] == events;
  }

  /** One more event. */
  lemma StillItsNewest(log: seq<Event>, task: nat)
    requires log != []
    ensures var front, last := log[..|log| - 1], log[|log| - 1];
      && (forall at | 0 <= at < |front| && IsItsNewest(front, task, at) ::
            if IsCheckpointOf(last, task) && last.number >= front[at].number
            then IsItsNewest(log, task, |log| - 1) else IsItsNewest(log, task, at))
      && ((forall k | 0 <= k < |front| :: !IsCheckpointOf(front[k], task)) && IsCheckpointOf(last, task)
          ==> IsItsNewest(log, task, |log| - 1))
  {
    var front, last := log[..|log| - 1], log[|log| - 1];
    assert log == front + [last];
  }

  lemma OneNewest(log: seq<Event>, task: nat, a: nat, b: nat)
    requires IsItsNewest(log, task, a) && IsItsNewest(log, task, b)
    ensures a == b
  {
  }

  /** Where a task stands, from its newest checkpoint. */
  lemma StandsAsItsNewest(log: seq<Event>, task: nat)
    ensures Stands(log, task).Some? <==> CanBePickedUp(log, task)
    ensures forall at | 0 <= at < |log| && IsItsNewest(log, task, at) && Stands(log, task).Some? ::
      log[at].status.Some? && Stands(log, task).value == AsFound(task, log[at].status.value)
  {
    hide Under, Newest, IsItsNewest;
    NewestIsFoundThere(log, task);
    var newest := Newest(Under(log, task));
    if newest.Some? {
      var at :| 0 <= at < |log| && IsItsNewest(log, task, at) && log[at] == newest.value;
      forall other | 0 <= other < |log| && IsItsNewest(log, task, other) ensures other == at {
        OneNewest(log, task, at, other);
      }
    } else {
      NoneIsItsNewest(log, task);
    }
  }

  lemma NoneIsItsNewest(log: seq<Event>, task: nat)
    requires forall k | 0 <= k < |log| :: !IsCheckpointOf(log[k], task)
    ensures forall at | 0 <= at < |log| :: !IsItsNewest(log, task, at)
  {
  }

  // ---------------------------------------------------------------- the screen

  lemma {:induction false} ScreenIsWhereItCameFrom(log: seq<Event>, task: nat, screen: string)
    ensures ScreenOf(Under(log, task)) == Some(screen) <==> CameFrom(log, task, screen)
    ensures ScreenOf(Under(log, task)) == None <==> forall k | 0 <= k < |log| :: !NamesAScreen(log[k], task)
  {
    if log != [] {
      var front, last := log[..|log| - 1], log[|log| - 1];
      ScreenIsWhereItCameFrom(front, task, screen);
      ScreenAfter(Under(front, task), last);
      assert log == front + [last];
      if !IsUnder(last, task) {
        assert Under(log, task) == Under(front, task);
      }
      CameFromAfter(front, last, task, screen);
    }
  }

  lemma CameFromAfter(front: seq<Event>, last: Event, task: nat, screen: string)
    ensures CameFrom(front + [last], task, screen) <==>
      || CameFrom(front, task, screen)
      || ((forall k | 0 <= k < |front| :: !NamesAScreen(front[k], task))
          && NamesAScreen(last, task) && last.channel + ":" + last.sender == screen)
  {
    var log := front + [last];
    if CameFrom(front, task, screen) {
      var at :| 0 <= at < |front|
        && NamesAScreen(front[at], task) && front[at].channel + ":" + front[at].sender == screen
        && forall k | 0 <= k < at :: !NamesAScreen(front[k], task);
      assert log[at] == front[at];
    }
    assert log[|front|] == last;
    assert forall k | 0 <= k < |front| :: log[k] == front[k];
  }

  lemma {:induction false} ScreenAfter(events: seq<Event>, last: Event)
    ensures ScreenOf(events + [last]) ==
      if ScreenOf(events).Some? then ScreenOf(events)
      else if last.Ask? && last.channel != "" then Some(ScreenNamed(last.channel, last.sender))
      else None
  {
    if events == [] {
      assert [] + [last] == [last] && [last][1..] == [];
    } else {
      assert (events + [last])[1..] == events[1..] + [last];
      ScreenAfter(events[1..], last);
    }
  }

  // ---------------------------------------------------------------- which tasks are looked at

  /** A start looks at a task exactly when it can be picked up and fewer than sixty-four
      with higher numbers can; a running one is then stopped and interrupted, and any
      other as its newest checkpoint says. */
  lemma WhatAStartLooksAt(log: seq<Event>, found: NumberedTask)
    ensures found in LookedAt(log) <==>
      && found.number > 0 && CanBePickedUp(log, found.number) && |Newer(log, found.number)| < 64
      && exists at | 0 <= at < |log| ::
           && IsItsNewest(log, found.number, at) && log[at].status.Some?
           && found == AsFound(found.number, log[at].status.value)
  {
    hide StandingUpTo, Stands, CanBePickedUp, IsItsNewest, Newer, HighestTask;
    var all := Standing(log);
    StandingRises(log, HighestTask(log));
    NoneStandsAbove(log, HighestTask(log), found.number);
    StandsAsItsNewest(log, found.number);
    assert found in LookedAt(log) ==> found in all;
    assert found in all <==> found.number > 0 && Stands(log, found.number) == Some(found);
    SomeIsItsNewest(log, found.number);
    if found in all {
      var k :| 0 <= k < |all| && all[k] == found;
      NewerAreAfter(log, k);
      LastOnesAre(all, 64, k);
    }
  }

  lemma SomeIsItsNewest(log: seq<Event>, task: nat)
    ensures CanBePickedUp(log, task) ==>
      exists at | 0 <= at < |log| :: IsItsNewest(log, task, at) && log[at].status.Some?
  {
  }

  lemma LastOnesAre(all: seq<NumberedTask>, most: nat, k: nat)
    requires Rising(all) && k < |all|
    ensures all[k] in LastOnes(all, most) <==> |all| - k <= most
  {
    var last := LastOnes(all, most);
    var from := |all| - |last|;
    if k >= from {
      assert last[k - from] == all[k];
    } else {
      assert forall j | 0 <= j < |last| :: last[j] == all[from + j];
    }
  }

  lemma NewerAreAfter(log: seq<Event>, k: nat)
    requires k < |Standing(log)|
    ensures |Newer(log, Standing(log)[k].number)| == |Standing(log)| - k - 1
  {
    hide StandingUpTo, Stands, CanBePickedUp, HighestTask;
    var all := Standing(log);
    StandingRises(log, HighestTask(log));
    var after := all[k + 1..];
    assert Rising(after);
    NumbersOfRising(after);
    forall n ensures n in Newer(log, all[k].number) <==> n in NumbersIn(after) {
      NewerStandsAfter(log, all, k, n);
    }
    assert Newer(log, all[k].number) == NumbersIn(after);
  }

  lemma NewerStandsAfter(log: seq<Event>, all: seq<NumberedTask>, k: nat, n: nat)
    requires all == Standing(log) && k < |all|
    ensures n in Newer(log, all[k].number) <==> n in NumbersIn(all[k + 1..])
  {
    hide StandingUpTo, Stands, CanBePickedUp, HighestTask;
    var after := all[k + 1..];
    StandingRises(log, HighestTask(log));
    StandsAsItsNewest(log, n);
    NoneStandsAbove(log, HighestTask(log), n);
    PickedUpIsThere(log, n);
    if n in NumbersIn(after) {
      var j :| 0 <= j < |after| && after[j].number == n;
      assert all[k + 1 + j] in all;
    }
    if n in Newer(log, all[k].number) {
      StandsUnderItsNumber(log, n);
      ItsPlace(all, k, Stands(log, n).value);
    }
  }

  lemma ItsPlace(all: seq<NumberedTask>, k: nat, task: NumberedTask)
    requires Rising(all) && k < |all| && task in all && task.number > all[k].number
    ensures task.number in NumbersIn(all[k + 1..])
  {
    var j :| 0 <= j < |all| && all[j] == task;
    assert j > k;
    assert all[k + 1..][j - k - 1] == task;
  }

  lemma PickedUpIsThere(log: seq<Event>, n: nat)
    ensures CanBePickedUp(log, n) ==> exists at | 0 <= at < |log| :: log[at].Checkpoint? && log[at].task == n
  {
  }

  function NumbersIn(tasks: seq<NumberedTask>): set<nat> { set k | 0 <= k < |tasks| :: tasks[k].number }

  lemma {:induction false} NumbersOfRising(tasks: seq<NumberedTask>)
    requires Rising(tasks)
    ensures |NumbersIn(tasks)| == |tasks|
  {
    if tasks != [] {
      var front, last := tasks[..|tasks| - 1], tasks[|tasks| - 1];
      NumbersOfRising(front);
      assert tasks == front + [last];
      assert NumbersIn(tasks) == NumbersIn(front) + {last.number};
    } else {
      assert NumbersIn(tasks) == {};
    }
  }

  // ---------------------------------------------------------------- what is carried on

  /** The first words a screen says after a start carry a task on exactly when the log
      says it came from there and can be picked up, fewer than sixty-four newer ones can,
      and no newer one that came from there can; and they steer it unless its newest
      checkpoint is waiting for an answer or they only say to carry on. */
  lemma WhatTheLogCarriesOn(log: seq<Event>, screen: string, said: string, task: nat)
    ensures CarryOn(Rebuilt(log), screen, said).0 == Some(task) <==>
      && task > 0 && CanBePickedUp(log, task) && |Newer(log, task)| < 64 && CameFrom(log, task, screen)
      && forall n | n in Newer(log, task) :: !CameFrom(log, n, screen)
    ensures forall at | CarryOn(Rebuilt(log), screen, said).0 == Some(task) && 0 <= at < |log| && IsItsNewest(log, task, at) ::
      (CarryOn(Rebuilt(log), screen, said).1 <==> log[at].status != Some(Waiting) && !SaysCarryOn(said))
  {
    hide LookedAt, ScreenOf, Under, Stands, Sound, Rebuilt, SaysCarryOn, CarryOn, CanBePickedUp, Newer, CameFrom, IsItsNewest;
    WhatAStartCarriesOn(log, screen, said, task);
    StandsAsItsNewest(log, task);
    TaskIsLookedAt(log, task);
    ScreenIsWhereItCameFrom(log, task, screen);
    forall u | u in LookedAt(log)
      ensures ScreenOf(Under(log, u.number)) == Some(screen) <==> CameFrom(log, u.number, screen)
      ensures u.number > task ==> u.number in Newer(log, task)
    {
      ScreenIsWhereItCameFrom(log, u.number, screen);
      WhatAStartLooksAt(log, u);
      IsNewer(log, task, u.number);
    }
    forall n | n in Newer(log, task) && |Newer(log, task)| < 64
      ensures n > task && exists u | u in LookedAt(log) :: u.number == n
    {
      NewerIsNewer(log, task, n);
      TaskIsLookedAt(log, n);
    }
    if CarryOn(Rebuilt(log), screen, said).0 == Some(task) {
      forall n | n in Newer(log, task) ensures !CameFrom(log, n, screen) {
        var u :| u in LookedAt(log) && u.number == n;
      }
    }
    assert (exists t | t in LookedAt(log) :: t.number == task) && CameFrom(log, task, screen)
           && (forall n | n in Newer(log, task) :: !CameFrom(log, n, screen))
           ==> CarryOn(Rebuilt(log), screen, said).0 == Some(task);
  }

  lemma IsNewer(log: seq<Event>, task: nat, n: nat)
    ensures CanBePickedUp(log, n) && n > task ==> n in Newer(log, task)
  {
    hide CanBePickedUp;
    PickedUpIsThere(log, n);
  }

  lemma NewerIsNewer(log: seq<Event>, task: nat, n: nat)
    requires n in Newer(log, task)
    ensures n > task && CanBePickedUp(log, n) && |Newer(log, n)| <= |Newer(log, task)|
  {
    hide CanBePickedUp;
    Fewer(Newer(log, n), Newer(log, task));
  }

  lemma {:induction false} Fewer(smaller: set<nat>, larger: set<nat>)
    requires smaller <= larger
    ensures |smaller| <= |larger|
  {
    if smaller != {} {
      var n :| n in smaller;
      Fewer(smaller - {n}, larger - {n});
    }
  }

  lemma TaskIsLookedAt(log: seq<Event>, task: nat)
    ensures (exists t | t in LookedAt(log) :: t.number == task)
        <==> task > 0 && CanBePickedUp(log, task) && |Newer(log, task)| < 64
  {
    hide LookedAt, Newer, CanBePickedUp;
    if task > 0 && CanBePickedUp(log, task) && |Newer(log, task)| < 64 {
      SomeIsItsNewest(log, task);
      var at :| 0 <= at < |log| && IsItsNewest(log, task, at) && log[at].status.Some?;
      var found := AsFound(task, log[at].status.value);
      WhatAStartLooksAt(log, found);
    }
    forall t | t in LookedAt(log) && t.number == task
      ensures task > 0 && CanBePickedUp(log, task) && |Newer(log, task)| < 64
    {
      WhatAStartLooksAt(log, t);
    }
  }

  /** A screen none of whose tasks can be picked up, each done or with no checkpoint that
      reads as a record, carries nothing on. */
  lemma AFinishedTaskIsNotCarriedOn(log: seq<Event>, screen: string, said: string)
    requires forall task: nat, at: nat | CameFrom(log, task, screen) && IsItsNewest(log, task, at) ::
      log[at].status == None || log[at].status == Some(Done)
    ensures CarryOn(Rebuilt(log), screen, said) == (None, false)
  {
    hide CameFrom, IsItsNewest, Rebuilt, SaysCarryOn, Newer;
    var carried := CarryOn(Rebuilt(log), screen, said);
    if carried.0.Some? {
      WhatTheLogCarriesOn(log, screen, said, carried.0.value);
    }
  }

  // ---------------------------------------------------------------- what is named

  lemma {:induction false} NamedAmong(log: seq<Event>, m: Memory, tasks: seq<NumberedTask>, n: nat)
    ensures n in InterruptedAmong(log, m, tasks) <==> exists t | t in tasks :: t.number == n && IsNamed(log, m, t)
  {
    hide IsNamed;
    if tasks != [] {
      var front, last := tasks[..|tasks| - 1], tasks[|tasks| - 1];
      NamedAmong(log, m, front, n);
      assert tasks == front + [last];
    }
  }

  lemma TheScreensTask(log: seq<Event>, screen: string, n: nat)
    ensures screen in Rebuilt(log).newest && Rebuilt(log).newest[screen].task == Some(n)
        <==> CarryOn(Rebuilt(log), screen, "").0 == Some(n)
  {
    hide LookedAt, ScreenOf, Under, Stands, Sound, Rebuilt, SaysCarryOn;
    EachScreenHasItsNewestTask(log, screen);
    WhatIsCarriedOn(Rebuilt(log), screen, "", n);
    if screen in Rebuilt(log).newest {
      var t :| t in LookedAt(log) && Rebuilt(log).newest[screen] == EndedAs(t) && Stands(log, t.number) == Some(t);
      PickedUpCanBeCarriedOn(log, t.number);
      assert Rebuilt(log).newest[screen] == EndedAs(t);
      assert EndedAs(t).status == t.status;
    }
  }

  /** A start names a task as interrupted exactly when its newest checkpoint says it was
      running, and it is the task its screen now carries on. */
  lemma WhatAStartNames(log: seq<Event>, n: nat)
    ensures n in InterruptedIn(log) <==>
      && (exists at | 0 <= at < |log| :: IsItsNewest(log, n, at) && log[at].status == Some(Running))
      && (exists at | 0 <= at < |log| && NamesAScreen(log[at], n) ::
            CarryOn(Rebuilt(log), log[at].channel + ":" + log[at].sender, "").0 == Some(n)
            && CameFrom(log, n, log[at].channel + ":" + log[at].sender))
  {
    hide LookedAt, ScreenOf, Under, Stands, Sound, Rebuilt, SaysCarryOn, CarryOn, CanBePickedUp, Newer, CameFrom;
    NamedAmong(log, Rebuilt(log), LookedAt(log), n);
    forall t | t in LookedAt(log) && t.number == n
      ensures t.interrupted <==> exists at | 0 <= at < |log| :: IsItsNewest(log, n, at) && log[at].status == Some(Running)
    {
      WhatAStartLooksAt(log, t);
      forall a: nat, b: nat | IsItsNewest(log, n, a) && IsItsNewest(log, n, b) ensures a == b {
        OneNewest(log, n, a, b);
      }
      ItsNewestIsACheckpoint(log, n);
    }
    TaskIsLookedAt(log, n);
    forall screen: string
      ensures ScreenOf(Under(log, n)) == Some(screen) <==> CameFrom(log, n, screen)
      ensures screen in Rebuilt(log).newest && Rebuilt(log).newest[screen].task == Some(n)
          <==> CarryOn(Rebuilt(log), screen, "").0 == Some(n)
      ensures CarryOn(Rebuilt(log), screen, "").0 == Some(n) ==> exists t | t in LookedAt(log) :: t.number == n
      ensures CameFrom(log, n, screen) ==>
        exists at | 0 <= at < |log| && NamesAScreen(log[at], n) :: log[at].channel + ":" + log[at].sender == screen
    {
      ScreenIsWhereItCameFrom(log, n, screen);
      TheScreensTask(log, screen, n);
      WhatTheLogCarriesOn(log, screen, "", n);
      ItNamesItsScreen(log, n, screen);
    }
  }

  lemma ItNamesItsScreen(log: seq<Event>, task: nat, screen: string)
    ensures CameFrom(log, task, screen) ==>
      exists at | 0 <= at < |log| && NamesAScreen(log[at], task) :: log[at].channel + ":" + log[at].sender == screen
  {
  }

  lemma ItsNewestIsACheckpoint(log: seq<Event>, task: nat)
    ensures forall at: nat | IsItsNewest(log, task, at) :: at < |log| && log[at].Checkpoint?
  {
  }

  // ---------------------------------------------------------------- what is marked

  function CheckpointsAt(events: seq<Event>): set<nat> {
    set k | 0 <= k < |events| && (events[k].Checkpoint? || events[k].Unreadable?)
  }

  /** The record of these events loads: every checkpoint decodes, there are no more than
      ten thousand, and the one at this place is the last and is a record. */
  predicate LoadsWith(events: seq<Event>, last: nat) {
    && (forall k | 0 <= k < |events| :: !events[k].Unreadable?) && |CheckpointsAt(events)| <= 10000
    && last < |events| && events[last].Checkpoint? && events[last].status.Some?
    && forall k | last < k < |events| :: !events[k].Checkpoint?
  }

  lemma {:induction false} CheckpointsAreCounted(events: seq<Event>)
    ensures CheckpointCount(events) == |CheckpointsAt(events)|
  {
    if events != [] {
      var rest := CheckpointsAt(events[1..]);
      CheckpointsAreCounted(events[1..]);
      var later := set k | k in rest :: k + 1;
      MovedOn(rest, later);
      var first := if events[0].Checkpoint? || events[0].Unreadable? then {0 as nat} else {};
      forall k: nat ensures k in CheckpointsAt(events) <==> k in first + later {
        if k > 0 && k in CheckpointsAt(events) {
          assert events[1..][k - 1] == events[k] && k - 1 in rest;
        }
        if k in later {
          var j :| j in rest && k == j + 1;
          assert events[1..][j] == events[k];
        }
      }
      assert CheckpointsAt(events) == first + later;
      assert first !! later;
    } else {
      assert CheckpointsAt(events) == {};
    }
  }

  lemma {:induction false} MovedOn(numbers: set<nat>, later: set<nat>)
    requires later == set k | k in numbers :: k + 1
    ensures |later| == |numbers|
  {
    if numbers != {} {
      var n :| n in numbers;
      var rest := set k | k in numbers - {n} :: k + 1;
      forall m ensures m in later - {n + 1} <==> m in rest {
        if m in later && m != n + 1 {
          var k :| k in numbers && m == k + 1;
          assert k in numbers - {n};
        }
      }
      assert later - {n + 1} == rest && n + 1 in later;
      MovedOn(numbers - {n}, later - {n + 1});
    } else {
      assert later == {};
    }
  }

  lemma {:induction false} LastCheckpointIsThere(events: seq<Event>)
    ensures var last := LastCheckpoint(events);
      if last.None? then CheckpointsAt(events) == {}
      else exists at | 0 <= at < |events| ::
        events[at] == last.value && forall k | at < k < |events| :: !events[k].Checkpoint? && !events[k].Unreadable?
  {
    if events != [] {
      var front := events[..|events| - 1];
      LastCheckpointIsThere(front);
      assert events == front + [events[|events| - 1]];
      if LastCheckpoint(events) == None {
        assert forall k | 0 <= k < |front| :: k !in CheckpointsAt(front) && events[k] == front[k];
      }
    }
  }

  lemma LoadsExactlyWhen(events: seq<Event>, last: nat)
    ensures Loads(events) <==> exists at :: LoadsWith(events, at)
    ensures LoadsWith(events, last) ==> LastCheckpoint(events) == Some(events[last])
  {
    hide CheckpointCount, LastCheckpoint, CheckpointsAt;
    CheckpointsAreCounted(events);
    LastCheckpointIsThere(events);
    NoneAtAll(events);
    if Loads(events) {
      var at :| 0 <= at < |events| && events[at] == LastCheckpoint(events).value
        && forall k | at < k < |events| :: !events[k].Checkpoint? && !events[k].Unreadable?;
      assert LoadsWith(events, at);
    }
    forall at: nat | LoadsWith(events, at) ensures LastCheckpoint(events) == Some(events[at]) && Loads(events) {
      assert LastCheckpoint(events).Some?;
      var last :| 0 <= last < |events| && events[last] == LastCheckpoint(events).value
        && forall k | last < k < |events| :: !events[k].Checkpoint? && !events[k].Unreadable?;
      assert last == at;
    }
  }

  lemma NoneAtAll(events: seq<Event>)
    ensures CheckpointsAt(events) == {} ==> forall k | 0 <= k < |events| :: !events[k].Checkpoint?
  {
    assert forall k | 0 <= k < |events| :: events[k].Checkpoint? ==> k in CheckpointsAt(events);
  }

  /** The log a start leaves has one event more under a task exactly when its newest
      checkpoint was running, its record loads and the write went through: a checkpoint
      that says it is stopped, numbered after the last. */
  lemma WhatAStartMarks(log: seq<Event>, after: seq<Event>, fails: set<nat>, task: nat, at: nat, last: nat)
    requires LeftBehind(log, after, fails) && task > 0 && IsItsNewest(log, task, at)
    ensures var events := Under(log, task);
      && ((log[at].status == Some(Running) && task !in fails && LoadsWith(events, last)) ==>
            Under(after, task) == events + [Checkpoint(task, events[last].number + 1, Some(Stopped))])
      && (log[at].status != Some(Running) || task in fails || (forall n: nat :: !LoadsWith(events, n)) ==>
            Under(after, task) == events)
  {
    hide Under, Stands, Loads, LoadsWith, LastCheckpoint, IsItsNewest;
    var events := Under(log, task);
    StandsAsItsNewest(log, task);
    ItsNewestIsACheckpoint(log, task);
    RunningCanBePickedUp(log, task, at);
    forall n: nat ensures LoadsWith(events, n) ==> n < |events| && LastCheckpoint(events) == Some(events[n]) && Loads(events) {
      LoadsExactlyWhen(events, n);
      LastIsThere(events, n);
    }
    LoadsExactlyWhen(events, last);
    assert events + [] == events;
    assert Under(after, task) == events + MarksLeft(log, task, task in fails);
  }

  lemma LastIsThere(events: seq<Event>, last: nat)
    ensures LoadsWith(events, last) ==> last < |events|
  {
  }

  lemma RunningCanBePickedUp(log: seq<Event>, task: nat, at: nat)
    requires IsItsNewest(log, task, at)
    ensures log[at].status == Some(Running) ==> CanBePickedUp(log, task)
  {
  }

  // ---------------------------------------------------------------- the words for carrying on

  /** One letter of a word, in either case or one of the two signs that fold to it. */
  predicate IsLetter(c: char, letter: char) {
    || c == letter || (letter != ' ' && 'A' <= c <= 'Z' && c as int + 32 == letter as int)
    || (letter == 'k' && c == '\U{212A}') || (letter == 'i' && c == '\U{130}')
  }

  predicate IsSpelled(said: string, word: string) {
    |said| == |word| && forall k | 0 <= k < |word| :: IsLetter(said[k], word[k])
  }

  predicate OnlyMarks(marks: string) {
    forall k | 0 <= k < |marks| :: marks[k] == '.' || marks[k] == '!' || marks[k] == '?' || marks[k] == ' '
  }

  lemma SpelledIsLowered(said: string, word: string)
    requires word in CARRY_ON_WORDS
    ensures IsSpelled(said, word) <==> Lower(said) == word
  {
    CarryOnLetters(word);
    var lowered := Lower(said);
    if |said| == |word| {
      forall k | 0 <= k < |word| ensures IsLetter(said[k], word[k]) <==> lowered[k] == word[k] {
        assert lowered[k] == LowerLetter(said[k]);
      }
    }
  }

  lemma CarryOnLetters(word: string)
    requires word in CARRY_ON_WORDS
    ensures word != "" && forall k | 0 <= k < |word| :: word[k] == ' ' || 'a' <= word[k] <= 'z'
    ensures word[|word| - 1] !in {'.', '!', '?', ' '}
  {
    assert word == CARRY_ON_WORDS[0] || word == CARRY_ON_WORDS[1] || word == CARRY_ON_WORDS[2] || word == CARRY_ON_WORDS[3];
  }

  /** The whole message says to carry on exactly when, without the space around it and the
      full stops, exclamation and question marks at its end, it spells one of the ways to
      say so. */
  lemma WhatSaysCarryOn(before: string, said: string, marks: string, after: string)
    requires AllSpace(before) && AllSpace(after) && OnlyMarks(marks)
    requires said != "" && !IsSpace(said[0]) && !IsSpace(said[|said| - 1]) && !OnlyMarks([said[|said| - 1]])
    ensures SaysCarryOn(before + said + marks + after)
      <==> IsSpelled(said, "continue") || IsSpelled(said, "go on") || IsSpelled(said, "carry on") || IsSpelled(said, "keep going")
  {
    hide TrimSpace, TrimRight, IsSpelled, IsSpace, AllSpace;
    var kept := TrimSpace(before + said + marks + after);
    var some := TrimmedWithMarks(before, said, marks, after);
    LowerOfBoth(said, some);
    MarksStayMarks(some);
    LowerKeepsTheEnd(said);
    OnlyMarksAreOff(Lower(said), Lower(some));
    SpelledIsLowered(said, CARRY_ON_WORDS[0]);
    SpelledIsLowered(said, CARRY_ON_WORDS[1]);
    SpelledIsLowered(said, CARRY_ON_WORDS[2]);
    SpelledIsLowered(said, CARRY_ON_WORDS[3]);
  }

  lemma {:induction false} SpacesAtTheEnd(marks: string) returns (some: string, spaces: string)
    requires OnlyMarks(marks)
    ensures marks == some + spaces && OnlyMarks(some) && (some != "" ==> !IsSpace(some[|some| - 1]))
    ensures AllSpace(spaces)
  {
    some, spaces := marks, "";
    if marks != "" && marks[|marks| - 1] == ' ' {
      var more;
      some, more := SpacesAtTheEnd(marks[..|marks| - 1]);
      assert marks == marks[..|marks| - 1] + " ";
      spaces := more + " ";
    }
  }

  lemma AllSpaceOfBoth(a: string, b: string)
    requires AllSpace(a) && AllSpace(b)
    ensures AllSpace(a + b)
  {
    hide IsSpace;
  }

  lemma TrimmedWithMarks(before: string, said: string, marks: string, after: string) returns (some: string)
    requires AllSpace(before) && AllSpace(after) && OnlyMarks(marks)
    requires said != "" && !IsSpace(said[0]) && !IsSpace(said[|said| - 1])
    ensures TrimSpace(before + said + marks + after) == said + some && OnlyMarks(some)
  {
    hide IsSpace, AllSpace, TrimSpace, OnlyMarks;
    var whole, spaces := before + said + marks + after, "";
    some, spaces := SpacesAtTheEnd(marks);
    var core := said + some;
    assert whole == before + core + (spaces + after);
    AllSpaceOfBoth(spaces, after);
    var b, a := TrimSpaceTakesOnlySpace(whole);
    assert core[0] == said[0] && core[|core| - 1] == if some == "" then said[|said| - 1] else some[|some| - 1];
    TrimmedOneWay(before, core, spaces + after, b, TrimSpace(whole), a);
  }

  lemma LowerOfBoth(a: string, b: string)
    ensures Lower(a + b) == Lower(a) + Lower(b)
  {
    hide LowerLetter;
  }

  lemma MarksStayMarks(marks: string)
    requires OnlyMarks(marks)
    ensures Lower(marks) == marks
  {
  }

  lemma LowerKeepsTheEnd(said: string)
    requires said != "" && !OnlyMarks([said[|said| - 1]])
    ensures Lower(said) != "" && Lower(said)[|said| - 1] !in {'.', '!', '?', ' '}
  {
    var last := said[|said| - 1];
    assert [last][0] == last;
    assert Lower(said)[|said| - 1] == LowerLetter(last);
  }

  lemma OnlyMarksAreOff(said: string, marks: string)
    requires said != "" && said[|said| - 1] !in {'.', '!', '?', ' '} && OnlyMarks(marks)
    ensures TrimRight(said + marks, {'.', '!', '?', ' '}) == said
  {
    hide TrimRight;
    var whole, off := said + marks, {'.', '!', '?', ' '};
    TrimRightTakesOnly(whole, off);
    var kept := TrimRight(whole, off);
    assert whole[|said| - 1] == said[|said| - 1];
    assert |kept| >= |said|;
    assert kept != "" ==> whole[|kept| - 1] == kept[|kept| - 1];
    assert forall k | |said| <= k < |whole| :: whole[k] == marks[k - |said|] && whole[k] in off;
    assert kept == whole[..|kept|];
  }
}
