/** That the running agent goes on: no message that waits is left waiting, nothing that
    runs is left with no next step, and the loop is freed again. */
module Progress {
  import opened Queue
  import opened Serving

  // ---------------------------------------------------------------- the drainer's own steps

  /** The steps of the drainer and of the router it called. */
  predicate OfTheDrainer(step: Step) {
    match step
    case TakeOne | TakeNone | TakeFails | EndPass | Wake | Hold | RouteAnswers | RouteFails | FindsTheLoopHeld | Deliver
         | StartTakesTheLoop | HandOver | Spawn | ClearTakesTheLoop | ClearFreesTheLoop
         | AskWhetherStillHolding | DrainerFinishes => true
    case _ => false
  }

  /** Those that bring it nearer to the next message: all but the two of `/clear`, which
      go from the router and back. */
  predicate GoesOn(step: Step) {
    OfTheDrainer(step) && !step.ClearTakesTheLoop? && !step.ClearFreesTheLoop?
  }

  /** A pass is never over its bound, a message is routed only inside a pass, and a
      drainer that saw the queue empty starts its next pass afresh. */
  predicate PassIsCounted(s: State) {
    && s.passed <= 64
    && (!s.drainer.Looking? ==> s.passed < 64)
    && (s.drainer.Asleep? ==> s.passed == 0)
  }

  lemma PassStaysCounted(capacity: nat, s: State, step: Step)
    requires PassIsCounted(s) && Enabled(capacity, s, step)
    ensures PassIsCounted(Do(capacity, s, step))
  {
    hide Unfinished, OldestWaiting, RecoveredRows, CountHeld, Inserted, TakenAt, DoneAt, Recovered, Members, SomeTurnRuns;
  }

  ghost predicate Sound(s: State) { Safe(s) && PassIsCounted(s) }

  lemma {:induction false} EveryRunIsSound(capacity: nat, states: seq<State>, steps: seq<Step>, i: nat)
    requires IsRun(capacity, states, steps) && i < |states|
    ensures Sound(states[i])
  {
    hide Do, Enabled, Safe, PassIsCounted;
    EveryRunIsSafe(capacity, states, steps, i);
    if i == 0 {
      StartIsCounted();
    } else {
      EveryRunIsSound(capacity, states, steps, i - 1);
      PassStaysCounted(capacity, states[i - 1], steps[i - 1]);
      assert states[i - 1 + 1] == Do(capacity, states[i - 1], steps[i - 1]);
    }
  }

  lemma StartIsCounted()
    ensures PassIsCounted(START)
  {
  }

  // ---------------------------------------------------------------- how far off a message is

  function Waits(s: State): set<nat> { InState(s.table, Waiting) }

  /** The messages that go before it. */
  function Ahead(s: State, q: nat): set<nat> { set p | p in Waits(s) && p < q }

  /** How many steps the drainer has left before it takes the next message. */
  function StepsToTheNext(s: State): nat {
    match s.drainer
    case Looking => if s.passed < 64 then 1 else 2
    case Asleep => 2
    case Finishing(_, _) => 3
    case Routed(_, _) => 4
    case HandedOver(_, _) => 5
    case HasLoop(_) => 6
    case Delivering(_) => 6
    case Routing(_) => 7
    case Clearing(_) => 7
    case Took(_) => 8
  }

  function StepsLeft(s: State, q: nat): nat { StepsToTheNext(s) + 8 * |Ahead(s, q)| }

  lemma OldestIsLeast(table: Table)
    requires Ordered(table)
    ensures var at := OldestWaiting(table.rows);
      && (at < 0 <==> InState(table, Waiting) == {})
      && (at >= 0 ==> table.rows[at].sequence in InState(table, Waiting)
                      && forall p | p in InState(table, Waiting) :: table.rows[at].sequence <= p)
  {
    NoneWaits(table);
    var at := OldestWaiting(table.rows);
    if at >= 0 {
      forall p | p in InState(table, Waiting) ensures table.rows[at].sequence <= p {
        var k :| 0 <= k < |table.rows| && table.rows[k].state.Waiting? && table.rows[k].sequence == p;
        assert k >= at;
      }
    }
  }

  /** What each step does to those that wait. */
  lemma WaitsAfter(capacity: nat, s: State, step: Step)
    requires Safe(s) && Enabled(capacity, s, step) && !step.Crash?
    ensures var after := Do(capacity, s, step);
      && Waits(after) == (match step
                          case Add(_) => Waits(s) + {s.table.next}
                          case TakeOne => Waits(s) - {after.drainer.sequence}
                          case _ => Waits(s))
      && (step.TakeOne? ==>
            && after.drainer.Took? && after.drainer.sequence in Waits(s)
            && after.drainer.sequence in InState(after.table, Taken)
            && forall p | p in Waits(s) :: after.drainer.sequence <= p)
      && (step.TakeNone? ==> Waits(s) == {})
      && (forall p | p in Waits(s) :: p < s.table.next)
  {
    hide InState, Unfinished, OldestWaiting, RecoveredRows, CountHeld, Inserted, TakenAt, DoneAt, Recovered, Ordered,
         LoopIsOwned, MemoryIsOnce, OutcomesAreTrue, FinishedOnce, HoldingIsRight, DrainerHolds, TasksHold, SomeTurnRuns, Members;
    StepMoves(capacity, s, step);
    OldestIsLeast(s.table);
    WaitingIsBelowNext(s.table);
  }

  lemma WaitingIsBelowNext(table: Table)
    requires Ordered(table)
    ensures forall p | p in InState(table, Waiting) :: p < table.next
  {
  }

  lemma AheadAfter(s: State, after: State, q: nat, out: set<nat>, into: set<nat>)
    requires Waits(after) == (Waits(s) - out) + into
    requires out <= Waits(s) && |out| <= 1 && (forall p | p in out :: p < q) && (forall p | p in into :: p > q)
    ensures |Ahead(after, q)| == |Ahead(s, q)| - |out|
  {
    hide InState;
    assert Ahead(after, q) == Ahead(s, q) - out;
    assert out <= Ahead(s, q);
  }

  lemma StepsToTheNextAfter(capacity: nat, s: State, step: Step)
    requires PassIsCounted(s) && Enabled(capacity, s, step) && !step.Crash? && !step.TakeFails?
    ensures !step.TakeNone? && !step.TakeOne? ==>
      StepsToTheNext(Do(capacity, s, step)) <= StepsToTheNext(s) - (if GoesOn(step) then 1 else 0)
    ensures step.TakeOne? ==> StepsToTheNext(s) == 1 && StepsToTheNext(Do(capacity, s, step)) == 8
  {
    hide Unfinished, OldestWaiting, RecoveredRows, CountHeld, Inserted, TakenAt, DoneAt, Recovered, Members, SomeTurnRuns;
  }

  /** A message that waits goes on waiting, one step nearer with every step of the
      drainer, until the drainer takes it. */
  lemma OneStepNearer(capacity: nat, s: State, step: Step, q: nat)
    requires Sound(s) && Enabled(capacity, s, step) && !step.Crash? && !step.TakeFails? && q in Waits(s)
    ensures var after := Do(capacity, s, step);
      if q in Waits(after) then StepsLeft(after, q) <= StepsLeft(s, q) - (if GoesOn(step) then 1 else 0)
      else step.TakeOne? && after.drainer == Took(q) && q in InState(after.table, Taken) && Ahead(s, q) == {}
  {
    hide InState, Do, Enabled, Safe, Waits, Ahead, StepsToTheNext;
    WaitsAfter(capacity, s, step);
    StepsToTheNextAfter(capacity, s, step);
    var after := Do(capacity, s, step);
    match step
    case Add(_) => AheadAfter(s, after, q, {}, {s.table.next});
    case TakeOne =>
      var taken := after.drainer.sequence;
      if taken == q {
        NoneAheadOfTheLeast(s, q);
      } else {
        AheadAfter(s, after, q, {taken}, {});
      }
    case TakeNone =>
    case _ => AheadAfter(s, after, q, {}, {});
  }

  lemma NoneAheadOfTheLeast(s: State, q: nat)
    requires forall p | p in Waits(s) :: q <= p
    ensures Ahead(s, q) == {}
  {
  }

  // ---------------------------------------------------------------- no message is left waiting

  /** How many of these steps bring the drainer nearer. */
  function StepsOn(steps: seq<Step>): nat {
    if steps == [] then 0 else StepsOn(steps[..|steps| - 1]) + (if GoesOn(steps[|steps| - 1]) then 1 else 0)
  }

  /** The step at which the drainer takes the message, between two moments of a run. */
  ghost predicate IsTakenBetween(states: seq<State>, steps: seq<Step>, i: nat, j: nat, q: nat)
    requires |states| == |steps| + 1 && i <= j < |states|
  {
    exists k | i <= k < j :: steps[k].TakeOne? && states[k + 1].drainer == Took(q) && q in InState(states[k + 1].table, Taken)
  }

  lemma {:induction false} TakenOrNearer(capacity: nat, states: seq<State>, steps: seq<Step>, i: nat, j: nat, q: nat)
    requires IsRun(capacity, states, steps) && i <= j < |states| && q in Waits(states[i])
    requires forall k | i <= k < j :: !steps[k].Crash? && !steps[k].TakeFails?
    ensures IsTakenBetween(states, steps, i, j, q)
         || (q in Waits(states[j]) && StepsLeft(states[j], q) + StepsOn(steps[i..j]) <= StepsLeft(states[i], q))
  {
    hide Do, Enabled, Sound, StepsLeft, Waits, InState;
    if j > i {
      TakenOrNearer(capacity, states, steps, i, j - 1, q);
      assert steps[i..j] == steps[i..j - 1] + [steps[j - 1]] && states[j - 1 + 1] == Do(capacity, states[j - 1], steps[j - 1]);
      assert IsTakenBetween(states, steps, i, j - 1, q) ==> IsTakenBetween(states, steps, i, j, q);
      if !IsTakenBetween(states, steps, i, j - 1, q) {
        EveryRunIsSound(capacity, states, steps, j - 1);
        OneStepNearer(capacity, states[j - 1], steps[j - 1], q);
      }
    } else {
      assert steps[i..j] == [];
    }
  }

  /** Over every run and whatever else happens, short of a crash or a take that fails: a message that waits
      is taken before the drainer has made eight steps for it and eight for each message
      ahead of it. */
  lemma AWaitingMessageIsTaken(capacity: nat, states: seq<State>, steps: seq<Step>, i: nat, j: nat, q: nat)
    requires IsRun(capacity, states, steps) && i <= j < |states| && q in Waits(states[i])
    requires forall k | i <= k < j :: !steps[k].Crash? && !steps[k].TakeFails?
    requires StepsOn(steps[i..j]) >= 8 * (1 + |Ahead(states[i], q)|)
    ensures exists k | i <= k < j ::
      steps[k].TakeOne? && states[k + 1].drainer == Took(q) && q in InState(states[k + 1].table, Taken)
  {
    hide InState, Ahead, IsRun, Waits;
    TakenOrNearer(capacity, states, steps, i, j, q);
  }

  /** In every state of every run some step that brings the drainer nearer is possible,
      unless it is asleep and nothing waits, or asleep after a take that failed with no
      nudge since. */
  lemma TheDrainerIsNeverStuck(capacity: nat, states: seq<State>, steps: seq<Step>, i: nat) returns (next: Step)
    requires IsRun(capacity, states, steps) && i < |states|
    ensures var s := states[i];
      (s.drainer.Asleep? && !s.nudged && (Waits(s) == {} || s.takeFailed)) || (GoesOn(next) && Enabled(capacity, s, next)) || (s.drainer.Clearing? && Enabled(capacity, s, ClearFreesTheLoop))
  {
    hide InState, Ordered, OldestWaiting, IsRun, LoopIsOwned, MessagesAreOwned, MemoryIsOnce, OutcomesAreTrue, FinishedOnce;
    EveryRunIsSound(capacity, states, steps, i);
    var s := states[i];
    match s.drainer
    case Looking =>
      next := if s.passed >= 64 then EndPass else if OldestWaiting(s.table.rows) >= 0 then TakeOne else TakeNone;
    case Asleep => next := Wake;
    case Took(_) => next := Hold;
    case Routing(_) => next := RouteAnswers;
    case Delivering(_) => next := RouteFails;
    case HasLoop(_) => next := HandOver;
    case HandedOver(_, _) => next := Spawn;
    case Clearing(_) => next := Wake;
    case Routed(_, _) => next := AskWhetherStillHolding;
    case Finishing(_, _) => next := DrainerFinishes;
  }

  /** A drainer that saw the queue empty comes out of its wait when a message waits, and
      then can take the oldest. */
  lemma AWaitingMessageWakesTheDrainer(capacity: nat, states: seq<State>, steps: seq<Step>, i: nat, q: nat)
    requires IsRun(capacity, states, steps) && i < |states| && states[i].drainer.Asleep? && !states[i].takeFailed
    requires q in Waits(states[i]) && Ahead(states[i], q) == {}
    ensures Enabled(capacity, states[i], Wake)
    ensures var awake := Do(capacity, states[i], Wake);
      && Enabled(capacity, awake, TakeOne)
      && Do(capacity, awake, TakeOne).drainer == Took(q) && q in InState(Do(capacity, awake, TakeOne).table, Taken)
  {
    hide InState, Ordered, OldestWaiting, IsRun, LoopIsOwned, MemoryIsOnce, OutcomesAreTrue, FinishedOnce, TakenAt, Ahead,
         HoldingIsRight, DrainerHolds, TasksHold;
    EveryRunIsSound(capacity, states, steps, i);
    var s := states[i];
    var awake := Do(capacity, s, Wake);
    StepIsSafe(capacity, s, Wake);
    OldestIsLeast(awake.table);
    WaitsAfter(capacity, awake, TakeOne);
    TheLeastIsTheOldest(s, q, Do(capacity, awake, TakeOne).drainer.sequence);
  }

  lemma TheLeastIsTheOldest(s: State, q: nat, oldest: nat)
    requires q in Waits(s) && Ahead(s, q) == {} && oldest in Waits(s) && forall p | p in Waits(s) :: oldest <= p
    ensures q == oldest
  {
    assert oldest < q ==> oldest in Ahead(s, q);
  }

  /** Asleep over a message, with no nudge to come out on. */
  predicate IsStranded(s: State) { s.drainer.Asleep? && !s.nudged && Waits(s) != {} }

  /** The step that takes the drainer nearer from here. */
  function NextOfTheDrainer(s: State): Step {
    match s.drainer
    case Looking => if s.passed >= 64 then EndPass else TakeOne
    case Asleep => Wake
    case Took(_) => Hold
    case Routing(_) => RouteAnswers
    case Delivering(_) => RouteFails
    case HasLoop(_) => HandOver
    case HandedOver(_, _) => Spawn
    case Clearing(_) => ClearFreesTheLoop
    case Routed(_, _) => AskWhetherStillHolding
    case Finishing(_, _) => DrainerFinishes
  }

  lemma NextIsPossible(capacity: nat, s: State)
    requires Sound(s) && Waits(s) != {} && !IsStranded(s)
    ensures var step := NextOfTheDrainer(s);
      Enabled(capacity, s, step) && OfTheDrainer(step) && !step.Crash? && !step.TakeFails? && (!s.drainer.Clearing? ==> GoesOn(step))
      && (s.drainer.Clearing? ==> Do(capacity, s, step).drainer.Routing?)
  {
    hide InState, Ordered, OldestWaiting, LoopIsOwned, MemoryIsOnce, OutcomesAreTrue, FinishedOnce, HoldingIsRight, DrainerHolds,
         TasksHold;
    OwnedTablesAreOrdered(s);
    OldestIsLeast(s.table);
  }

  lemma SoundStays(capacity: nat, s: State, step: Step)
    requires Sound(s) && Enabled(capacity, s, step)
    ensures Sound(Do(capacity, s, step))
  {
    hide Do, Enabled, Safe, PassIsCounted;
    StepIsSafe(capacity, s, step);
    PassStaysCounted(capacity, s, step);
  }

  /** With no one else's help: from every sound state the drainer alone takes any message
      that waits, by no more steps than those and the one that ends a `/clear`. */
  lemma {:induction false} TheDrainerCanTakeIt(capacity: nat, s: State, q: nat) returns (steps: seq<Step>, t: State)
    requires Sound(s) && q in Waits(s) && !IsStranded(s)
    ensures LeadTo(capacity, s, steps, t) && t.drainer == Took(q) && q in InState(t.table, Taken)
    ensures forall step | step in steps :: OfTheDrainer(step)
    ensures |steps| <= StepsLeft(s, q) + (if s.drainer.Clearing? then 1 else 0)
    decreases StepsLeft(s, q), if s.drainer.Clearing? then 1 else 0
  {
    hide Do, Enabled, Sound, InState, Ahead, Waits;
    var step := NextOfTheDrainer(s);
    NextIsPossible(capacity, s);
    OneStepNearer(capacity, s, step, q);
    SoundStays(capacity, s, step);
    var after := Do(capacity, s, step);
    if q in Waits(after) {
      OnlyClearingClears(capacity, s);
      NoneIsStrandedByThat(capacity, s);
      var rest;
      rest, t := TheDrainerCanTakeIt(capacity, after, q);
      steps := [step] + rest;
      LeadsInOne(capacity, s, step, after);
      LeadOn(capacity, s, [step], after, rest, t);
    } else {
      steps, t := [step], after;
      LeadsInOne(capacity, s, step, after);
    }
  }

  lemma NoneIsStrandedByThat(capacity: nat, s: State)
    requires Enabled(capacity, s, NextOfTheDrainer(s))
    ensures !IsStranded(Do(capacity, s, NextOfTheDrainer(s)))
  {
    hide Do, Enabled;
    OneDoesNotSleep(capacity, s, NextOfTheDrainer(s));
  }

  lemma OneDoesNotSleep(capacity: nat, s: State, step: Step)
    requires Enabled(capacity, s, step) && OfTheDrainer(step) && !step.TakeNone? && !step.TakeFails?
    ensures !Do(capacity, s, step).drainer.Asleep?
  {
    hide Unfinished, OldestWaiting, RecoveredRows, CountHeld, Inserted, TakenAt, DoneAt, Recovered, Members, SomeTurnRuns, Finish;
  }

  lemma OnlyClearingClears(capacity: nat, s: State)
    requires Enabled(capacity, s, NextOfTheDrainer(s))
    ensures !Do(capacity, s, NextOfTheDrainer(s)).drainer.Clearing?
  {
    hide Do, Enabled;
    var step := NextOfTheDrainer(s);
    OneClears(capacity, s, step);
  }

  lemma OneClears(capacity: nat, s: State, step: Step)
    requires Enabled(capacity, s, step) && OfTheDrainer(step) && !step.ClearTakesTheLoop?
    ensures !Do(capacity, s, step).drainer.Clearing?
  {
    hide Unfinished, OldestWaiting, RecoveredRows, CountHeld, Inserted, TakenAt, DoneAt, Recovered, Members, SomeTurnRuns, Finish;
  }

  lemma AWaitingMessageCanBeTaken(capacity: nat, states: seq<State>, steps: seq<Step>, i: nat, q: nat)
      returns (more: seq<Step>, t: State)
    requires IsRun(capacity, states, steps) && i < |states| && q in Waits(states[i]) && !IsStranded(states[i])
    ensures LeadTo(capacity, states[i], more, t) && t.drainer == Took(q) && q in InState(t.table, Taken)
    ensures forall step | step in more :: OfTheDrainer(step)
    ensures |more| <= 9 + 8 * |Ahead(states[i], q)|
  {
    hide IsRun, Sound, InState, Ahead, Waits, LeadTo, IsStranded;
    EveryRunIsSound(capacity, states, steps, i);
    more, t := TheDrainerCanTakeIt(capacity, states[i], q);
  }

  // ---------------------------------------------------------------- a take that fails

  /** One step strands a message when a take fails with messages waiting and no nudge to
      come; and it stays so until one more is added or the program starts again. */
  lemma WhatAStepStrands(capacity: nat, s: State, step: Step)
    requires Sound(s) && Enabled(capacity, s, step)
    ensures IsStranded(Do(capacity, s, step)) <==>
      || (step.TakeFails? && !s.nudged && Waits(s) != {})
      || (IsStranded(s) && !step.Add? && !step.Crash?)
  {
    hide InState, Unfinished, OldestWaiting, RecoveredRows, CountHeld, Inserted, TakenAt, DoneAt, Recovered, Members, SomeTurnRuns,
         Safe, Waits;
    if !step.Crash? {
      WaitsAfter(capacity, s, step);
    }
  }

  /** The last failed take that left messages waiting with no nudge, and nothing added
      since. */
  ghost predicate StrandedBefore(states: seq<State>, steps: seq<Step>, i: nat)
    requires |states| == |steps| + 1 && i < |states|
  {
    exists k | 0 <= k < i ::
      && steps[k].TakeFails? && !states[k].nudged && Waits(states[k]) != {}
      && forall j | k < j < i :: !steps[j].Add? && !steps[j].Crash?
  }

  /** Over every run, the drainer sleeps on over a message exactly when a take failed with
      messages waiting and no nudge to come, and none has been added since. */
  lemma {:induction false} AMessageIsStrandedExactlyWhen(capacity: nat, states: seq<State>, steps: seq<Step>, i: nat)
    requires IsRun(capacity, states, steps) && i < |states|
    ensures IsStranded(states[i]) <==> StrandedBefore(states, steps, i)
  {
    hide Do, Enabled, Sound, IsStranded, Waits;
    if i == 0 {
      NoneIsStrandedYet();
    } else {
      var before, step := states[i - 1], steps[i - 1];
      AMessageIsStrandedExactlyWhen(capacity, states, steps, i - 1);
      EveryRunIsSound(capacity, states, steps, i - 1);
      WhatAStepStrands(capacity, before, step);
      assert states[i - 1 + 1] == Do(capacity, before, step);
      StrandedByOneMore(states, steps, i - 1);
    }
  }

  lemma NoneIsStrandedYet()
    ensures !IsStranded(START)
  {
  }

  lemma StrandedByOneMore(states: seq<State>, steps: seq<Step>, i: nat)
    requires |states| == |steps| + 1 && i < |steps|
    ensures StrandedBefore(states, steps, i + 1) <==>
      || (steps[i].TakeFails? && !states[i].nudged && Waits(states[i]) != {})
      || (StrandedBefore(states, steps, i) && !steps[i].Add? && !steps[i].Crash?)
  {
    hide Waits;
  }

  /** A message is added, wakes the drainer, and its take fails: it waits, and nothing
      will wake the drainer for it. */
  lemma AFailedTakeStrands(capacity: nat, message: Inbound) returns (t: State)
    requires capacity >= 1
    ensures LeadTo(capacity, START, [TakeNone, Add(message)] + [Wake, TakeFails], t)
    ensures IsStranded(t) && Waits(t) == {1} && t.accepted == {1}
    ensures forall step | OfTheDrainer(step) :: !Enabled(capacity, t, step)
  {
    hide LeadTo;
    var asleep := START.(drainer := Asleep);
    var added := asleep.(table := Table([Row(1, message, Waiting, 0)], 2), accepted := {1}, nudged := true);
    var awake := added.(drainer := Looking, nudged := false);
    t := awake.(drainer := Asleep, takeFailed := true);
    assert {} + {1} == {1} && [] + [Row(1, message, Waiting, 0)] == [Row(1, message, Waiting, 0)];
    LeadsInTwo(capacity, START, TakeNone, asleep, Add(message), added);
    LeadsInTwo(capacity, added, Wake, awake, TakeFails, t);
    LeadOn(capacity, START, [TakeNone, Add(message)], added, [Wake, TakeFails], t);
    assert t.table.rows[0].sequence in Waits(t);
  }

  // ---------------------------------------------------------------- what runs goes on and frees the loop

  function Reads(n: nat): seq<Step> { seq(n, k => ReadOne) }

  /** A running turn reads what it took of the loop's memory, in order, to the end. */
  lemma {:induction false} TheTurnReadsItAll(capacity: nat, s: State)
    requires SomeTurnRuns(s)
    ensures LeadTo(capacity, s, Reads(|s.reading|), s.(reading := [], handled := s.handled + Members(s.reading)))
    decreases |s.reading|
  {
    hide LeadTo;
    if s.reading == [] {
      assert s.handled + Members(s.reading) == s.handled;
      StayingLeads(capacity, s);
    } else {
      var after := Do(capacity, s, ReadOne);
      TheTurnReadsItAll(capacity, after);
      LeadsInOne(capacity, s, ReadOne, after);
      var last := s.(reading := [], handled := s.handled + Members(s.reading));
      assert after.handled + Members(after.reading) == last.handled by {
        assert s.reading == [s.reading[0]] + s.reading[1..];
      }
      LeadOn(capacity, s, [ReadOne], after, Reads(|after.reading|), last);
      assert [ReadOne] + Reads(|after.reading|) == Reads(|s.reading|);
    }
  }

  lemma StayingLeads(capacity: nat, s: State)
    ensures LeadTo(capacity, s, Reads(0), s)
  {
  }

  /** Whatever was delivered, a turn that runs can read it all. */
  lemma WhatIsDeliveredCanBeRead(capacity: nat, s: State)
    requires SomeTurnRuns(s)
    ensures LeadTo(capacity, s, Reads(|s.reading|) + [TakeDelivered] + Reads(|s.delivered|),
                   s.(reading := [], delivered := [], handled := s.handled + Members(InMemory(s))))
  {
    hide LeadTo;
    var read := s.(reading := [], handled := s.handled + Members(s.reading));
    var taken := read.(reading := s.delivered, delivered := []);
    var last := s.(reading := [], delivered := [], handled := s.handled + Members(InMemory(s)));
    TheTurnReadsItAll(capacity, s);
    TheTurnReadsItAll(capacity, taken);
    LeadsInOne(capacity, read, TakeDelivered, taken);
    LeadOn(capacity, s, Reads(|s.reading|), read, [TakeDelivered], taken);
    assert taken.handled + Members(taken.reading) == last.handled;
    LeadOn(capacity, s, Reads(|s.reading|) + [TakeDelivered], taken, Reads(|s.delivered|), last);
  }

  /** A turn that runs, read to its end and ended: its message is marked done and the loop
      is freed. */
  function Ending(task: nat, unread: nat): seq<Step> {
    Reads(unread) + [TaskEnds(task, true)] + [TaskFinishes(task)] + [TaskFrees(task)]
  }

  lemma TheTaskGoesToItsEnd(capacity: nat, s: State, task: nat) returns (t: State)
    requires task in s.tasks && s.tasks[task].Working?
    ensures LeadTo(capacity, s, Ending(task, |s.reading|), t)
    ensures !t.busy && t.tasks == s.tasks - {task} && t.table == Finish(s, task).table && t.drainer == s.drainer
    ensures task in t.handled && Members(s.reading) <= t.handled && t.delivered == s.delivered && t.reading == []
  {
    hide LeadTo, Reads, Members, Unfinished, DoneAt;
    var read := s.(reading := [], handled := s.handled + Members(s.reading));
    TheTurnReadsItAll(capacity, s);
    var ended := Do(capacity, read, TaskEnds(task, true));
    var finished := Do(capacity, ended, TaskFinishes(task));
    t := Do(capacity, finished, TaskFrees(task));
    LeadsInOne(capacity, read, TaskEnds(task, true), ended);
    LeadsInOne(capacity, ended, TaskFinishes(task), finished);
    LeadsInOne(capacity, finished, TaskFrees(task), t);
    LeadOn(capacity, s, Reads(|s.reading|), read, [TaskEnds(task, true)], ended);
    LeadOn(capacity, s, Reads(|s.reading|) + [TaskEnds(task, true)], ended, [TaskFinishes(task)], finished);
    LeadOn(capacity, s, Reads(|s.reading|) + [TaskEnds(task, true)] + [TaskFinishes(task)], finished, [TaskFrees(task)], t);
  }

  /** A message the drainer has just taken, with the loop free, can be carried all the way
      by the drainer and its own task: it is done, something came of it, and the loop is
      free again. */
  lemma ATakenMessageCanBeCarriedThrough(capacity: nat, s: State, q: nat) returns (t: State)
    requires Sound(s) && s.drainer == Took(q) && !s.busy
    ensures LeadTo(capacity, s, STARTING + Ending(q, |s.reading|), t)
    ensures q in t.handled && q in InState(t.table, RowState.Done) && !t.busy && t.tasks == map[]
  {
    hide LeadTo, Ending, InState, MemoryIsOnce, OutcomesAreTrue, FinishedOnce, NudgedWhenNeeded, Ordered, Unfinished, DoneAt, Members;
    var working := s.(busy := true, taken := s.taken + 1, holding := q, handedOver := true, tasks := s.tasks[q := Working],
                      passed := s.passed + 1, drainer := Looking);
    ATaskStarts(capacity, s, q);
    t := TheTaskGoesToItsEnd(capacity, working, q);
    LeadOn(capacity, s, STARTING, working, Ending(q, |s.reading|), t);
    FreeLoopHasNoTask(s);
    OwnedTablesAreOrdered(s);
    FinishShows(s, q);
  }

  lemma FreeLoopHasNoTask(s: State)
    requires LoopIsOwned(s) && !s.busy
    ensures s.tasks == map[] && !JobOwnsTheLoop(s) && !DrainerOwnsTheLoop(s)
  {
    TaskCounts(s.tasks, 0, Working);
  }

  /** Whoever owns the loop can free it by its own steps. */
  lemma TheLoopCanBeFreed(capacity: nat, s: State) returns (steps: seq<Step>, t: State)
    requires Sound(s) && s.busy
    ensures LeadTo(capacity, s, steps, t) && !t.busy
    ensures forall step | step in steps ::
      if s.job.Asking? || s.job.Running? then step.ReadOne? || step.JobFrees? || step.JobFindsNothing?
      else if s.tasks != map[] then step.ReadOne? || step.TaskEnds? || step.TaskFinishes? || step.TaskFrees?
      else OfTheDrainer(step) || step.ReadOne? || step.TaskEnds? || step.TaskFinishes? || step.TaskFrees?
    ensures |steps| <= |s.reading| + 6
  {
    hide LeadTo, MessagesAreOwned, MemoryIsOnce, OutcomesAreTrue, FinishedOnce, NudgedWhenNeeded, Members, Unfinished, DoneAt;
    if s.job.Asking? {
      t := Do(capacity, s, JobFindsNothing);
      steps := [JobFindsNothing];
      LeadsInOne(capacity, s, JobFindsNothing, t);
    } else if s.job.Running? {
      steps, t := TheJobFrees(capacity, s);
    } else if s.tasks != map[] {
      steps, t := ATaskFrees(capacity, s);
    } else {
      OwnedByTheDrainer(s);
      if s.drainer.Clearing? {
        t := Do(capacity, s, ClearFreesTheLoop);
        steps := [ClearFreesTheLoop];
        LeadsInOne(capacity, s, ClearFreesTheLoop, t);
      } else {
        steps, t := TheNewTaskFrees(capacity, s);
      }
    }
  }

  lemma OwnedByTheDrainer(s: State)
    requires LoopIsOwned(s) && s.busy && s.tasks == map[] && !JobOwnsTheLoop(s)
    ensures DrainerOwnsTheLoop(s)
  {
    TaskCounts(s.tasks, 0, Working);
  }

  lemma TheJobFrees(capacity: nat, s: State) returns (steps: seq<Step>, t: State)
    requires s.job.Running?
    ensures LeadTo(capacity, s, steps, t) && !t.busy && |steps| == |s.reading| + 1
    ensures forall step | step in steps :: step.ReadOne? || step.JobFrees?
  {
    hide LeadTo, Members;
    var read := s.(reading := [], handled := s.handled + Members(s.reading));
    TheTurnReadsItAll(capacity, s);
    t := Do(capacity, read, JobFrees);
    LeadsInOne(capacity, read, JobFrees, t);
    LeadOn(capacity, s, Reads(|s.reading|), read, [JobFrees], t);
    steps := Reads(|s.reading|) + [JobFrees];
  }

  lemma ATaskFrees(capacity: nat, s: State) returns (steps: seq<Step>, t: State)
    requires s.tasks != map[]
    ensures LeadTo(capacity, s, steps, t) && !t.busy && |steps| <= |s.reading| + 3
    ensures forall step | step in steps :: step.ReadOne? || step.TaskEnds? || step.TaskFinishes? || step.TaskFrees?
  {
    hide LeadTo, Members, Unfinished, DoneAt;
    var task :| task in s.tasks;
    match s.tasks[task]
    case Working =>
      t := TheTaskGoesToItsEnd(capacity, s, task);
      steps := Ending(task, |s.reading|);
    case Ended(_) =>
      var finished := Do(capacity, s, TaskFinishes(task));
      t := Do(capacity, finished, TaskFrees(task));
      steps := [TaskFinishes(task), TaskFrees(task)];
      LeadsInTwo(capacity, s, TaskFinishes(task), finished, TaskFrees(task), t);
    case Finished =>
      t := Do(capacity, s, TaskFrees(task));
      steps := [TaskFrees(task)];
      LeadsInOne(capacity, s, TaskFrees(task), t);
  }

  lemma TheNewTaskFrees(capacity: nat, s: State) returns (steps: seq<Step>, t: State)
    requires s.drainer.HasLoop? || s.drainer.HandedOver?
    ensures LeadTo(capacity, s, steps, t) && !t.busy && |steps| <= |s.reading| + 6
    ensures forall step | step in steps ::
      OfTheDrainer(step) || step.ReadOne? || step.TaskEnds? || step.TaskFinishes? || step.TaskFrees?
  {
    hide LeadTo, Members, Unfinished, DoneAt, Reads;
    if s.drainer.HasLoop? {
      var over := Do(capacity, s, HandOver);
      var rest;
      rest, t := TheHandedOverFrees(capacity, over);
      LeadsInOne(capacity, s, HandOver, over);
      LeadOn(capacity, s, [HandOver], over, rest, t);
      steps := [HandOver] + rest;
    } else {
      steps, t := TheHandedOverFrees(capacity, s);
    }
  }

  lemma TheHandedOverFrees(capacity: nat, s: State) returns (steps: seq<Step>, t: State)
    requires s.drainer.HandedOver?
    ensures LeadTo(capacity, s, steps, t) && !t.busy && |steps| <= |s.reading| + 5
    ensures forall step | step in steps ::
      OfTheDrainer(step) || step.ReadOne? || step.TaskEnds? || step.TaskFinishes? || step.TaskFrees?
  {
    hide LeadTo, Members, Unfinished, DoneAt;
    var spawned := Do(capacity, s, Spawn);
    var task := s.drainer.finishes;
    t := TheTaskGoesToItsEnd(capacity, spawned, task);
    LeadsInOne(capacity, s, Spawn, spawned);
    LeadOn(capacity, s, [Spawn], spawned, Ending(task, |s.reading|), t);
    steps := [Spawn] + Ending(task, |s.reading|);
  }

  /** What a step finds of the loop, over every run: a message is delivered only to a task
      or a job that has the loop, and a task, a job or a `/clear` begins only when no one
      else has it. */
  lemma WhatAStepFinds(capacity: nat, states: seq<State>, steps: seq<Step>, i: nat)
    requires IsRun(capacity, states, steps) && i < |steps|
    ensures var s, step := states[i], steps[i];
      && (step.FindsTheLoopHeld? ==> s.tasks != map[] || s.job.Asking? || s.job.Running?)
      && (step.StartTakesTheLoop? || step.HandOver? || step.Spawn? || step.ClearTakesTheLoop? || step.JobTakesTheLoop? ==>
            s.tasks == map[] && !s.job.Asking? && !s.job.Running?)
      && (step.JobTakesTheLoop? || step.TaskEnds? || step.TaskFrees? || step.JobFrees? ==>
            !s.drainer.HasLoop? && !s.drainer.HandedOver? && !s.drainer.Clearing?)
      && (step.TakeOne? || step.TakeNone? || step.TakeFails? ==> s.passed < 64)
      && (step.EndPass? ==> s.passed == 64 && states[i + 1].passed == 0)
      && (step.Wake? ==> s.nudged && !states[i + 1].nudged)
      && (step.TakeDelivered? || step.ReadOne? || step.DropTheRest? ==> SomeTurnRuns(s))
      && (step.TaskEnds? || step.JobFrees? ==> s.reading == [])
  {
    hide InState, Ordered, OldestWaiting, MessagesAreOwned, MemoryIsOnce, OutcomesAreTrue, FinishedOnce, NudgedWhenNeeded, TaskCount,
         CountHeld, Unfinished, RecoveredRows, Inserted, TakenAt, DoneAt, Recovered, Members, SomeTurnRuns, Finish;
    EveryRunIsSound(capacity, states, steps, i);
    TaskCounts(states[i].tasks, 0, Working);
    assert states[i + 1] == Do(capacity, states[i], steps[i]);
  }

  /** What a turn took of the loop's memory has a turn that reads it. */
  predicate WordsHaveAReader(s: State) { s.reading != [] ==> SomeTurnRuns(s) }

  lemma WordsKeepTheirReader(capacity: nat, s: State, step: Step)
    requires WordsHaveAReader(s) && Enabled(capacity, s, step)
    ensures WordsHaveAReader(Do(capacity, s, step))
  {
    hide InState, Unfinished, OldestWaiting, RecoveredRows, CountHeld, Inserted, TakenAt, DoneAt, Recovered, Members, SomeTurnRuns;
    var after := Do(capacity, s, step);
    match step
    case Spawn => OneMoreTurn(s, after, s.drainer.finishes, Working);
    case TaskFinishes(task) => OneMoreTurn(s, after, task, Finished);
    case TaskFrees(task) => OneTaskLess(s, after, task);
    case TaskEnds(_, _) =>
    case JobFrees =>
    case Crash =>
    case _ =>
      TurnsStay(s, after);
      TurnsStay(after, s);
  }

  lemma TurnsStay(s: State, after: State)
    requires after.tasks == s.tasks
    ensures (s.job.Running? ==> after.job.Running?) && SomeTurnRuns(s) ==> SomeTurnRuns(after)
  {
  }

  lemma OneTaskLess(s: State, after: State, task: nat)
    requires after.tasks == s.tasks - {task} && after.job == s.job && task in s.tasks && s.tasks[task].Finished?
    ensures SomeTurnRuns(s) ==> SomeTurnRuns(after)
  {
    if SomeTurnRuns(s) && !s.job.Running? {
      var other :| other in s.tasks && s.tasks[other].Working?;
      assert other in after.tasks && after.tasks[other].Working?;
    }
  }

  lemma OneMoreTurn(s: State, after: State, task: nat, now: Task)
    requires after.tasks == s.tasks[task := now] && after.job == s.job
    requires now.Working? || (task in s.tasks && !s.tasks[task].Working?)
    ensures SomeTurnRuns(s) ==> SomeTurnRuns(after)
  {
    if SomeTurnRuns(s) && !s.job.Running? {
      var other :| other in s.tasks && s.tasks[other].Working?;
      assert other in after.tasks && after.tasks[other].Working?;
    }
  }

  /** Over every run no words are in a turn's hands once every turn is over. */
  lemma {:induction false} WordsAreReadInATurn(capacity: nat, states: seq<State>, steps: seq<Step>, i: nat)
    requires IsRun(capacity, states, steps) && i < |states|
    ensures states[i].reading != [] ==> SomeTurnRuns(states[i])
  {
    hide Do, Enabled, SomeTurnRuns, Safe;
    if i > 0 {
      WordsAreReadInATurn(capacity, states, steps, i - 1);
      WordsKeepTheirReader(capacity, states[i - 1], steps[i - 1]);
      assert states[i - 1 + 1] == Do(capacity, states[i - 1], steps[i - 1]);
    }
  }

  /** A turn told to stop can let go of what it has not read. */
  lemma ATurnCanLetGo(capacity: nat, s: State)
    requires SomeTurnRuns(s) && s.reading != []
    ensures LeadTo(capacity, s, [DropTheRest], s.(reading := [], dropped := s.dropped + Members(s.reading)))
  {
    hide LeadTo, Members, SomeTurnRuns;
    LeadsInOne(capacity, s, DropTheRest, s.(reading := [], dropped := s.dropped + Members(s.reading)));
  }

  /** A message that asks for a `/clear`, taken with the loop free, can be carried to its
      end by the drainer alone. */
  lemma AClearCanBeCarriedThrough(capacity: nat, s: State, q: nat) returns (t: State)
    requires Sound(s) && s.drainer == Took(q) && !s.busy
    ensures LeadTo(capacity, s, [Hold, ClearTakesTheLoop] + [ClearFreesTheLoop, RouteAnswers] + [AskWhetherStillHolding]
                                + [DrainerFinishes], t)
    ensures q in t.handled && q in InState(t.table, RowState.Done) && !t.busy && t.drainer == Looking
  {
    hide InState, LeadTo, MemoryIsOnce, OutcomesAreTrue, FinishedOnce, NudgedWhenNeeded, Ordered, Members, LoopIsOwned, Finish;
    var finishing := s.(holding := q, handedOver := false, taken := s.taken + 1, freed := s.freed + 1, busy := false,
                        handled := s.handled + {q}, drainer := Finishing(q, Answered));
    TheClearIsAnswered(capacity, s, q);
    TheAnswerIsFinished(capacity, finishing, q);
    t := Finish(finishing, q).(drainer := Looking, passed := s.passed + 1);
    LeadOn(capacity, s, [Hold, ClearTakesTheLoop] + [ClearFreesTheLoop, RouteAnswers] + [AskWhetherStillHolding], finishing,
           [DrainerFinishes], t);
    OwnedTablesAreOrdered(s);
    FinishShows(finishing, q);
    FinishKeeps(finishing, q);
  }

  lemma FinishKeeps(s: State, q: nat)
    ensures var t := Finish(s, q); t.handled == s.handled && t.busy == s.busy && t.passed == s.passed
  {
  }

  lemma TheAnswerIsFinished(capacity: nat, s: State, q: nat)
    requires s.drainer == Finishing(q, Answered)
    ensures LeadTo(capacity, s, [DrainerFinishes], Finish(s, q).(drainer := Looking, passed := s.passed + 1))
  {
    hide LeadTo, Unfinished, DoneAt;
    LeadsInOne(capacity, s, DrainerFinishes, Finish(s, q).(drainer := Looking, passed := s.passed + 1));
  }

  lemma TheClearIsAnswered(capacity: nat, s: State, q: nat)
    requires s.drainer == Took(q) && !s.busy
    ensures LeadTo(capacity, s, [Hold, ClearTakesTheLoop] + [ClearFreesTheLoop, RouteAnswers] + [AskWhetherStillHolding],
      s.(holding := q, handedOver := false, taken := s.taken + 1, freed := s.freed + 1, busy := false,
         handled := s.handled + {q}, drainer := Finishing(q, Answered)))
  {
    hide Do, Enabled, LeadTo;
    var clearing := s.(holding := q, handedOver := false, busy := true, taken := s.taken + 1, drainer := Clearing(q));
    var answered := clearing.(busy := false, freed := s.freed + 1, drainer := Routed(q, Answered), handled := s.handled + {q});
    var finishing := answered.(drainer := Finishing(q, Answered));
    TheClearTakes(capacity, s, q);
    TheClearFrees(capacity, clearing, q);
    TheAnswerIsHeld(capacity, answered, q);
    LeadOn(capacity, s, [Hold, ClearTakesTheLoop], clearing, [ClearFreesTheLoop, RouteAnswers], answered);
    LeadOn(capacity, s, [Hold, ClearTakesTheLoop] + [ClearFreesTheLoop, RouteAnswers], answered,
           [AskWhetherStillHolding], finishing);
  }

  lemma TheClearTakes(capacity: nat, s: State, q: nat)
    requires s.drainer == Took(q) && !s.busy
    ensures LeadTo(capacity, s, [Hold, ClearTakesTheLoop],
      s.(holding := q, handedOver := false, busy := true, taken := s.taken + 1, drainer := Clearing(q)))
  {
    hide LeadTo;
    var held := s.(holding := q, handedOver := false, drainer := Routing(q));
    LeadsInTwo(capacity, s, Hold, held, ClearTakesTheLoop,
               held.(busy := true, taken := s.taken + 1, drainer := Clearing(q)));
  }

  lemma TheClearFrees(capacity: nat, s: State, q: nat)
    requires s.drainer == Clearing(q)
    ensures LeadTo(capacity, s, [ClearFreesTheLoop, RouteAnswers],
      s.(busy := false, freed := s.freed + 1, drainer := Routed(q, Answered), handled := s.handled + {q}))
  {
    hide LeadTo;
    var cleared := s.(busy := false, freed := s.freed + 1, drainer := Routing(q));
    LeadsInTwo(capacity, s, ClearFreesTheLoop, cleared, RouteAnswers,
               cleared.(drainer := Routed(q, Answered), handled := s.handled + {q}));
  }

  lemma TheAnswerIsHeld(capacity: nat, s: State, q: nat)
    requires s.drainer == Routed(q, Answered) && !s.handedOver
    ensures LeadTo(capacity, s, [AskWhetherStillHolding], s.(drainer := Finishing(q, Answered)))
  {
    hide LeadTo;
    LeadsInOne(capacity, s, AskWhetherStillHolding, s.(drainer := Finishing(q, Answered)));
  }

  /** With the loop free the job driver can run a job's task, begin the nightly one, or
      find nothing, and rests with the loop free again. */
  lemma TheDriverCanGoRound(capacity: nat, s: State)
    requires s.job.Resting? && !s.busy
    ensures var t := s.(busy := false, taken := s.taken + 1, freed := s.freed + 1);
      && LeadTo(capacity, s, [JobTakesTheLoop] + [JobFindsNothing], t)
      && LeadTo(capacity, s, [JobTakesTheLoop] + [JobIsNightly] + [NightlyEnds], t)
      && LeadTo(capacity, s, [JobTakesTheLoop] + [JobRuns] + (Reads(|s.reading|) + [JobFrees]),
                t.(reading := [], handled := s.handled + Members(s.reading)))
  {
    hide Do, Enabled, LeadTo, Members, Reads, SomeTurnRuns;
    var taken := s.(busy := true, taken := s.taken + 1, job := Asking);
    var running, nightly := taken.(job := JobDriver.Running), taken.(busy := false, freed := s.freed + 1, job := Nightly);
    var t := s.(busy := false, taken := s.taken + 1, freed := s.freed + 1);
    TheDriverTakes(capacity, s);
    TheDriverDecides(capacity, taken);
    TheDriverEnds(capacity, nightly);
    LeadOn(capacity, s, [JobTakesTheLoop], taken, [JobFindsNothing], t);
    LeadOn(capacity, s, [JobTakesTheLoop], taken, [JobIsNightly], nightly);
    LeadOn(capacity, s, [JobTakesTheLoop] + [JobIsNightly], nightly, [NightlyEnds], t);
    LeadOn(capacity, s, [JobTakesTheLoop], taken, [JobRuns], running);
    TheJobRuns(capacity, running);
    LeadOn(capacity, s, [JobTakesTheLoop] + [JobRuns], running, Reads(|s.reading|) + [JobFrees],
           t.(reading := [], handled := s.handled + Members(s.reading)));
  }

  lemma TheJobRuns(capacity: nat, s: State)
    requires s.job.Running?
    ensures LeadTo(capacity, s, Reads(|s.reading|) + [JobFrees],
                   s.(reading := [], handled := s.handled + Members(s.reading), busy := false, freed := s.freed + 1, job := Resting))
  {
    hide Do, Enabled, LeadTo, Members, Reads;
    var read := s.(reading := [], handled := s.handled + Members(s.reading));
    TheTurnReadsItAll(capacity, s);
    TheDriverEnds(capacity, read);
    LeadOn(capacity, s, Reads(|s.reading|), read, [JobFrees], read.(busy := false, freed := s.freed + 1, job := Resting));
  }

  lemma TheDriverTakes(capacity: nat, s: State)
    requires s.job.Resting? && !s.busy
    ensures LeadTo(capacity, s, [JobTakesTheLoop], s.(busy := true, taken := s.taken + 1, job := Asking))
  {
    hide LeadTo;
    LeadsInOne(capacity, s, JobTakesTheLoop, Do(capacity, s, JobTakesTheLoop));
  }

  lemma TheDriverDecides(capacity: nat, s: State)
    requires s.job.Asking?
    ensures LeadTo(capacity, s, [JobFindsNothing], s.(busy := false, freed := s.freed + 1, job := Resting))
    ensures LeadTo(capacity, s, [JobIsNightly], s.(busy := false, freed := s.freed + 1, job := Nightly))
    ensures LeadTo(capacity, s, [JobRuns], s.(job := JobDriver.Running))
  {
    hide LeadTo;
    LeadsInOne(capacity, s, JobFindsNothing, Do(capacity, s, JobFindsNothing));
    LeadsInOne(capacity, s, JobIsNightly, Do(capacity, s, JobIsNightly));
    LeadsInOne(capacity, s, JobRuns, Do(capacity, s, JobRuns));
  }

  lemma TheDriverEnds(capacity: nat, s: State)
    ensures s.job.Nightly? ==> LeadTo(capacity, s, [NightlyEnds], s.(job := Resting))
    ensures s.job.Running? && s.reading == [] ==>
      LeadTo(capacity, s, [JobFrees], s.(busy := false, freed := s.freed + 1, job := Resting))
  {
    hide LeadTo;
    if s.job.Nightly? {
      LeadsInOne(capacity, s, NightlyEnds, Do(capacity, s, NightlyEnds));
    }
    if s.job.Running? && s.reading == [] {
      LeadsInOne(capacity, s, JobFrees, Do(capacity, s, JobFrees));
    }
  }

  // ---------------------------------------------------------------- the bound on the queue

  lemma {:induction false} HeldAreUnfinished(rows: seq<Row>, next: nat)
    requires Ordered(Table(rows, next))
    ensures CountHeld(rows) == |InState(Table(rows, next), Waiting)| + |InState(Table(rows, next), Taken)|
  {
    hide InState;
    if rows == [] {
      EmptyShowsNothing(Table(rows, next), Waiting);
      EmptyShowsNothing(Table(rows, next), Taken);
    } else {
      OrderedRest(rows, next);
      HeldAreUnfinished(rows[1..], next);
      FirstRowShows(rows, next, Waiting);
      FirstRowShows(rows, next, Taken);
    }
  }

  lemma OrderedRest(rows: seq<Row>, next: nat)
    requires rows != [] && Ordered(Table(rows, next))
    ensures Ordered(Table(rows[1..], next))
  {
  }

  lemma ShowsInTheRest(rows: seq<Row>, next: nat, state: RowState, q: nat)
    requires rows != []
    ensures q in InState(Table(rows, next), state)
      <==> q in InState(Table(rows[1..], next), state) || (rows[0].state == state && q == rows[0].sequence)
  {
    if q in InState(Table(rows[1..], next), state) {
      var k :| 0 <= k < |rows[1..]| && rows[1..][k].state == state && rows[1..][k].sequence == q;
      assert rows[k + 1] == rows[1..][k];
    }
    if q in InState(Table(rows, next), state) {
      var k :| 0 <= k < |rows| && rows[k].state == state && rows[k].sequence == q;
      assert k > 0 ==> rows[1..][k - 1] == rows[k];
    }
    assert rows[0].state == state ==> rows[0].sequence in InState(Table(rows, next), state);
  }

  lemma FirstIsNotInTheRest(rows: seq<Row>, next: nat, state: RowState)
    requires rows != [] && Ordered(Table(rows, next))
    ensures rows[0].sequence !in InState(Table(rows[1..], next), state)
  {
    forall k | 0 <= k < |rows[1..]| ensures rows[1..][k].sequence > rows[0].sequence {
      assert rows[1..][k] == rows[k + 1];
    }
  }

  lemma FirstRowShows(rows: seq<Row>, next: nat, state: RowState)
    requires rows != [] && Ordered(Table(rows, next))
    ensures |InState(Table(rows, next), state)|
         == |InState(Table(rows[1..], next), state)| + if rows[0].state == state then 1 else 0
  {
    hide InState, Ordered;
    var all, rest, first := InState(Table(rows, next), state), InState(Table(rows[1..], next), state), rows[0].sequence;
    forall q ensures q in all <==> q in rest || (rows[0].state == state && q == first) {
      ShowsInTheRest(rows, next, state, q);
    }
    FirstIsNotInTheRest(rows, next, state);
    assert all == rest + if rows[0].state == state then {first} else {};
  }

  lemma HeldStaysBounded(capacity: nat, s: State, step: Step)
    requires CountHeld(s.table.rows) <= capacity && Enabled(capacity, s, step)
    ensures CountHeld(Do(capacity, s, step).table.rows) <= capacity
  {
    hide CountHeld, RecoveredRows, SomeTurnRuns, Members;
    match step
    case Add(message) => HeldAfterInsert(s.table.rows, Row(s.table.next, message, Waiting, 0));
    case TakeOne =>
      var at := OldestWaiting(s.table.rows);
      HeldAfterUpdate(s.table.rows, at, TakenAt(s.table, at).rows[at]);
    case DrainerFinishes => FinishHoldsNoMore(s, s.drainer.sequence);
    case TaskFinishes(task) => FinishHoldsNoMore(s, task);
    case Crash => RecoveryKeepsTheCount(s.table.rows);
    case _ =>
  }

  lemma FinishHoldsNoMore(s: State, sequence: nat)
    ensures CountHeld(Finish(s, sequence).table.rows) <= CountHeld(s.table.rows)
  {
    hide CountHeld;
    var at := Unfinished(s.table.rows, sequence);
    if at >= 0 {
      HeldAfterUpdate(s.table.rows, at, s.table.rows[at].(state := RowState.Done));
    }
  }

  lemma {:induction false} EveryRunHoldsAtMost(capacity: nat, states: seq<State>, steps: seq<Step>, i: nat)
    requires IsRun(capacity, states, steps) && i < |states|
    ensures CountHeld(states[i].table.rows) <= capacity
  {
    hide Do, Enabled, CountHeld;
    if i == 0 {
      NoneHeld();
    } else {
      EveryRunHoldsAtMost(capacity, states, steps, i - 1);
      HeldStaysBounded(capacity, states[i - 1], steps[i - 1]);
      assert states[i - 1 + 1] == Do(capacity, states[i - 1], steps[i - 1]);
    }
  }

  lemma NoneHeld()
    ensures CountHeld(START.table.rows) == 0
  {
  }

  /** Over every run no more messages wait and are in hand than the queue may hold, and one
      more is added exactly when there is room. */
  lemma TheQueueIsBounded(capacity: nat, states: seq<State>, steps: seq<Step>, i: nat, message: Inbound)
    requires IsRun(capacity, states, steps) && i < |states|
    ensures var held := |InState(states[i].table, Waiting)| + |InState(states[i].table, Taken)|;
      held <= capacity && (Enabled(capacity, states[i], Add(message)) <==> held < capacity)
  {
    hide InState, CountHeld, IsRun, MemoryIsOnce, OutcomesAreTrue, FinishedOnce, NudgedWhenNeeded, LoopIsOwned, Ordered;
    EveryRunHoldsAtMost(capacity, states, steps, i);
    EveryRunIsSafe(capacity, states, steps, i);
    OwnedTablesAreOrdered(states[i]);
    HeldAreUnfinished(states[i].table.rows, states[i].table.next);
  }
}
