/** What each screen was last doing, kept while the program runs and rebuilt from the
    event log when it starts. */
module Resuming {
  import opened Text
  import opened Sorting
  import opened Wire

  const MAX_SCREENS := 64
  const MAX_TASKS_LOOKED_BACK_AT := MAX_SCREENS
  const MAX_CHECKPOINTS := 10000
  const CARRY_ON_WORDS := ["continue", "go on", "carry on", "keep going"]

  datatype Status = Running | Waiting | Stopped | Failed | Done

  /** Where a task ended; one that made no record has no number. */
  datatype Ended = Ended(task: Option<nat>, status: Status)

  // ---------------------------------------------------------------- the memory

  datatype Memory = Memory(newest: map<string, Ended>, spokenLast: seq<string>)

  const EMPTY := Memory(map[], [])

  predicate Distinct(screens: seq<string>) {
    forall i, j | 0 <= i < j < |screens| :: screens[i] != screens[j]
  }

  /** One place in the order for each screen remembered, and no more than the cap. */
  ghost predicate Sound(m: Memory) {
    && |m.spokenLast| <= MAX_SCREENS && Distinct(m.spokenLast)
    && (forall screen :: screen in m.newest <==> screen in m.spokenLast)
  }

  /** The oldest screens forgotten until no more than the cap are left. */
  function Capped(m: Memory): Memory
    decreases |m.spokenLast|
  {
    if |m.spokenLast| <= MAX_SCREENS then m
    else Capped(Memory(m.newest - {m.spokenLast[0]}, m.spokenLast[1..]))
  }

  function Remembered(m: Memory, screen: string, ended: Ended): Memory {
    Capped(Memory(m.newest[screen := ended],
                  if screen in m.newest then m.spokenLast else m.spokenLast + [screen]))
  }

  function Without(screens: seq<string>, screen: string): (left: seq<string>)
    ensures forall s :: s in left <==> s in screens && s != screen
    ensures |left| <= |screens|
  {
    if screens == [] then []
    else (if screens[0] == screen then [] else [screens[0]]) + Without(screens[1..], screen)
  }

  function Forgotten(m: Memory, screen: string): Memory {
    Memory(m.newest - {screen}, Without(m.spokenLast, screen))
  }

  /** Go's `strings.ToLower`, of the letters it takes to one of a to z: besides the
      capitals, the Kelvin sign and the capital I with a dot. */
  function LowerLetter(c: char): char {
    if 'A' <= c <= 'Z' then (c as int + 32) as char
    else if c == '\U{212A}' then 'k'
    else if c == '\U{130}' then 'i'
    else c
  }

  function Lower(s: string): string {
    seq(|s|, k requires 0 <= k < |s| => LowerLetter(s[k]))
  }

  predicate SaysCarryOn(said: string) {
    TrimRight(Lower(TrimSpace(said)), {'.', '!', '?', ' '}) in CARRY_ON_WORDS
  }

  /** The task a message picks up, and whether the message steers it. */
  function CarryOn(m: Memory, screen: string, said: string): (Option<nat>, bool) {
    if screen !in m.newest || m.newest[screen].task.None? then (None, false)
    else match m.newest[screen].status
      case Waiting => (m.newest[screen].task, false)
      case Stopped => (m.newest[screen].task, !SaysCarryOn(said))
      case Failed => (m.newest[screen].task, !SaysCarryOn(said))
      case _ => (None, false)
  }

  /** Remembering keeps the memory sound, and at the cap it forgets one screen: the one
      that first spoke longest ago, whatever it has said since. */
  lemma RememberingForgetsTheFirst(m: Memory, screen: string, ended: Ended)
    requires Sound(m)
    ensures Sound(Remembered(m, screen, ended))
    ensures Remembered(m, screen, ended) ==
      if screen in m.newest then Memory(m.newest[screen := ended], m.spokenLast)
      else if |m.spokenLast| < MAX_SCREENS then Memory(m.newest[screen := ended], m.spokenLast + [screen])
      else Memory((m.newest - {m.spokenLast[0]})[screen := ended], m.spokenLast[1..] + [screen])
  {
    var added := Memory(m.newest[screen := ended], m.spokenLast + [screen]);
    if screen !in m.newest && |m.spokenLast| == MAX_SCREENS {
      var first := m.spokenLast[0];
      assert added.spokenLast[1..] == m.spokenLast[1..] + [screen] && added.spokenLast[0] == first;
      assert first in m.newest && first != screen;
      assert added.newest - {first} == (m.newest - {first})[screen := ended];
      var left := Memory(added.newest - {first}, added.spokenLast[1..]);
      assert Capped(added) == Capped(left) == left;
      RestWithoutFirst(m.spokenLast);
    } else {
      assert Capped(added) == added || screen in m.newest;
    }
  }

  lemma RestWithoutFirst(screens: seq<string>)
    requires screens != []
    requires Distinct(screens)
    ensures forall s :: s in screens[1..] <==> s in screens && s != screens[0]
  {
  }

  lemma {:induction false} WithoutStaysApart(screens: seq<string>, screen: string)
    requires Distinct(screens)
    ensures Distinct(Without(screens, screen))
  {
    if screens != [] {
      WithoutStaysApart(screens[1..], screen);
      assert screens[0] !in screens[1..];
      assert screens[0] !in Without(screens[1..], screen);
    }
  }

  /** A cleared screen's next message starts a fresh task, and no other screen is
      touched. */
  lemma ForgettingStartsFresh(m: Memory, screen: string, other: string, said: string)
    requires Sound(m)
    ensures var after := Forgotten(m, screen);
      && Sound(after) && CarryOn(after, screen, said) == (None, false)
      && (other != screen ==> CarryOn(after, other, said) == CarryOn(m, other, said))
  {
    hide CarryOn, Without, Distinct;
    WithoutStaysApart(m.spokenLast, screen);
    assert Sound(Forgotten(m, screen));
    ForgettingCarriesOn(m, screen, other, said);
  }

  lemma ForgettingCarriesOn(m: Memory, screen: string, other: string, said: string)
    ensures CarryOn(Forgotten(m, screen), screen, said) == (None, false)
    ensures other != screen ==> CarryOn(Forgotten(m, screen), other, said) == CarryOn(m, other, said)
  {
    hide SaysCarryOn, Without;
  }

  /** A message carries a task on exactly when that screen's newest task can be, and it
      steers it unless it answers a question or only says to carry on. */
  lemma WhatIsCarriedOn(m: Memory, screen: string, said: string, task: nat)
    ensures CarryOn(m, screen, said).0 == Some(task)
            <==> screen in m.newest && m.newest[screen].task == Some(task)
                 && m.newest[screen].status in {Waiting, Stopped, Failed}
    ensures CarryOn(m, screen, said).1
            <==> CarryOn(m, screen, said).0.Some? && m.newest[screen].status != Waiting && !SaysCarryOn(said)
  {
    hide SaysCarryOn;
  }

  // ---------------------------------------------------------------- over a session

  /** What happens to the memory while the program runs: a task of a screen ends, which
      is remembered, or a screen is cleared. */
  datatype Op = Spoke(screen: string, ended: Ended) | Cleared(screen: string)

  function Apply(m: Memory, op: Op): Memory {
    match op
    case Spoke(screen, ended) => Remembered(m, screen, ended)
    case Cleared(screen) => Forgotten(m, screen)
  }

  function After(ops: seq<Op>): Memory {
    if ops == [] then EMPTY else Apply(After(ops[..|ops| - 1]), ops[|ops| - 1])
  }

  /** A screen that is new to a full memory pushes out the one at the front. */
  predicate PushesOut(m: Memory, op: Op, screen: string) {
    op.Spoke? && op.screen !in m.newest && |m.spokenLast| >= MAX_SCREENS && m.spokenLast[0] == screen
  }

  /** When the screen first spoke since it was last cleared or pushed out, and whether
      it has. */
  function Since(ops: seq<Op>, screen: string): (since: Option<nat>)
    ensures since.Some? ==> since.value < |ops| && ops[since.value].Spoke? && ops[since.value].screen == screen
  {
    if ops == [] then None
    else
      var before, op := ops[..|ops| - 1], ops[|ops| - 1];
      if op.screen == screen then
        if op.Cleared? then None
        else if Since(before, screen).None? then Some(|before|) else Since(before, screen)
      else if PushesOut(After(before), op, screen) then None
      else Since(before, screen)
  }

  /** Its last word. */
  function LastWord(ops: seq<Op>, screen: string): (last: Option<nat>)
    ensures last.Some? ==> last.value < |ops| && ops[last.value].Spoke? && ops[last.value].screen == screen
    ensures last.Some? ==> forall k | last.value < k < |ops| :: !(ops[k].Spoke? && ops[k].screen == screen)
    ensures last.None? ==> forall k | 0 <= k < |ops| :: !(ops[k].Spoke? && ops[k].screen == screen)
  {
    if ops == [] then None
    else if ops[|ops| - 1].Spoke? && ops[|ops| - 1].screen == screen then Some(|ops| - 1)
    else LastWord(ops[..|ops| - 1], screen)
  }

  /** The screens of the order, in the order they first spoke. */
  ghost predicate ByFirstWord(ops: seq<Op>, screens: seq<string>) {
    && (forall i | 0 <= i < |screens| :: Since(ops, screens[i]).Some?)
    && (forall i, j | 0 <= i < j < |screens| :: Since(ops, screens[i]).value < Since(ops, screens[j]).value)
  }

  lemma {:induction false} WithoutKeepsTheOrder(ops: seq<Op>, screens: seq<string>, screen: string)
    requires ByFirstWord(ops, screens)
    ensures ByFirstWord(ops, Without(screens, screen))
  {
    hide Since;
    if screens != [] {
      var rest := Without(screens[1..], screen);
      WithoutKeepsTheOrder(ops, screens[1..], screen);
      forall k | 0 <= k < |rest| ensures Since(ops, screens[0]).value < Since(ops, rest[k]).value {
        assert rest[k] in screens[1..];
      }
    }
  }

  lemma SameFirstWords(ops: seq<Op>, later: seq<Op>, screens: seq<string>)
    requires ByFirstWord(ops, screens)
    requires forall k | 0 <= k < |screens| :: Since(later, screens[k]) == Since(ops, screens[k])
    ensures ByFirstWord(later, screens)
  {
    hide Since;
  }

  lemma OneMoreFirstWord(ops: seq<Op>, screens: seq<string>, screen: string)
    requires ByFirstWord(ops, screens) && Since(ops, screen) == Some(|ops| - 1)
    requires forall k | 0 <= k < |screens| :: Since(ops, screens[k]).value < |ops| - 1
    ensures ByFirstWord(ops, screens + [screen])
  {
    hide Since;
  }

  /** Over every session the memory is sound, it holds exactly the screens that have
      spoken since they were last cleared or pushed out, and it keeps them in the order
      of their first word since then, whatever they have said after it. */
  lemma {:induction false} TheOrderIsByFirstWord(ops: seq<Op>)
    ensures var m := After(ops);
      Sound(m) && ByFirstWord(ops, m.spokenLast) && forall screen :: screen in m.newest <==> Since(ops, screen).Some?
  {
    hide Remembered, Forgotten, Without, Distinct;
    if ops == [] {
      EmptyIsSound();
    } else {
      var before, op := ops[..|ops| - 1], ops[|ops| - 1];
      var m := After(before);
      TheOrderIsByFirstWord(before);
      match op
      case Cleared(screen) => ClearingKeepsTheOrder(before, screen);
      case Spoke(screen, ended) => SpeakingKeepsTheOrder(before, screen, ended);
      assert before + [op] == ops;
    }
  }

  lemma EmptyIsSound()
    ensures Sound(EMPTY)
  {
  }

  lemma SinceAfterOne(ops: seq<Op>, op: Op, screen: string)
    ensures Since(ops + [op], screen) ==
      if op.screen == screen then
        if op.Cleared? then None else if Since(ops, screen).None? then Some(|ops|) else Since(ops, screen)
      else if PushesOut(After(ops), op, screen) then None
      else Since(ops, screen)
  {
    assert (ops + [op])[..|ops|] == ops;
  }

  ghost predicate Orderly(ops: seq<Op>) {
    var m := After(ops);
    Sound(m) && ByFirstWord(ops, m.spokenLast) && forall screen :: screen in m.newest <==> Since(ops, screen).Some?
  }

  lemma AfterOne(ops: seq<Op>, op: Op)
    ensures After(ops + [op]) == Apply(After(ops), op)
  {
    assert (ops + [op])[..|ops|] == ops;
  }

  lemma ClearingKeepsTheOrder(ops: seq<Op>, screen: string)
    requires Orderly(ops)
    ensures Orderly(ops + [Cleared(screen)])
  {
    hide Since, After, Without, Distinct;
    var m, later := After(ops), ops + [Cleared(screen)];
    AfterOne(ops, Cleared(screen));
    WithoutStaysApart(m.spokenLast, screen);
    WithoutKeepsTheOrder(ops, m.spokenLast, screen);
    var left := Without(m.spokenLast, screen);
    forall s ensures Since(later, s) == if s == screen then None else Since(ops, s) {
      SinceAfterOne(ops, Cleared(screen), s);
    }
    assert forall k | 0 <= k < |left| :: left[k] in left;
    SameFirstWords(ops, later, left);
  }

  /** The screens that stay are not pushed out, and the one pushed out does not stay. */
  lemma KeptScreens(m: Memory, op: Op, kept: seq<string>)
    requires Sound(m) && op.Spoke?
    requires kept == if op.screen in m.newest || |m.spokenLast| < MAX_SCREENS then m.spokenLast else m.spokenLast[1..]
    ensures forall k | 0 <= k < |kept| :: kept[k] in m.newest && !PushesOut(m, op, kept[k])
    ensures op.screen !in m.newest ==> forall k | 0 <= k < |kept| :: kept[k] != op.screen
  {
    forall k | 0 <= k < |kept| ensures kept[k] in m.newest && !PushesOut(m, op, kept[k]) {
      assert kept[k] in m.spokenLast;
    }
  }

  lemma FirstWordsAfterSpeaking(ops: seq<Op>, screen: string, ended: Ended, s: string)
    requires Orderly(ops)
    ensures var m, op := After(ops), Spoke(screen, ended);
      Since(ops + [op], s) ==
        if s == screen then if s in m.newest then Since(ops, s) else Some(|ops|)
        else if PushesOut(m, op, s) then None else Since(ops, s)
  {
    hide Since, After, Sound, ByFirstWord;
    SinceAfterOne(ops, Spoke(screen, ended), s);
  }

  /** The order after a word, and the screens in it. */
  lemma SpeakingKeepsTheOrder(ops: seq<Op>, screen: string, ended: Ended)
    requires Orderly(ops)
    ensures Orderly(ops + [Spoke(screen, ended)])
  {
    hide Since, After, Remembered, Distinct, ByFirstWord, PushesOut;
    var m, op := After(ops), Spoke(screen, ended);
    var later := ops + [op];
    AfterOne(ops, op);
    RememberingForgetsTheFirst(m, screen, ended);
    var kept := if screen in m.newest || |m.spokenLast| < MAX_SCREENS then m.spokenLast else m.spokenLast[1..];
    KeptScreens(m, op, kept);
    KeptInOrder(ops, m.spokenLast, kept);
    forall k | 0 <= k < |kept| ensures Since(later, kept[k]) == Since(ops, kept[k]) {
      FirstWordsAfterSpeaking(ops, screen, ended, kept[k]);
    }
    SameFirstWords(ops, later, kept);
    FirstWordsAfterSpeaking(ops, screen, ended, screen);
    if screen !in m.newest {
      forall k | 0 <= k < |kept| ensures Since(later, kept[k]).Some? && Since(later, kept[k]).value < |later| - 1 {
      }
      OneMoreFirstWord(later, kept, screen);
    }
    ScreensAfterSpeaking(ops, screen, ended);
  }

  lemma KeptInOrder(ops: seq<Op>, screens: seq<string>, kept: seq<string>)
    requires ByFirstWord(ops, screens) && (kept == screens || (screens != [] && kept == screens[1..]))
    ensures ByFirstWord(ops, kept)
    ensures forall k | 0 <= k < |kept| :: Since(ops, kept[k]).Some?
  {
    hide Since;
  }

  lemma ScreensAfterSpeaking(ops: seq<Op>, screen: string, ended: Ended)
    requires Orderly(ops)
    ensures var later := ops + [Spoke(screen, ended)];
      forall s :: s in After(later).newest <==> Since(later, s).Some?
  {
    hide Since, After, Remembered, Distinct, ByFirstWord;
    var m, op := After(ops), Spoke(screen, ended);
    AfterOne(ops, op);
    RememberingForgetsTheFirst(m, screen, ended);
    forall s ensures s in After(ops + [op]).newest <==> Since(ops + [op], s).Some? {
      FirstWordsAfterSpeaking(ops, screen, ended, s);
    }
  }

  /** The screen has not spoken since that moment. */
  ghost predicate QuietSince(ops: seq<Op>, screen: string, moment: nat) {
    forall k | moment < k < |ops| :: !(ops[k].Spoke? && ops[k].screen == screen)
  }

  /** No other screen remembered has been quiet as long as this one. */
  ghost predicate IsQuietest(ops: seq<Op>, screen: string) {
    forall other | other in After(ops).newest && other != screen ::
      LastWord(ops, screen).Some? && LastWord(ops, other).Some? && LastWord(ops, screen).value < LastWord(ops, other).value
  }

  lemma LastWordIsLate(ops: seq<Op>, screen: string)
    ensures Since(ops, screen).Some? ==>
      LastWord(ops, screen).Some? && Since(ops, screen).value <= LastWord(ops, screen).value
  {
  }

  /** The screen at the front, which the next new one pushes out, is the one quiet
      longest exactly when each screen that had first spoken before its last word has
      spoken again since. */
  lemma FrontIsQuietestExactlyWhen(ops: seq<Op>)
    requires After(ops).spokenLast != []
    ensures var front := After(ops).spokenLast[0];
      && LastWord(ops, front).Some?
      && (IsQuietest(ops, front) <==>
            forall other | other in After(ops).newest && other != front
                           && Since(ops, other).Some? && Since(ops, other).value < LastWord(ops, front).value ::
              !QuietSince(ops, other, LastWord(ops, front).value))
  {
    hide Since, LastWord, After;
    TheOrderIsByFirstWord(ops);
    var front := After(ops).spokenLast[0];
    LastWordIsLate(ops, front);
    var last := LastWord(ops, front).value;
    forall other | other in After(ops).newest && other != front
      ensures LastWord(ops, other).Some?
      ensures last < LastWord(ops, other).value <==>
        Since(ops, other).value >= last || !QuietSince(ops, other, last)
    {
      LastWordIsLate(ops, other);
    }
  }

  /** In particular when the front has spoken once. */
  lemma OneWordIsQuietest(ops: seq<Op>)
    requires After(ops).spokenLast != []
    requires LastWord(ops, After(ops).spokenLast[0]) == Since(ops, After(ops).spokenLast[0])
    ensures IsQuietest(ops, After(ops).spokenLast[0])
  {
    hide Since, LastWord, After, IsQuietest;
    TheOrderIsByFirstWord(ops);
    FrontIsQuietestExactlyWhen(ops);
    var screens := After(ops).spokenLast;
    forall other | other in After(ops).newest && other != screens[0]
      ensures Since(ops, other).value > Since(ops, screens[0]).value
    {
      var k :| 0 <= k < |screens| && screens[k] == other;
    }
  }

  function AllSpeak(screens: seq<string>, ended: Ended): seq<Op> {
    seq(|screens|, k requires 0 <= k < |screens| => Spoke(screens[k], ended))
  }

  lemma {:induction false} AllAreRemembered(screens: seq<string>, ended: Ended)
    requires Distinct(screens) && |screens| <= MAX_SCREENS
    ensures var m := After(AllSpeak(screens, ended)); Sound(m) && m.spokenLast == screens
  {
    hide Remembered;
    if screens == [] {
      EmptyIsSound();
    } else {
      var front, last := screens[..|screens| - 1], screens[|screens| - 1];
      AllAreRemembered(front, ended);
      assert AllSpeak(screens, ended) == AllSpeak(front, ended) + [Spoke(last, ended)];
      AfterOne(AllSpeak(front, ended), Spoke(last, ended));
      RememberingForgetsTheFirst(After(AllSpeak(front, ended)), last, ended);
    }
  }

  /** Sixty-four screens speak, the first of them speaks again, and one more arrives:
      the one that just spoke is forgotten, and one that has been quiet ever since it
      first spoke is kept. */
  lemma TheLoudestIsForgotten(screens: seq<string>, newcomer: string, ended: Ended)
    requires Distinct(screens) && |screens| == MAX_SCREENS && newcomer !in screens
    ensures var ops := AllSpeak(screens, ended) + [Spoke(screens[0], ended)];
      var m := After(ops + [Spoke(newcomer, ended)]);
      && LastWord(ops, screens[0]) == Some(|ops| - 1) && screens[0] !in m.newest
      && !IsQuietest(ops, screens[0])
      && LastWord(ops, screens[1]) == Some(1) && screens[1] in m.newest
  {
    hide Remembered, After, IsQuietest;
    var all := AllSpeak(screens, ended);
    var ops := all + [Spoke(screens[0], ended)];
    AllAreRemembered(screens, ended);
    AfterOne(all, Spoke(screens[0], ended));
    RememberingForgetsTheFirst(After(all), screens[0], ended);
    AfterOne(ops, Spoke(newcomer, ended));
    RememberingForgetsTheFirst(After(ops), newcomer, ended);
    assert After(ops).spokenLast == screens && screens[1] in screens && screens[0] in screens;
    assert ops[..|ops| - 1] == all;
    assert ops[1] == Spoke(screens[1], ended) && ops[|ops| - 1] == Spoke(screens[0], ended);
    assert forall k | 1 < k < |ops| :: ops[k].screen != screens[1];
    NotTheQuietest(ops, screens[0], screens[1]);
  }

  lemma NotTheQuietest(ops: seq<Op>, screen: string, other: string)
    requires other in After(ops).newest && other != screen
    requires LastWord(ops, screen).Some? && LastWord(ops, other).Some?
    requires LastWord(ops, screen).value > LastWord(ops, other).value
    ensures !IsQuietest(ops, screen)
  {
  }

  /** Once cleared, a screen carries nothing on until it speaks again, whatever the
      others say. */
  lemma {:induction false} AClearedScreenCarriesNothingOn(ops: seq<Op>, screen: string, more: seq<Op>, said: string)
    requires forall k | 0 <= k < |more| :: !(more[k].Spoke? && more[k].screen == screen)
    ensures CarryOn(After(ops + [Cleared(screen)] + more), screen, said) == (None, false)
  {
    hide Since, After, SaysCarryOn;
    var all := ops + [Cleared(screen)] + more;
    NothingSinceClearing(ops, screen, more);
    TheOrderIsByFirstWord(all);
  }

  lemma {:induction false} NothingSinceClearing(ops: seq<Op>, screen: string, more: seq<Op>)
    requires forall k | 0 <= k < |more| :: !(more[k].Spoke? && more[k].screen == screen)
    ensures Since(ops + [Cleared(screen)] + more, screen) == None
  {
    hide After, PushesOut;
    var all := ops + [Cleared(screen)] + more;
    if more == [] {
      assert all == ops + [Cleared(screen)];
      SinceAfterOne(ops, Cleared(screen), screen);
    } else {
      var front, last := more[..|more| - 1], more[|more| - 1];
      NothingSinceClearing(ops, screen, front);
      assert all == (ops + [Cleared(screen)] + front) + [last];
      SinceAfterOne(ops + [Cleared(screen)] + front, last, screen);
    }
  }

  // ---------------------------------------------------------------- the log

  /** The events a rebuild reads: a task's checkpoints, one that does not decode, the
      asks written under its number, and anything else. A checkpoint whose text is not
      a record has no status. */
  datatype Event =
    | Checkpoint(task: nat, number: nat, status: Option<Status>)
    | Unreadable(task: nat)
    | Ask(task: nat, channel: string, sender: string)
    | Elsewhere

  predicate IsUnder(event: Event, task: nat) { !event.Elsewhere? && event.task == task }

  function Under(log: seq<Event>, task: nat): (events: seq<Event>)
    ensures forall e | e in events :: IsUnder(e, task)
  {
    if log == [] then []
    else
      var last := log[|log| - 1];
      Under(log[..|log| - 1], task) + (if IsUnder(last, task) then [last] else [])
  }

  /** The checkpoint that says where a task stands: the highest number, the later one
      of two. */
  function Newest(events: seq<Event>): (newest: Option<Event>)
    ensures newest.Some? ==> newest.value.Checkpoint?
  {
    if events == [] then None
    else
      var before, last := Newest(events[..|events| - 1]), events[|events| - 1];
      if last.Checkpoint? && (before.None? || last.number >= before.value.number) then Some(last) else before
  }

  function ScreenNamed(channel: string, sender: string): string { channel + ":" + sender }

  function ScreenOf(events: seq<Event>): Option<string> {
    if events == [] then None
    else if events[0].Ask? && events[0].channel != "" then Some(ScreenNamed(events[0].channel, events[0].sender))
    else ScreenOf(events[1..])
  }

  datatype NumberedTask = NumberedTask(number: nat, status: Status, interrupted: bool)

  function Pickup(number: nat, newest: Option<Event>): Option<NumberedTask> {
    if newest.None? || !newest.value.Checkpoint? || newest.value.status.None? then None
    else match newest.value.status.value
      case Done => None
      case Running => Some(NumberedTask(number, Stopped, true))
      case status => Some(NumberedTask(number, status, false))
  }

  function Stands(log: seq<Event>, number: nat): Option<NumberedTask> {
    Pickup(number, Newest(Under(log, number)))
  }

  function HighestTask(log: seq<Event>): (highest: nat)
    ensures forall n | n > highest :: Under(log, n) == []
  {
    if log == [] then 0
    else
      var rest, last := HighestTask(log[..|log| - 1]), log[|log| - 1];
      if !last.Elsewhere? && last.task > rest then last.task else rest
  }

  /** The tasks numbered one to the top that can be picked up, oldest first. */
  function StandingUpTo(log: seq<Event>, top: nat): seq<NumberedTask> {
    if top == 0 then []
    else StandingUpTo(log, top - 1) + (if Stands(log, top).Some? then [Stands(log, top).value] else [])
  }

  function Standing(log: seq<Event>): seq<NumberedTask> { StandingUpTo(log, HighestTask(log)) }

  function LastOnes<T>(s: seq<T>, most: nat): seq<T> { if |s| > most then s[|s| - most..] else s }

  function LookedAt(log: seq<Event>): seq<NumberedTask> { LastOnes(Standing(log), MAX_TASKS_LOOKED_BACK_AT) }

  predicate Rising(tasks: seq<NumberedTask>) {
    forall i, j | 0 <= i < j < |tasks| :: tasks[i].number < tasks[j].number
  }

  lemma {:induction false} StandingRises(log: seq<Event>, top: nat)
    ensures Rising(StandingUpTo(log, top))
    ensures forall t | t in StandingUpTo(log, top) :: 1 <= t.number <= top && Stands(log, t.number) == Some(t)
    ensures forall n | 1 <= n <= top && Stands(log, n).Some? :: Stands(log, n).value in StandingUpTo(log, top)
  {
    hide Stands, Pickup;
    if top > 0 {
      StandingRises(log, top - 1);
      StandsUnderItsNumber(log, top);
    }
  }

  lemma StandsUnderItsNumber(log: seq<Event>, n: nat)
    ensures Stands(log, n).Some? ==> Stands(log, n).value.number == n
  {
  }

  /** A start looks at the newest tasks that can be picked up, sixty-four at most: each
      is one, and every other is older than all of them. */
  lemma TheNewestAreLookedAt(log: seq<Event>, task: NumberedTask)
    requires task.number > 0 && Stands(log, task.number) == Some(task)
    ensures |LookedAt(log)| <= MAX_TASKS_LOOKED_BACK_AT && Rising(LookedAt(log))
    ensures task in LookedAt(log)
         || (|LookedAt(log)| == MAX_TASKS_LOOKED_BACK_AT
             && forall t | t in LookedAt(log) :: task.number < t.number && Stands(log, t.number) == Some(t))
  {
    hide StandingUpTo, Newest, Under, Pickup;
    var all := Standing(log);
    StandingRises(log, HighestTask(log));
    NoneStandsAbove(log, HighestTask(log), task.number);
    assert task in all;
    var k :| 0 <= k < |all| && all[k] == task;
    var from := |all| - |LookedAt(log)|;
    if k >= from {
      assert LookedAt(log)[k - from] == task;
    } else {
      forall t | t in LookedAt(log) ensures task.number < t.number && Stands(log, t.number) == Some(t) {
        assert t in all;
        var j :| 0 <= j < |LookedAt(log)| && LookedAt(log)[j] == t;
        assert all[from + j] == t;
      }
    }
  }

  lemma NoneStandsAbove(log: seq<Event>, top: nat, n: nat)
    requires forall m | m > top :: Under(log, m) == []
    ensures Stands(log, n).Some? ==> n <= top
  {
    hide Under;
  }

  // ---------------------------------------------------------------- rebuilding

  function RememberOne(log: seq<Event>, m: Memory, task: NumberedTask): Memory {
    match ScreenOf(Under(log, task.number))
    case None => m
    case Some(screen) => Remembered(m, screen, Ended(Some(task.number), task.status))
  }

  function RememberAll(log: seq<Event>, tasks: seq<NumberedTask>): Memory {
    if tasks == [] then EMPTY
    else RememberOne(log, RememberAll(log, tasks[..|tasks| - 1]), tasks[|tasks| - 1])
  }

  /** The newest of a list of tasks that came from one screen. */
  function LastFrom(log: seq<Event>, tasks: seq<NumberedTask>, screen: string): (last: Option<NumberedTask>)
    ensures last.Some? ==> last.value in tasks && ScreenOf(Under(log, last.value.number)) == Some(screen)
  {
    if tasks == [] then None
    else if ScreenOf(Under(log, tasks[|tasks| - 1].number)) == Some(screen) then Some(tasks[|tasks| - 1])
    else LastFrom(log, tasks[..|tasks| - 1], screen)
  }

  function EndedAs(task: NumberedTask): Ended { Ended(Some(task.number), task.status) }

  lemma {:induction false} LastFromIsHighest(log: seq<Event>, tasks: seq<NumberedTask>, screen: string, k: nat)
    requires Rising(tasks) && k < |tasks| && ScreenOf(Under(log, tasks[k].number)) == Some(screen)
    ensures var last := LastFrom(log, tasks, screen); last.Some? && tasks[k].number <= last.value.number
  {
    hide ScreenOf, Under;
    if k < |tasks| - 1 && ScreenOf(Under(log, tasks[|tasks| - 1].number)) != Some(screen) {
      LastFromIsHighest(log, tasks[..|tasks| - 1], screen, k);
    }
  }

  lemma {:induction false} RememberedIsTheLast(log: seq<Event>, tasks: seq<NumberedTask>, screen: string)
    requires |tasks| <= MAX_SCREENS
    ensures var m := RememberAll(log, tasks); var last := LastFrom(log, tasks, screen);
      && Sound(m) && |m.spokenLast| <= |tasks|
      && (screen in m.newest <==> last.Some?)
      && (screen in m.newest ==> m.newest[screen] == EndedAs(last.value))
  {
    hide ScreenOf, Under, Remembered;
    if tasks != [] {
      var front, task := tasks[..|tasks| - 1], tasks[|tasks| - 1];
      RememberedIsTheLast(log, front, screen);
      var from := ScreenOf(Under(log, task.number));
      if from.Some? {
        RememberingForgetsTheFirst(RememberAll(log, front), from.value, EndedAs(task));
      }
    }
  }

  /** The interrupted tasks that stand as their screen's newest, smallest first. */
  function InterruptedAmong(log: seq<Event>, m: Memory, tasks: seq<NumberedTask>): seq<nat> {
    if tasks == [] then []
    else
      var front, task := tasks[..|tasks| - 1], tasks[|tasks| - 1];
      InterruptedAmong(log, m, front) + (if IsNamed(log, m, task) then [task.number] else [])
  }

  predicate IsNamed(log: seq<Event>, m: Memory, task: NumberedTask) {
    var screen := ScreenOf(Under(log, task.number));
    task.interrupted && screen.Some? && screen.value in m.newest && m.newest[screen.value].task == Some(task.number)
  }

  function Rebuilt(log: seq<Event>): Memory { RememberAll(log, LookedAt(log)) }

  function InterruptedIn(log: seq<Event>): seq<nat> { InterruptedAmong(log, Rebuilt(log), LookedAt(log)) }

  /** After a start, each screen carries on its highest-numbered task among the newest
      that can be picked up, in the state its newest checkpoint says; a running one as
      stopped. A screen with no such task carries nothing on. */
  lemma EachScreenHasItsNewestTask(log: seq<Event>, screen: string)
    ensures Sound(Rebuilt(log))
    ensures screen in Rebuilt(log).newest
            <==> exists t | t in LookedAt(log) :: ScreenOf(Under(log, t.number)) == Some(screen)
    ensures screen in Rebuilt(log).newest ==>
      exists t | t in LookedAt(log) ::
        && ScreenOf(Under(log, t.number)) == Some(screen)
        && Rebuilt(log).newest[screen] == EndedAs(t) && Stands(log, t.number) == Some(t)
        && (forall u | u in LookedAt(log) && ScreenOf(Under(log, u.number)) == Some(screen) :: u.number <= t.number)
  {
    hide StandingUpTo, ScreenOf, Under, Stands, RememberAll, LastFrom, Sound;
    var tasks := LookedAt(log);
    StandingRises(log, HighestTask(log));
    assert Rising(tasks);
    RememberedIsTheLast(log, tasks, screen);
    var last := LastFrom(log, tasks, screen);
    forall u | u in tasks && ScreenOf(Under(log, u.number)) == Some(screen)
      ensures last.Some? && u.number <= last.value.number
    {
      var k :| 0 <= k < |tasks| && tasks[k] == u;
      LastFromIsHighest(log, tasks, screen, k);
    }
    if last.Some? {
      assert last.value in Standing(log);
    }
  }

  lemma PickedUpCanBeCarriedOn(log: seq<Event>, n: nat)
    ensures Stands(log, n).Some? ==> Stands(log, n).value.status in {Waiting, Stopped, Failed}
  {
    hide Newest, Under;
  }

  /** The first words a screen says after a start carry a task on exactly when it came
      from that screen and is the newest of those looked at that did; and they steer it
      unless the task was waiting for an answer or they only say to carry on. */
  lemma WhatAStartCarriesOn(log: seq<Event>, screen: string, said: string, task: nat)
    ensures CarryOn(Rebuilt(log), screen, said).0 == Some(task)
      <==> exists t | t in LookedAt(log) ::
        && t.number == task && ScreenOf(Under(log, t.number)) == Some(screen)
        && (forall u | u in LookedAt(log) && ScreenOf(Under(log, u.number)) == Some(screen) :: u.number <= t.number)
    ensures CarryOn(Rebuilt(log), screen, said).0 == Some(task) ==>
      (CarryOn(Rebuilt(log), screen, said).1
       <==> Stands(log, task).Some? && Stands(log, task).value.status != Waiting && !SaysCarryOn(said))
  {
    hide LookedAt, ScreenOf, Under, Stands, RememberAll, Sound, Rebuilt, SaysCarryOn;
    EachScreenHasItsNewestTask(log, screen);
    WhatIsCarriedOn(Rebuilt(log), screen, said, task);
    if screen in Rebuilt(log).newest {
      var t :| t in LookedAt(log) && ScreenOf(Under(log, t.number)) == Some(screen)
        && Rebuilt(log).newest[screen] == EndedAs(t) && Stands(log, t.number) == Some(t)
        && (forall u | u in LookedAt(log) && ScreenOf(Under(log, u.number)) == Some(screen) :: u.number <= t.number);
      PickedUpCanBeCarriedOn(log, t.number);
    }
  }

  // ---------------------------------------------------------------- starting again

  function LastCheckpoint(events: seq<Event>): (last: Option<Event>)
    ensures last.Some? ==> last.value.Checkpoint? || last.value.Unreadable?
  {
    if events == [] then None
    else
      var last := events[|events| - 1];
      if last.Checkpoint? || last.Unreadable? then Some(last) else LastCheckpoint(events[..|events| - 1])
  }

  function CheckpointCount(events: seq<Event>): nat {
    if events == [] then 0
    else CheckpointCount(events[1..]) + if events[0].Checkpoint? || events[0].Unreadable? then 1 else 0
  }

  /** A record loads when it has checkpoints, not too many, every one decodes, and the
      last one written is a record. */
  predicate Loads(events: seq<Event>) {
    && (forall e | e in events :: !e.Unreadable?)
    && CheckpointCount(events) <= MAX_CHECKPOINTS
    && LastCheckpoint(events).Some? && LastCheckpoint(events).value.Checkpoint?
    && LastCheckpoint(events).value.status.Some?
  }

  /** Marking a task stopped saves one more checkpoint, numbered after the last one
      written; it is left undone when the record does not load or the write fails. */
  function Marks(task: nat, events: seq<Event>, fails: bool): seq<Event> {
    if !fails && Loads(events)
    then [Checkpoint(task, LastCheckpoint(events).value.number + 1, Some(Stopped))]
    else []
  }

  /** When the mark decides: it was written, and no older checkpoint has a higher
      number. */
  predicate MarkDecides(events: seq<Event>, fails: bool) {
    && !fails && Loads(events)
    && (Newest(events).Some? ==> LastCheckpoint(events).value.number + 1 >= Newest(events).value.number)
  }

  function MarksLeft(log: seq<Event>, n: nat, fails: bool): seq<Event> {
    if n > 0 && Stands(log, n).Some? && Stands(log, n).value.interrupted
    then Marks(n, Under(log, n), fails) else []
  }

  /** The log a start leaves: under every number what was there, and the mark of a task
      it found running. The order of marks of different tasks is anyone's. */
  ghost predicate LeftBehind(log: seq<Event>, after: seq<Event>, fails: set<nat>) {
    forall n: nat :: Under(after, n) == Under(log, n) + MarksLeft(log, n, n in fails)
  }

  lemma {:induction false} MarksKeepTheScreen(events: seq<Event>, more: seq<Event>)
    requires forall e | e in more :: !e.Ask?
    ensures ScreenOf(events + more) == ScreenOf(events)
  {
    if events != [] {
      assert (events + more)[1..] == events[1..] + more;
      MarksKeepTheScreen(events[1..], more);
    } else {
      assert events + more == more;
      if more != [] {
        MarksKeepTheScreen([], more[1..]);
        assert [] + more[1..] == more[1..];
      }
    }
  }

  lemma TheMarkDecides(log: seq<Event>, after: seq<Event>, n: nat, fails: bool)
    requires n > 0 && Under(after, n) == Under(log, n) + MarksLeft(log, n, fails)
    ensures Stands(after, n) ==
      if Stands(log, n).Some? && Stands(log, n).value.interrupted && MarkDecides(Under(log, n), fails)
      then Some(Stands(log, n).value.(interrupted := false)) else Stands(log, n)
    ensures ScreenOf(Under(after, n)) == ScreenOf(Under(log, n))
  {
    hide Under, Loads, LastCheckpoint, CheckpointCount, ScreenOf;
    var events, marks := Under(log, n), MarksLeft(log, n, fails);
    MarksKeepTheScreen(events, marks);
    if marks != [] {
      assert (events + marks)[..|events + marks| - 1] == events;
    } else {
      assert events + marks == events;
    }
  }

  /** The same tasks in the same state, but for the marks that decided. */
  function Settled(log: seq<Event>, tasks: seq<NumberedTask>, fails: set<nat>): seq<NumberedTask> {
    seq(|tasks|, k requires 0 <= k < |tasks| =>
      if tasks[k].interrupted && MarkDecides(Under(log, tasks[k].number), tasks[k].number in fails)
      then tasks[k].(interrupted := false) else tasks[k])
  }

  lemma {:induction false} StandingAgain(log: seq<Event>, after: seq<Event>, fails: set<nat>, top: nat)
    requires LeftBehind(log, after, fails)
    ensures StandingUpTo(after, top) == Settled(log, StandingUpTo(log, top), fails)
  {
    hide Stands, MarkDecides, Under, MarksLeft;
    if top > 0 {
      StandingAgain(log, after, fails, top - 1);
      TheMarkDecides(log, after, top, top in fails);
      StandsUnderItsNumber(log, top);
    }
  }

  lemma {:induction false} NothingStandsPastTheTop(log: seq<Event>, top: nat, more: nat)
    requires forall n | n > top :: Under(log, n) == []
    ensures StandingUpTo(log, top + more) == StandingUpTo(log, top)
  {
    if more > 0 {
      NothingStandsPastTheTop(log, top, more - 1);
      NoneStandsAbove(log, top, top + more);
    }
  }

  lemma StandingAfterAStart(log: seq<Event>, after: seq<Event>, fails: set<nat>)
    requires LeftBehind(log, after, fails)
    ensures Standing(after) == Settled(log, Standing(log), fails)
  {
    hide StandingUpTo, Settled, MarksLeft, HighestTask, Under;
    var a, b := HighestTask(log), HighestTask(after);
    NothingStandsPastTheTop(log, a, b);
    NothingStandsPastTheTop(after, b, a);
    StandingAgain(log, after, fails, a + b);
    assert b + a == a + b;
  }

  lemma {:induction false} RememberSettled(log: seq<Event>, after: seq<Event>, fails: set<nat>, tasks: seq<NumberedTask>)
    requires forall t | t in tasks :: ScreenOf(Under(after, t.number)) == ScreenOf(Under(log, t.number))
    ensures RememberAll(after, Settled(log, tasks, fails)) == RememberAll(log, tasks)
  {
    hide ScreenOf, Under, MarkDecides, Remembered;
    if tasks != [] {
      var front, settled := tasks[..|tasks| - 1], Settled(log, tasks, fails);
      RememberSettled(log, after, fails, front);
      assert settled[..|tasks| - 1] == Settled(log, front, fails);
      assert tasks[|tasks| - 1] in tasks;
    }
  }

  lemma {:induction false} NamedSettled(log: seq<Event>, after: seq<Event>, fails: set<nat>, m: Memory,
      tasks: seq<NumberedTask>, n: nat)
    requires forall t | t in tasks :: ScreenOf(Under(after, t.number)) == ScreenOf(Under(log, t.number))
    ensures n in InterruptedAmong(after, m, Settled(log, tasks, fails))
            <==> n in InterruptedAmong(log, m, tasks) && !MarkDecides(Under(log, n), n in fails)
  {
    hide ScreenOf, Under, MarkDecides;
    if tasks != [] {
      var front, settled := tasks[..|tasks| - 1], Settled(log, tasks, fails);
      NamedSettled(log, after, fails, m, front, n);
      assert settled[..|tasks| - 1] == Settled(log, front, fails);
      assert tasks[|tasks| - 1] in tasks;
    }
  }

  /** Starting again on the log a start left gives every screen the same task in the
      same state, and names a task interrupted again exactly when its mark did not
      decide. */
  lemma StartingAgainIsTheSame(log: seq<Event>, after: seq<Event>, fails: set<nat>, n: nat)
    requires LeftBehind(log, after, fails)
    ensures Rebuilt(after) == Rebuilt(log)
    ensures n in InterruptedIn(after) <==> n in InterruptedIn(log) && !MarkDecides(Under(log, n), n in fails)
  {
    hide StandingUpTo, Stands, MarkDecides, Under, MarksLeft, ScreenOf, RememberAll, InterruptedAmong, HighestTask;
    var tasks := LookedAt(log);
    StandingAfterAStart(log, after, fails);
    assert LookedAt(after) == Settled(log, tasks, fails);
    StandingRises(log, HighestTask(log));
    forall t | t in tasks ensures ScreenOf(Under(after, t.number)) == ScreenOf(Under(log, t.number)) {
      assert t in Standing(log);
      TheMarkDecides(log, after, t.number, t.number in fails);
    }
    RememberSettled(log, after, fails, tasks);
    NamedSettled(log, after, fails, Rebuilt(log), tasks, n);
  }

  /** In a log whose checkpoints all decode as records, numbered upwards as they were
      saved, every mark that is written decides. */
  lemma {:induction false} OrderlyCheckpointsNewestIsLast(events: seq<Event>)
    requires forall e | e in events :: !e.Unreadable?
    requires forall i, j | 0 <= i < j < |events| && events[i].Checkpoint? && events[j].Checkpoint? ::
      events[i].number < events[j].number
    ensures Newest(events) == LastCheckpoint(events)
  {
    if events != [] {
      var front, last := events[..|events| - 1], events[|events| - 1];
      OrderlyCheckpointsNewestIsLast(front);
      NewestIsAmong(front);
    }
  }

  lemma {:induction false} NewestIsAmong(events: seq<Event>)
    ensures Newest(events).Some? ==> Newest(events).value in events
  {
    if events != [] {
      NewestIsAmong(events[..|events| - 1]);
    }
  }

  lemma OrderlyMarksDecide(events: seq<Event>)
    requires forall e | e in events :: !e.Unreadable? && (e.Checkpoint? ==> e.status.Some?)
    requires forall i, j | 0 <= i < j < |events| && events[i].Checkpoint? && events[j].Checkpoint? ::
      events[i].number < events[j].number
    requires Newest(events).Some? && CheckpointCount(events) <= MAX_CHECKPOINTS
    ensures MarkDecides(events, false)
  {
    hide CheckpointCount;
    OrderlyCheckpointsNewestIsLast(events);
    NewestIsAmong(events);
  }

  /** A record with one checkpoint that does not decode is never marked: every start
      finds it running and names it again. */
  lemma AnUndecodableCheckpointIsNeverMarked(task: nat, fails: set<nat>)
    requires task > 0
    ensures var log := [Ask(task, "terminal", "terminal"), Unreadable(task), Checkpoint(task, 1, Some(Running))];
      && LeftBehind(log, log, fails) && Stands(log, task) == Some(NumberedTask(task, Stopped, true))
      && InterruptedIn(log) == [task]
  {
    hide LastCheckpoint, CheckpointCount;
    var log := [Ask(task, "terminal", "terminal"), Unreadable(task), Checkpoint(task, 1, Some(Running))];
    forall n: nat ensures Under(log, n) == if n == task then log else [] {
      assert log[..2][..1] == log[..1] && log[..1][..0] == [];
      assert Under(log[..1], n) == if n == task then log[..1] else [];
      assert Under(log[..2], n) == if n == task then log[..2] else [];
    }
    var first, second := log[..1], log[..2];
    assert second[..1] == first && first[..0] == [];
    assert Newest(first) == None && Newest(second) == None;
    assert log[..|log| - 1] == second && Newest(log) == Some(log[2]);
    assert log[1] in log;
    forall n: nat ensures Under(log, n) + MarksLeft(log, n, n in fails) == Under(log, n) {
    }
    OneTaskIsNamed(log, task, "terminal", "terminal");
  }

  /** A log of one interrupted task names it. */
  lemma OneTaskIsNamed(log: seq<Event>, task: nat, channel: string, sender: string)
    requires task > 0 && Stands(log, task) == Some(NumberedTask(task, Stopped, true))
    requires forall n: nat :: n != task ==> Under(log, n) == []
    requires ScreenOf(Under(log, task)) == Some(ScreenNamed(channel, sender))
    ensures InterruptedIn(log) == [task]
  {
    hide Under, ScreenOf, HighestTask, StandingUpTo;
    var all := Standing(log);
    StandingRises(log, HighestTask(log));
    NoneStandsAbove(log, HighestTask(log), task);
    var one := NumberedTask(task, Stopped, true);
    assert one in all;
    forall t | t in all ensures t == one {
      NothingStandsWithoutEvents(log, t.number);
    }
    OnlyOne(all, one);
    assert LookedAt(log) == [one] && [one][..0] == [];
    RememberedIsTheLast(log, [one], ScreenNamed(channel, sender));
    assert IsNamed(log, Rebuilt(log), one);
    assert InterruptedAmong(log, Rebuilt(log), []) == [];
  }

  lemma OnlyOne(tasks: seq<NumberedTask>, one: NumberedTask)
    requires Rising(tasks) && one in tasks && forall t | t in tasks :: t == one
    ensures tasks == [one]
  {
    assert forall k | 0 <= k < |tasks| :: tasks[k] in tasks;
    var second := tasks[if |tasks| > 1 then 1 else 0];
    assert second in tasks && tasks[0].number == second.number;
  }

  lemma NothingStandsWithoutEvents(log: seq<Event>, n: nat)
    ensures Under(log, n) == [] ==> Stands(log, n).None?
  {
  }

  // ---------------------------------------------------------------- the running program

  class ScreenTasks {
    var newest: map<string, Ended>
    var spokenLast: seq<string>
    var interrupted: seq<nat>

    ghost function Contents(): Memory
      reads this
    {
      Memory(newest, spokenLast)
    }

    constructor ()
      ensures Contents() == EMPTY && interrupted == []
    {
      newest, spokenLast, interrupted := map[], [], [];
    }

    method Forget(screen: string)
      modifies this`newest, this`spokenLast
      ensures Contents() == Forgotten(old(Contents()), screen)
    {
      newest, spokenLast := newest - {screen}, Without(spokenLast, screen);
    }

    method Remember(screen: string, ended: Ended)
      modifies this`newest, this`spokenLast
      ensures Contents() == Remembered(old(Contents()), screen, ended)
    {
      if screen !in newest {
        spokenLast := spokenLast + [screen];
      }
      newest := newest[screen := ended];
      while |spokenLast| > MAX_SCREENS
        invariant Capped(Contents()) == Remembered(old(Contents()), screen, ended)
      {
        newest := newest - {spokenLast[0]};
        spokenLast := spokenLast[1..];
      }
    }

    method TaskToCarryOn(screen: string, said: string) returns (task: Option<nat>, steers: bool)
      ensures (task, steers) == CarryOn(Contents(), screen, said)
    {
      if screen !in newest || newest[screen].task.None? {
        return None, false;
      }
      match newest[screen].status {
        case Waiting => return newest[screen].task, false;
        case Stopped => return newest[screen].task, !SaysCarryOn(said);
        case Failed => return newest[screen].task, !SaysCarryOn(said);
        case _ => return None, false;
      }
    }

    /** The numbers of the interrupted tasks that stand as their screen's newest, one
        for each such screen, in order, whatever order the map gives its screens in. */
    method InterruptedNewest(wasInterrupted: set<nat>) returns (named: seq<nat>)
      ensures InOrder(named, ByKey(Itself))
      ensures forall n: nat :: multiset(named)[n] == if n in wasInterrupted then |ScreensWith(newest, n)| else 0
    {
      named := [];
      var seen: map<string, Ended> := map[];
      var todo := newest.Keys;
      assert forall n: nat :: ScreensWith(seen, n) == {};
      while todo != {}
        invariant todo <= newest.Keys && seen == newest - todo
        invariant forall n: nat :: multiset(named)[n] == if n in wasInterrupted then |ScreensWith(seen, n)| else 0
        decreases todo
      {
        var screen :| screen in todo;
        var held := newest[screen];
        if held.task.Some? && held.task.value in wasInterrupted {
          named := named + [held.task.value];
        }
        OneMoreScreen(seen, screen, held);
        todo := todo - {screen};
        seen := seen[screen := held];
      }
      assert seen == newest;
      NumbersAreAnOrder();
      SortPutsInOrder(named, ByKey(Itself));
      named := Sort(named, ByKey(Itself));
    }
  }

  /** The screens whose newest task is this one. */
  function ScreensWith(newest: map<string, Ended>, task: nat): set<string> {
    set screen | screen in newest && newest[screen].task == Some(task)
  }

  lemma OneMoreScreen(seen: map<string, Ended>, screen: string, held: Ended)
    requires screen !in seen
    ensures forall n: nat :: |ScreensWith(seen[screen := held], n)|
                        == |ScreensWith(seen, n)| + if held.task == Some(n) then 1 else 0
  {
    forall n: nat ensures |ScreensWith(seen[screen := held], n)|
                     == |ScreensWith(seen, n)| + if held.task == Some(n) then 1 else 0
    {
      assert ScreensWith(seen[screen := held], n)
          == ScreensWith(seen, n) + if held.task == Some(n) then {screen} else {};
    }
  }

  lemma NumbersAreAnOrder()
    ensures IsOrder(ByKey(Itself))
  {
  }
}
