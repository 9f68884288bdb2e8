/** How a question put in front of every screen gets its one answer. Every step is
    one critical section, or one send or receive on a channel, so a run is any
    interleaving of callers, screens, cancels, deadlines and late answers. */
module Preview {
  import opened Text
  import opened Wire

  // ---------------------------------------------------------------- what screens send

  datatype Answer = Once | Always | Reject(reason: string)

  datatype FromScreen =
    | Approve(id: string, text: string)
    | Deny(id: string, reason: string)
    | Cancel(id: string, reason: string)

  const APPROVE_ALWAYS := "always"
  const CANCELLED_REASON :=
    Join(["the question was cancelled", "at the terminal,", "so nothing was run"], " ")

  /** The letter `strings.EqualFold` compares, for the letters of "always"; the long s
      is one of the ways to write an s. */
  function FoldedLetter(c: char): char {
    if 'A' <= c <= 'Z' then (c as int + 32) as char
    else if c == '\U{17F}' then 's'
    else c
  }

  predicate SameFolded(a: string, b: string) {
    |a| == |b| && forall k | 0 <= k < |a| :: FoldedLetter(a[k]) == FoldedLetter(b[k])
  }

  function ApprovalIn(text: string): Answer {
    if SameFolded(TrimSpace(text), APPROVE_ALWAYS) then Always else Once
  }

  /** The six letters of "always", each in either case, or an s the long way. */
  predicate SpellsAlways(word: string) {
    && |word| == 6
    && word[0] in {'a', 'A'} && word[1] in {'l', 'L'} && word[2] in {'w', 'W'}
    && word[3] in {'a', 'A'} && word[4] in {'y', 'Y'} && word[5] in {'s', 'S', '\U{17F}'}
  }

  /** An approve is for always exactly when, with the space around it taken away, it says
      so; any other approve, with nothing in it above all, is for this once. */
  lemma AnApproveIsOnceUnlessItSaysAlways(before: string, word: string, after: string)
    requires AllSpace(before) && AllSpace(after)
    requires word != "" ==> !IsSpace(word[0]) && !IsSpace(word[|word| - 1])
    ensures ApprovalIn(before + word + after) == if SpellsAlways(word) then Always else Once
  {
    hide TrimSpace;
    var text := before + word + after;
    var b, a := TrimSpaceTakesOnlySpace(text);
    TrimmedOneWay(before, word, after, b, TrimSpace(text), a);
    assert SameFolded(word, APPROVE_ALWAYS) <==> SpellsAlways(word) by { FoldedSpells(word); }
  }

  lemma FoldedSpells(word: string)
    ensures SameFolded(word, APPROVE_ALWAYS) <==> SpellsAlways(word)
  {
    var always := APPROVE_ALWAYS;
    assert forall k | 0 <= k < 6 :: FoldedLetter(always[k]) == always[k];
    if |word| == 6 {
      assert SameFolded(word, always) <==>
        && FoldedLetter(word[0]) == 'a' && FoldedLetter(word[1]) == 'l' && FoldedLetter(word[2]) == 'w'
        && FoldedLetter(word[3]) == 'a' && FoldedLetter(word[4]) == 'y' && FoldedLetter(word[5]) == 's';
    }
  }

  function AnswerIn(message: FromScreen): Answer {
    match message
    case Approve(_, text) => ApprovalIn(text)
    case Deny(_, reason) => Reject(reason)
    case Cancel(_, reason) => Reject(if TrimSpace(reason) == "" then CANCELLED_REASON else reason)
  }

  // ---------------------------------------------------------------- the machine

  /** An answer on its way to one question, and the step at which a screen looked that
      question up. */
  datatype Delivery = Delivery(to: nat, answer: Answer, at: nat)

  datatype Stage = Numbered | Registered | Waiting | Leaving | Returned

  datatype Outcome =
    | Refused
    | NotShown(failed: bool)
    | Answered(delivery: Delivery)
    | NoAnswer(cancelled: bool)

  /** One call of `ShowPreview`. `own` is the count its number was made from when the
      caller gave none; `slot` is its channel of one; `offered` is the history of every
      answer a screen tried to put there. */
  datatype Asker = Asker(
    number: string,
    own: Option<nat>,
    stage: Stage,
    slot: Option<Delivery>,
    offered: seq<Delivery>,
    outcome: Option<Outcome>)

  /** `hands` is the answer each screen holds between finding the question and putting
      the answer in its channel; `steps` counts the run so far. */
  datatype State = State(
    previews: map<string, nat>,
    asked: nat,
    askers: seq<Asker>,
    hands: map<nat, Delivery>,
    steps: nat)

  const START := State(map[], 0, [], map[], 0)

  datatype Step =
    | Begin(id: string)
    | Register(asker: nat)
    | Show(asker: nat, shown: nat, failed: bool)
    | Receive(asker: nat)
    | GiveUp(asker: nat, cancelled: bool)
    | Stop(asker: nat)
    | LookUp(screen: nat, message: FromScreen)
    | Offer(screen: nat)

  predicate IsAt(s: State, i: nat, stage: Stage) {
    i < |s.askers| && s.askers[i].stage == stage
  }

  predicate Enabled(s: State, step: Step) {
    match step
    case Begin(_) => true
    case Register(i) => IsAt(s, i, Numbered)
    case Show(i, _, _) => IsAt(s, i, Registered)
    case Receive(i) => IsAt(s, i, Waiting) && s.askers[i].slot.Some?
    case GiveUp(i, _) => IsAt(s, i, Waiting)
    case Stop(i) => IsAt(s, i, Leaving)
    case LookUp(screen, _) => screen !in s.hands
    case Offer(screen) => screen in s.hands && s.hands[screen].to < |s.askers|
  }

  function Concluded(asker: Asker, outcome: Outcome): Asker {
    asker.(stage := Leaving, outcome := Some(outcome))
  }

  function Offered(asker: Asker, delivery: Delivery): Asker {
    asker.(slot := if asker.slot.None? then Some(delivery) else asker.slot,
           offered := asker.offered + [delivery])
  }

  function OwnNumber(count: nat): string { "a" + Itoa(count) }

  function NewAsker(s: State, id: string): Asker {
    if id == ""
    then Asker(OwnNumber(s.asked + 1), Some(s.asked + 1), Numbered, None, [], None)
    else Asker(id, None, Numbered, None, [], None)
  }

  function Do(s: State, step: Step): State
    requires Enabled(s, step)
  {
    var after := s.(steps := s.steps + 1);
    match step
    case Begin(id) =>
      after.(askers := s.askers + [NewAsker(s, id)], asked := if id == "" then s.asked + 1 else s.asked)
    case Register(i) =>
      var asker := s.askers[i];
      if asker.number in s.previews
      then after.(askers := s.askers[i := asker.(stage := Returned, outcome := Some(Refused))])
      else after.(previews := s.previews[asker.number := i], askers := s.askers[i := asker.(stage := Registered)])
    case Show(i, shown, failed) =>
      var asker := s.askers[i];
      after.(askers := s.askers[i :=
        if failed || shown == 0 then Concluded(asker, NotShown(failed)) else asker.(stage := Waiting)])
    case Receive(i) =>
      var asker := s.askers[i];
      after.(askers := s.askers[i := Concluded(asker.(slot := None), Answered(asker.slot.value))])
    case GiveUp(i, cancelled) =>
      after.(askers := s.askers[i := Concluded(s.askers[i], NoAnswer(cancelled))])
    case Stop(i) =>
      after.(previews := s.previews - {s.askers[i].number},
             askers := s.askers[i := s.askers[i].(stage := Returned)])
    case LookUp(screen, message) =>
      if message.id in s.previews
      then after.(hands := s.hands[screen := Delivery(s.previews[message.id], AnswerIn(message), s.steps)])
      else after
    case Offer(screen) =>
      var delivery := s.hands[screen];
      after.(hands := s.hands - {screen},
             askers := s.askers[delivery.to := Offered(s.askers[delivery.to], delivery)])
  }

  /** What the caller is told: the answer, and whether an error comes with it. */
  function Told(outcome: Outcome): (Answer, bool) {
    match outcome
    case Refused => (Reject(""), true)
    case NotShown(failed) => (Reject(""), failed)
    case Answered(delivery) => (delivery.answer, false)
    case NoAnswer(cancelled) => (Reject(""), cancelled)
  }

  // ---------------------------------------------------------------- what every step keeps

  predicate IsRegistered(asker: Asker) {
    asker.stage.Registered? || asker.stage.Waiting? || asker.stage.Leaving?
  }

  /** The map of waiting questions is exactly the questions that are registered. */
  predicate NumbersAreTheirs(s: State) {
    && (forall id | id in s.previews ::
          s.previews[id] < |s.askers| && s.askers[s.previews[id]].number == id
          && IsRegistered(s.askers[s.previews[id]]))
    && (forall i | 0 <= i < |s.askers| && IsRegistered(s.askers[i]) ::
          s.askers[i].number in s.previews && s.previews[s.askers[i].number] == i)
  }

  function First(offered: seq<Delivery>): Option<Delivery> {
    if offered == [] then None else Some(offered[0])
  }

  /** Until it is received, the channel holds the first answer offered, and the answer
      received is that one. */
  predicate FirstIsKept(asker: Asker) {
    && (asker.stage in {Numbered, Registered, Waiting} ==> asker.slot == First(asker.offered) && asker.outcome.None?)
    && (asker.stage in {Leaving, Returned} ==> asker.outcome.Some?)
    && (asker.outcome.Some? && asker.outcome.value.Answered? ==>
          Some(asker.outcome.value.delivery) == First(asker.offered))
  }

  predicate FirstsAreKept(s: State) {
    forall i | 0 <= i < |s.askers| :: FirstIsKept(s.askers[i])
  }

  predicate OwnNumbersAreCounted(s: State) {
    && (forall i | 0 <= i < |s.askers| && s.askers[i].own.Some? ::
          s.askers[i].number == OwnNumber(s.askers[i].own.value) && s.askers[i].own.value <= s.asked)
    && (forall i, j | 0 <= i < j < |s.askers| && s.askers[i].own.Some? && s.askers[j].own.Some? ::
          s.askers[i].own.value < s.askers[j].own.value)
  }

  /** A question, once there, keeps its number, and only its own steps register it. */
  lemma RegisteringStaysPut(s: State, t: State)
    requires NumbersAreTheirs(s) && t.previews == s.previews && |s.askers| <= |t.askers|
    requires forall i | 0 <= i < |s.askers| ::
      t.askers[i].number == s.askers[i].number && (IsRegistered(t.askers[i]) <==> IsRegistered(s.askers[i]))
    requires forall i | |s.askers| <= i < |t.askers| :: !IsRegistered(t.askers[i])
    ensures NumbersAreTheirs(t)
  {
    hide IsRegistered;
  }

  lemma RegisterKeepsNumbers(s: State, i: nat)
    requires NumbersAreTheirs(s) && Enabled(s, Register(i))
    ensures NumbersAreTheirs(Do(s, Register(i)))
  {
    if s.askers[i].number in s.previews {
      RegisteringStaysPut(s, Do(s, Register(i)));
    }
  }

  lemma StopKeepsNumbers(s: State, i: nat)
    requires NumbersAreTheirs(s) && Enabled(s, Stop(i))
    ensures NumbersAreTheirs(Do(s, Stop(i)))
  {
  }

  lemma NumbersStayTheirs(s: State, step: Step)
    requires NumbersAreTheirs(s) && Enabled(s, step)
    ensures NumbersAreTheirs(Do(s, step))
  {
    hide AnswerIn, OwnNumber, NumbersAreTheirs;
    match step {
      case Register(i) => RegisterKeepsNumbers(s, i);
      case Stop(i) => StopKeepsNumbers(s, i);
      case _ => RegisteringStaysPut(s, Do(s, step));
    }
  }

  lemma FirstsStayKept(s: State, step: Step)
    requires FirstsAreKept(s) && Enabled(s, step)
    ensures FirstsAreKept(Do(s, step))
  {
    hide AnswerIn, OwnNumber;
  }

  lemma OwnNumbersStayCounted(s: State, step: Step)
    requires OwnNumbersAreCounted(s) && Enabled(s, step)
    ensures OwnNumbersAreCounted(Do(s, step))
  {
    hide AnswerIn, OwnNumber;
  }

  // ---------------------------------------------------------------- runs

  predicate IsRun(run: seq<Step>)
    decreases |run|, 0
  {
    run == [] || (IsRun(run[..|run| - 1]) && Enabled(After(run[..|run| - 1]), run[|run| - 1]))
  }

  function After(run: seq<Step>): State
    requires IsRun(run)
    decreases |run|, 1
  {
    if run == [] then START else Do(After(run[..|run| - 1]), run[|run| - 1])
  }

  lemma {:induction false} BeginningsAreRuns(run: seq<Step>, n: nat)
    requires IsRun(run) && n <= |run|
    ensures IsRun(run[..n])
  {
    if n == |run| {
      assert run[..n] == run;
    } else {
      var before := run[..|run| - 1];
      BeginningsAreRuns(before, n);
      assert before[..n] == run[..n];
    }
  }

  lemma {:induction false} EveryRunIsSound(run: seq<Step>)
    requires IsRun(run)
    ensures NumbersAreTheirs(After(run)) && FirstsAreKept(After(run)) && OwnNumbersAreCounted(After(run))
    ensures After(run).steps == |run|
  {
    if run != [] {
      var before, step := run[..|run| - 1], run[|run| - 1];
      EveryRunIsSound(before);
      NumbersStayTheirs(After(before), step);
      FirstsStayKept(After(before), step);
      OwnNumbersStayCounted(After(before), step);
    }
  }

  /** A screen sent this answer at that step of the run, and at that moment the
      question it found under the number it named was this one. */
  ghost predicate CameFrom(run: seq<Step>, delivery: Delivery)
    requires IsRun(run)
  {
    && delivery.at < |run| && run[delivery.at].LookUp?
    && IsRun(run[..delivery.at])
    && var found, message := After(run[..delivery.at]), run[delivery.at].message;
    && message.id in found.previews && found.previews[message.id] == delivery.to
    && AnswerIn(message) == delivery.answer
    && delivery.to < |After(run).askers| && After(run).askers[delivery.to].number == message.id
  }

  ghost predicate AnswersCameFromScreens(run: seq<Step>)
    requires IsRun(run)
  {
    var s := After(run);
    && (forall screen | screen in s.hands :: CameFrom(run, s.hands[screen]))
    && (forall i, k | 0 <= i < |s.askers| && 0 <= k < |s.askers[i].offered| ::
          s.askers[i].offered[k].to == i && CameFrom(run, s.askers[i].offered[k]))
  }

  lemma NumbersAreKept(s: State, step: Step)
    requires Enabled(s, step)
    ensures |s.askers| <= |Do(s, step).askers|
    ensures forall i | 0 <= i < |s.askers| :: Do(s, step).askers[i].number == s.askers[i].number
  {
    hide AnswerIn, OwnNumber;
  }

  lemma ItStillCameFrom(run: seq<Step>, delivery: Delivery)
    requires IsRun(run) && run != [] && CameFrom(run[..|run| - 1], delivery)
    ensures CameFrom(run, delivery)
  {
    hide Do, AnswerIn;
    var before := run[..|run| - 1];
    assert before[..delivery.at] == run[..delivery.at];
    NumbersAreKept(After(before), run[|run| - 1]);
  }

  lemma LookUpFinds(s: State, screen: nat, message: FromScreen)
    requires NumbersAreTheirs(s) && Enabled(s, LookUp(screen, message)) && message.id in s.previews
    ensures var t := Do(s, LookUp(screen, message)); var to := s.previews[message.id];
      && screen in t.hands && t.hands[screen] == Delivery(to, AnswerIn(message), s.steps)
      && t.askers == s.askers && to < |s.askers| && s.askers[to].number == message.id
  {
    hide AnswerIn, OwnNumber;
  }

  lemma LookedUpJustNow(run: seq<Step>)
    requires IsRun(run) && run != [] && run[|run| - 1].LookUp?
    requires run[|run| - 1].message.id in After(run[..|run| - 1]).previews
    ensures run[|run| - 1].screen in After(run).hands
    ensures CameFrom(run, After(run).hands[run[|run| - 1].screen])
  {
    hide AnswerIn, NumbersAreTheirs, FirstsAreKept, OwnNumbersAreCounted, Do;
    var before := run[..|run| - 1];
    EveryRunIsSound(before);
    LookUpFinds(After(before), run[|run| - 1].screen, run[|run| - 1].message);
    assert run[..|before|] == before;
  }

  /** A step moves an answer only from a screen's message to its hand, and from there
      to the question it was for. */
  lemma WhereAnswersGo(s: State, step: Step, t: State)
    requires Enabled(s, step) && t == Do(s, step)
    ensures forall screen | screen in t.hands ::
      || (screen in s.hands && t.hands[screen] == s.hands[screen])
      || (step.LookUp? && step.screen == screen && step.message.id in s.previews)
    ensures forall i, k | 0 <= i < |t.askers| && 0 <= k < |t.askers[i].offered| ::
      || (i < |s.askers| && k < |s.askers[i].offered| && t.askers[i].offered[k] == s.askers[i].offered[k])
      || (step.Offer? && t.askers[i].offered[k] == s.hands[step.screen] && s.hands[step.screen].to == i)
  {
    hide AnswerIn, OwnNumber;
  }

  lemma {:induction false} EveryAnswerCameFromAScreen(run: seq<Step>)
    requires IsRun(run)
    ensures AnswersCameFromScreens(run)
  {
    hide CameFrom, AnswerIn, Do;
    if run != [] {
      var before, step := run[..|run| - 1], run[|run| - 1];
      var s, after := After(before), After(run);
      WhereAnswersGo(s, step, after);
      EveryAnswerCameFromAScreen(before);
      forall screen | screen in after.hands ensures CameFrom(run, after.hands[screen]) {
        if screen in s.hands && after.hands[screen] == s.hands[screen] {
          ItStillCameFrom(run, s.hands[screen]);
        } else {
          LookedUpJustNow(run);
        }
      }
      forall i, k | 0 <= i < |after.askers| && 0 <= k < |after.askers[i].offered|
        ensures after.askers[i].offered[k].to == i && CameFrom(run, after.askers[i].offered[k])
      {
        var offer := after.askers[i].offered[k];
        if i < |s.askers| && k < |s.askers[i].offered| && offer == s.askers[i].offered[k] {
          ItStillCameFrom(run, s.askers[i].offered[k]);
        } else {
          ItStillCameFrom(run, s.hands[step.screen]);
        }
      }
    }
  }

  // ---------------------------------------------------------------- what the protocol promises

  /** Any answer a caller gets was sent by a screen that found that very question
      under its number while it was registered: none crosses to a later question that
      uses the number again. */
  lemma AnAnswerIsToThatVeryQuestion(run: seq<Step>, i: nat)
    requires IsRun(run) && i < |After(run).askers|
    requires After(run).askers[i].outcome.Some? && After(run).askers[i].outcome.value.Answered?
    ensures var given := After(run).askers[i].outcome.value.delivery;
      && given.at < |run| && run[given.at].LookUp? && AnswerIn(run[given.at].message) == given.answer
      && IsRun(run[..given.at])
      && var found := After(run[..given.at]); var number := After(run).askers[i].number;
      && run[given.at].message.id == number
      && number in found.previews && found.previews[number] == i
      && i < |found.askers| && found.askers[i].number == number && IsRegistered(found.askers[i])
  {
    hide AnswerIn, Do;
    var given := After(run).askers[i].outcome.value.delivery;
    EveryRunIsSound(run);
    EveryAnswerCameFromAScreen(run);
    assert FirstIsKept(After(run).askers[i]);
    assert CameFrom(run, After(run).askers[i].offered[0]);
    EveryRunIsSound(run[..given.at]);
  }

  /** A yes needs an approve: no deny, cancel, deadline, missing screen, refused number
      or failure ever comes back as one. */
  lemma AYesWasApproved(run: seq<Step>, i: nat)
    requires IsRun(run) && i < |After(run).askers|
    requires After(run).askers[i].outcome.Some? && !Told(After(run).askers[i].outcome.value).0.Reject?
    ensures var outcome := After(run).askers[i].outcome.value;
      && outcome.Answered? && outcome.delivery.at < |run| && run[outcome.delivery.at].LookUp?
      && var message := run[outcome.delivery.at].message;
      && message.Approve? && message.id == After(run).askers[i].number
      && Told(outcome) == (ApprovalIn(message.text), false)
  {
    hide ApprovalIn, Do, IsRegistered;
    AnAnswerIsToThatVeryQuestion(run, i);
  }

  /** The first answer any screen hands over is the one that counts. */
  lemma TheFirstAnswerWins(run: seq<Step>, i: nat)
    requires IsRun(run) && i < |After(run).askers|
    ensures var asker := After(run).askers[i];
      && (asker.outcome.Some? && asker.outcome.value.Answered? ==>
            asker.offered != [] && asker.outcome.value.delivery == asker.offered[0])
      && (asker.stage.Waiting? && asker.offered != [] ==>
            && Enabled(After(run), Receive(i))
            && Do(After(run), Receive(i)).askers[i].outcome == Some(Answered(asker.offered[0])))
  {
    EveryRunIsSound(run);
    assert FirstIsKept(After(run).askers[i]);
  }

  /** Two questions waiting under one number are one question. */
  lemma NoTwoWaitUnderOneNumber(run: seq<Step>, i: nat, j: nat)
    requires IsRun(run) && i < |After(run).askers| && j < |After(run).askers|
    requires IsRegistered(After(run).askers[i]) && IsRegistered(After(run).askers[j])
    ensures After(run).askers[i].number == After(run).askers[j].number ==> i == j
  {
    EveryRunIsSound(run);
  }

  /** A question is turned away exactly when another waits under its number, and once
      that one returns the number is free. */
  lemma ANumberIsFreeAfterReturn(run: seq<Step>, i: nat)
    requires IsRun(run) && IsAt(After(run), i, Leaving)
    ensures var after := Do(After(run), Stop(i));
      && after.askers[i].number !in after.previews
      && (forall j | 0 <= j < |after.askers| && after.askers[j].stage.Numbered? ::
            Do(after, Register(j)).askers[j].stage.Registered?
            <==> forall k | 0 <= k < |after.askers| && IsRegistered(after.askers[k]) ::
                   after.askers[k].number != after.askers[j].number)
  {
    hide OwnNumber, AnswerIn;
    EveryRunIsSound(run);
    var after := Do(After(run), Stop(i));
    NumbersStayTheirs(After(run), Stop(i));
    forall j | 0 <= j < |after.askers| && after.askers[j].stage.Numbered?
      ensures Do(after, Register(j)).askers[j].stage.Registered? <==> after.askers[j].number !in after.previews
    {
    }
  }

  /** Numbers the socket makes itself never repeat. */
  lemma OwnNumbersDiffer(run: seq<Step>, i: nat, j: nat)
    requires IsRun(run) && i < j < |After(run).askers|
    requires After(run).askers[i].own.Some? && After(run).askers[j].own.Some?
    ensures After(run).askers[i].number != After(run).askers[j].number
  {
    EveryRunIsSound(run);
    var a, b := After(run).askers[i].own.value, After(run).askers[j].own.value;
    ItoaIsInjective(a, b);
    assert OwnNumber(a)[1..] == Itoa(a) && OwnNumber(b)[1..] == Itoa(b);
  }

  /** What each end of a question tells its caller: an error with the refusal when the
      number was taken, when the preview failed to show and when the caller was cancelled;
      no error when no screen was there and when the deadline came; and the answer when
      there was one. */
  lemma WhatTheCallerIsTold(run: seq<Step>, step: Step, i: nat)
    requires IsRun(run) && Enabled(After(run), step) && i < |After(run).askers| && After(run).askers[i].outcome.None?
    requires Do(After(run), step).askers[i].outcome.Some?
    ensures var s := After(run); var told := Told(Do(s, step).askers[i].outcome.value);
      && (step.Register? || step.Show? || step.Receive? || step.GiveUp?) && step.asker == i
      && (step.Register? ==> told == (Reject(""), true) && s.askers[i].number in s.previews)
      && (step.Show? && step.failed ==> told == (Reject(""), true))
      && (step.Show? && !step.failed ==> told == (Reject(""), false) && step.shown == 0)
      && (step.Receive? ==> s.askers[i].offered != [] && told == (s.askers[i].offered[0].answer, false))
      && (step.GiveUp? ==> told == (Reject(""), step.cancelled))
  {
    hide AnswerIn, OwnNumber;
    EveryRunIsSound(run);
    assert FirstIsKept(After(run).askers[i]);
  }

  /** A deny says no in the screen's words; a cancel too, or in these when it has none. */
  lemma WhatADenyAndACancelSay(id: string, reason: string)
    ensures AnswerIn(Deny(id, reason)) == Reject(reason)
    ensures var words := "the question was " + "cancelled " + "at the terminal, " + "so nothing was run";
      AllSpace(reason) ==> AnswerIn(Cancel(id, reason)) == Reject(words)
    ensures !AllSpace(reason) ==> AnswerIn(Cancel(id, reason)) == Reject(reason)
  {
    hide TrimSpace;
    var before, after := TrimSpaceTakesOnlySpace(reason);
    var kept := TrimSpace(reason);
    assert kept != "" ==> reason[|before|] == kept[0];
    assert kept == "" ==> reason == before + after;
    TheCancelledReason();
  }

  lemma TheCancelledReason()
    ensures CANCELLED_REASON == "the question was " + "cancelled " + "at the terminal, " + "so nothing was run"
  {
    var a, b, c := "the question was cancelled", "at the terminal,", "so nothing was run";
    assert [a, b, c][1..] == [b, c] && [b, c][1..] == [c];
    assert a == "the question was " + "cancelled";
  }

  function Rank(stage: Stage): nat {
    match stage case Numbered => 4 case Registered => 3 case Waiting => 2 case Leaving => 1 case Returned => 0
  }

  /** No question is ever stuck: whatever the screens do, its caller has a step that
      brings it nearer its return, and there are at most four of them. */
  lemma NoQuestionIsStuck(run: seq<Step>, i: nat) returns (step: Step)
    requires IsRun(run) && i < |After(run).askers| && !After(run).askers[i].stage.Returned?
    ensures Enabled(After(run), step) && IsRun(run + [step])
    ensures Rank(After(run + [step]).askers[i].stage) < Rank(After(run).askers[i].stage) <= 4
    ensures After(run).askers[i].slot.Some? && After(run).askers[i].stage.Waiting? ==> step == Receive(i)
  {
    hide AnswerIn, OwnNumber;
    var s := After(run);
    match s.askers[i].stage
    case Numbered => step := Register(i);
    case Registered => step := Show(i, 1, false);
    case Waiting => step := if s.askers[i].slot.Some? then Receive(i) else GiveUp(i, false);
    case Leaving => step := Stop(i);
    OneMoreStep(run, step);
  }

  /** A caller with a number keeps it; one without gets the next of the socket's own. */
  lemma WhatABeginDoes(run: seq<Step>, id: string)
    requires IsRun(run)
    ensures var s, after := After(run), Do(After(run), Begin(id)); var i := |s.askers|;
      && |after.askers| == i + 1 && after.askers[..i] == s.askers && after.askers[i].stage.Numbered?
      && (id != "" ==> after.askers[i].number == id && after.asked == s.asked)
      && (id == "" ==> after.askers[i].number == "a" + Itoa(s.asked + 1) && after.asked == s.asked + 1)
  {
    hide AnswerIn;
  }

  /** A question whose preview failed to show, or that no screen was there for, is over;
      any other waits, until an answer or its caller ends it. */
  lemma WhatAShowDoes(run: seq<Step>, i: nat, shown: nat, failed: bool)
    requires IsRun(run) && Enabled(After(run), Show(i, shown, failed))
    ensures var after := Do(After(run), Show(i, shown, failed)).askers[i];
      && (after.stage.Leaving? <==> failed || shown == 0) && (after.stage.Waiting? <==> !failed && shown > 0)
      && (after.outcome.Some? <==> after.stage.Leaving?)
  {
    hide AnswerIn, OwnNumber;
    EveryRunIsSound(run);
    assert FirstIsKept(After(run).askers[i]);
  }

  /** An approve is looked up, handed over and received: its caller is told yes, and its
      number is free again. */
  lemma AQuestionCanBeAnswered(id: string, text: string) returns (run: seq<Step>)
    requires id != ""
    ensures run == [Begin(id), Register(0), Show(0, 1, false), LookUp(0, Approve(id, text)), Offer(0), Receive(0), Stop(0)]
    ensures IsRun(run) && After(run).previews == map[] && After(run).hands == map[] && |After(run).askers| == 1
    ensures After(run).askers[0].outcome.Some? && Told(After(run).askers[0].outcome.value) == (ApprovalIn(text), false)
  {
    hide ApprovalIn, IsRun, After;
    NothingYet();
    var asked := Asker(id, None, Registered, None, [], None);
    run := NextIs([], START, Begin(id), State(map[], 0, [asked.(stage := Numbered)], map[], 1));
    run := NextIs(run, After(run), Register(0), State(map[id := 0], 0, [asked], map[], 2));
    run := NextIs(run, After(run), Show(0, 1, false), State(map[id := 0], 0, [asked.(stage := Waiting)], map[], 3));
    run := AnsweredFrom(run, id, text, asked.(stage := Waiting));
  }

  lemma AnsweredFrom(shown: seq<Step>, id: string, text: string, asked: Asker) returns (run: seq<Step>)
    requires IsRun(shown) && asked == Asker(id, None, Waiting, None, [], None)
    requires After(shown) == State(map[id := 0], 0, [asked], map[], 3)
    ensures run == shown + [LookUp(0, Approve(id, text))] + [Offer(0)] + [Receive(0)] + [Stop(0)] && IsRun(run)
    ensures After(run).previews == map[] && After(run).hands == map[] && |After(run).askers| == 1
    ensures After(run).askers[0].outcome == Some(Answered(Delivery(0, ApprovalIn(text), 3)))
  {
    hide ApprovalIn, IsRun, After;
    var given := Delivery(0, ApprovalIn(text), 3);
    run := NextIs(shown, After(shown), LookUp(0, Approve(id, text)), State(map[id := 0], 0, [asked], map[0 := given], 4));
    var answered := asked.(slot := Some(given), offered := [given]);
    assert map[0 := given] - {0} == map[] && [] + [given] == [given];
    run := NextIs(run, After(run), Offer(0), State(map[id := 0], 0, [answered], map[], 5));
    var told := answered.(stage := Leaving, slot := None, outcome := Some(Answered(given)));
    run := NextIs(run, After(run), Receive(0), State(map[id := 0], 0, [told], map[], 6));
    assert map[id := 0] - {id} == map[];
    run := NextIs(run, After(run), Stop(0), State(map[], 0, [told.(stage := Returned)], map[], 7));
  }

  lemma NextIs(run: seq<Step>, s: State, step: Step, t: State) returns (longer: seq<Step>)
    requires IsRun(run) && After(run) == s && Enabled(s, step) && Do(s, step) == t
    ensures longer == run + [step] && IsRun(longer) && After(longer) == t
  {
    OneMoreStep(run, step);
    longer := run + [step];
  }

  lemma NothingYet()
    ensures IsRun([]) && After([]) == START
  {
  }

  lemma OneMoreStep(run: seq<Step>, step: Step)
    requires IsRun(run) && Enabled(After(run), step)
    ensures IsRun(run + [step]) && After(run + [step]) == Do(After(run), step)
  {
    hide Do;
    assert (run + [step])[..|run|] == run;
  }

  /** Nor is a screen: with nothing in hand it may send, and with an answer in hand it
      may hand it over, once. */
  lemma NoScreenIsStuck(run: seq<Step>, screen: nat, message: FromScreen)
    requires IsRun(run)
    ensures Enabled(After(run), LookUp(screen, message)) || Enabled(After(run), Offer(screen))
    ensures screen in After(run).hands ==>
      var s, after := After(run), Do(After(run), Offer(screen));
      var to := s.hands[screen].to;
      && to < |s.askers| && after.askers[to].offered == s.askers[to].offered + [s.hands[screen]]
      && after.hands == s.hands - {screen}
  {
    hide AnswerIn, OwnNumber;
    EveryAnswerCameFromAScreen(run);
    if screen in After(run).hands {
      assert CameFrom(run, After(run).hands[screen]);
    }
  }

  // ---------------------------------------------------------------- the socket

  /** What a caller's channel holds. */
  function Held(asker: Asker): Option<Answer> {
    if asker.slot.Some? then Some(asker.slot.value.answer) else None
  }

  lemma RegisterShows(s: State, i: nat)
    requires Enabled(s, Register(i))
    ensures var t := Do(s, Register(i)); var free := s.askers[i].number !in s.previews;
      && t.asked == s.asked && |t.askers| == |s.askers|
      && (forall k | 0 <= k < |s.askers| :: Held(t.askers[k]) == Held(s.askers[k]))
      && (t.askers[i].stage.Registered? <==> free)
      && t.previews == if free then s.previews[s.askers[i].number := i] else s.previews
  {
  }

  /** The channel of one a caller waits on. */
  class Slot {
    var held: Option<Answer>

    constructor ()
      ensures held == None
    {
      held := None;
    }

    /** A send that gives up when the channel is full. */
    method Send(answer: Answer)
      modifies this
      ensures held == if old(held).None? then Some(answer) else old(held)
    {
      if held.None? {
        held := Some(answer);
      }
    }
  }

  /** The socket's side of the protocol. Each method is one locked section of the
      source, or one operation on a channel, and takes the machine by its step. */
  class Socket {
    var previews: map<string, Slot>
    var asked: nat
    /** Where the machine is, and every caller's channel. */
    ghost var state: State
    ghost var slots: seq<Slot>

    ghost predicate Valid()
      reads this, slots
    {
      && NumbersAreTheirs(state) && asked == state.asked && |slots| == |state.askers|
      && (forall id | id in state.previews :: state.previews[id] < |slots|)
      && (forall i, j | 0 <= i < j < |slots| :: slots[i] != slots[j])
      && (forall i | 0 <= i < |slots| :: slots[i].held == Held(state.askers[i]))
      && previews.Keys == state.previews.Keys
      && (forall id | id in previews :: previews[id] == slots[state.previews[id]])
    }

    constructor ()
      ensures Valid() && state == START
    {
      previews, asked, state, slots := map[], 0, START, [];
    }

    /** A caller arrives with a number, or is given the next of the socket's own. */
    method NextAskId(id: string) returns (number: string, waiting: Slot)
      requires Valid()
      modifies this
      ensures Valid() && state == Do(old(state), Begin(id))
      ensures slots == old(slots) + [waiting] && fresh(waiting)
      ensures number == state.askers[|old(slots)|].number
    {
      hide NumbersAreTheirs;
      NumbersStayTheirs(state, Begin(id));
      number := id;
      if id == "" {
        asked := asked + 1;
        number := OwnNumber(asked);
      }
      waiting := new Slot();
      state, slots := Do(state, Begin(id)), slots + [waiting];
    }

    method WaitOnPreview(id: string, waiting: Slot, ghost i: nat) returns (taken: bool)
      requires Valid() && Enabled(state, Register(i)) && waiting == slots[i] && id == state.askers[i].number
      modifies this`previews, this`state
      ensures Valid() && state == Do(old(state), Register(i))
      ensures taken <==> state.askers[i].stage.Registered?
    {
      hide NumbersAreTheirs, Do;
      NumbersStayTheirs(state, Register(i));
      RegisterShows(state, i);
      taken := id !in previews;
      if taken {
        previews := previews[id := waiting];
      }
      state := Do(state, Register(i));
    }

    method StopWaitingOnPreview(id: string, ghost i: nat)
      requires Valid() && Enabled(state, Stop(i)) && id == state.askers[i].number
      modifies this`previews, this`state
      ensures Valid() && state == Do(old(state), Stop(i)) && id !in previews
    {
      hide IsRegistered;
      NumbersStayTheirs(state, Stop(i));
      state := Do(state, Stop(i));
      previews := previews - {id};
    }

    /** The locked half of a screen's approve, deny or cancel: whose channel the number
        stands for at this moment, if anyone's. */
    method LookUpPreview(message: FromScreen, ghost screen: nat) returns (waiting: Option<Slot>)
      requires Valid() && Enabled(state, LookUp(screen, message))
      modifies this`state
      ensures Valid() && state == Do(old(state), LookUp(screen, message))
      ensures waiting.Some? <==> screen in state.hands
      ensures waiting.Some? ==> state.hands[screen].to < |slots| && waiting.value == slots[state.hands[screen].to]
                                && state.hands[screen].answer == AnswerIn(message)
    {
      hide IsRegistered, AnswerIn;
      NumbersStayTheirs(state, LookUp(screen, message));
      waiting := if message.id in previews then Some(previews[message.id]) else None;
      state := Do(state, LookUp(screen, message));
    }

    /** The other half, with no lock: whatever has happened since, the first answer in
        stays. */
    method HandOver(waiting: Slot, answer: Answer, ghost screen: nat)
      requires Valid() && Enabled(state, Offer(screen))
      requires waiting == slots[state.hands[screen].to] && answer == state.hands[screen].answer
      modifies this`state, waiting
      ensures Valid() && state == Do(old(state), Offer(screen))
    {
      hide IsRegistered, AnswerIn;
      NumbersStayTheirs(state, Offer(screen));
      waiting.Send(answer);
      state := Do(state, Offer(screen));
    }

    /** The caller's own receive, when its channel is what its wait picked. */
    method ReceiveAnswer(waiting: Slot, ghost i: nat) returns (answer: Answer)
      requires Valid() && Enabled(state, Receive(i)) && waiting == slots[i]
      modifies this`state, waiting
      ensures Valid() && state == Do(old(state), Receive(i))
      ensures Told(state.askers[i].outcome.value) == (answer, false)
    {
      hide IsRegistered, AnswerIn;
      NumbersStayTheirs(state, Receive(i));
      answer := waiting.held.value;
      waiting.held := None;
      state := Do(state, Receive(i));
    }
  }
}
