/** `/undo`: what a file held is logged before it is touched, and the changes since
    the newest message are put back newest first. */
module Undo {
  import opened Text

  type Bytes = seq<bv8>

  type Files = map<string, Bytes>

  const MAX_PRIOR_BYTES := 0x40_0000
  const MAX_UNDO_FILES := 200
  const MAX_TURN_EVENTS := 20000

  /** What a file held before a change; `prior` is empty when it was too big to keep. */
  datatype Change = Change(path: string, existed: bool, prior: Bytes)

  datatype Event =
    | Message
    | FileChange(change: Change)
    | UnreadableChange
    | Other

  /** One read of the log. */
  datatype Turn = Turn(started: bool, tooMany: bool, changes: seq<Change>)

  datatype UndoError = LogCannotBeRead

  // ---------------------------------------------------------------- changing files

  function At(files: Files, path: string): Option<Bytes> {
    if path in files then Some(files[path]) else None
  }

  function Before(files: Files, path: string): Change {
    if path !in files then Change(path, false, [])
    else if |files[path]| > MAX_PRIOR_BYTES then Change(path, true, [])
    else Change(path, true, files[path])
  }

  /** What is logged of a file before it is touched: whether it was there, and what it
      held when that was no more than four mebibytes. */
  lemma WhatIsLogged(files: Files, path: string)
    ensures var logged := Before(files, path);
      && logged.path == path && (logged.existed <==> path in files)
      && logged.prior == (if path in files && |files[path]| <= 4 * 1024 * 1024 then files[path] else [])
  {
  }

  /** What may follow a message: a logged write, a logged write whose own write then
      fails, and anything else that logs an event. */
  datatype Act = Write(path: string, contents: Bytes) | FailedWrite(path: string) | Otherwise

  function FilesAfterOne(files: Files, act: Act): Files {
    if act.Write? then files[act.path := act.contents] else files
  }

  function FilesAfter(files: Files, acts: seq<Act>): Files
    decreases |acts|
  {
    if acts == [] then files else FilesAfter(FilesAfterOne(files, acts[0]), acts[1..])
  }

  function EventOf(files: Files, act: Act): Event {
    if act.Otherwise? then Other else FileChange(Before(files, act.path))
  }

  function EventsOf(files: Files, acts: seq<Act>): (events: seq<Event>)
    ensures |events| == |acts|
    decreases |acts|
  {
    if acts == [] then [] else [EventOf(files, acts[0])] + EventsOf(FilesAfterOne(files, acts[0]), acts[1..])
  }

  predicate Touches(acts: seq<Act>, path: string) {
    exists k | 0 <= k < |acts| :: IsOf(acts[k], path)
  }

  // ---------------------------------------------------------------- reading the turn

  /** The file changes of a list of events, in order, up to the first unreadable one. */
  function ChangesOf(events: seq<Event>): seq<Change> {
    if events == [] then []
    else (if events[0].FileChange? then [events[0].change] else []) + ChangesOf(events[1..])
  }

  function ReadTurn(events: seq<Event>, sofar: seq<Change>): Result<Turn, UndoError>
  {
    if events == [] then Ok(Turn(true, false, sofar))
    else match events[0]
      case UnreadableChange => Err(LogCannotBeRead)
      case FileChange(change) =>
        if |sofar| >= MAX_UNDO_FILES then Ok(Turn(true, true, sofar))
        else ReadTurn(events[1..], sofar + [change])
      case _ => ReadTurn(events[1..], sofar)
  }

  /** Where the newest message is, one past it, or nothing. */
  function TurnBegan(log: seq<Event>): (began: nat)
    ensures began <= |log|
    ensures began > 0 ==> log[began - 1].Message? && Message !in log[began..]
    ensures began == 0 ==> Message !in log
  {
    if log == [] then 0
    else if log[|log| - 1].Message? then |log|
    else TurnBegan(log[..|log| - 1])
  }

  function LastTurn(log: seq<Event>): Result<Turn, UndoError> {
    var began := TurnBegan(log);
    if began == 0 then Ok(Turn(false, false, []))
    else ReadTurn(log[began..Smaller(began + MAX_TURN_EVENTS, |log|)], [])
  }

  function Smaller(a: nat, b: nat): nat { if a <= b then a else b }

  method ChangesIn(events: seq<Event>) returns (turn: Result<Turn, UndoError>)
    ensures turn == ReadTurn(events, [])
  {
    var changes: seq<Change> := [];
    for i := 0 to |events|
      invariant ReadTurn(events, []) == ReadTurn(events[i..], changes)
    {
      assert events[i..][0] == events[i] && events[i..][1..] == events[i + 1..];
      match events[i] {
        case UnreadableChange => return Err(LogCannotBeRead);
        case FileChange(change) =>
          if |changes| >= MAX_UNDO_FILES {
            return Ok(Turn(true, true, changes));
          }
          changes := changes + [change];
        case _ =>
      }
    }
    return Ok(Turn(true, false, changes));
  }

  lemma {:induction false} ReadTurnReads(events: seq<Event>, sofar: seq<Change>)
    requires UnreadableChange !in events && |sofar| <= MAX_UNDO_FILES
    ensures var all := sofar + ChangesOf(events);
      ReadTurn(events, sofar) == Ok(
        if |all| <= MAX_UNDO_FILES then Turn(true, false, all) else Turn(true, true, all[..MAX_UNDO_FILES]))
  {
    if events != [] {
      var all := sofar + ChangesOf(events);
      if events[0].FileChange? {
        if |sofar| < MAX_UNDO_FILES {
          assert all == (sofar + [events[0].change]) + ChangesOf(events[1..]);
          ReadTurnReads(events[1..], sofar + [events[0].change]);
        } else {
          assert all[..MAX_UNDO_FILES] == sofar;
        }
      } else {
        assert all == sofar + ChangesOf(events[1..]);
        ReadTurnReads(events[1..], sofar);
      }
    } else {
      assert sofar + ChangesOf(events) == sofar;
    }
  }

  // ---------------------------------------------------------------- what is read, told from the log alone

  /** The newest message is just before this place, and the part that is read ends at
      the other: after twenty thousand events, or where the log does. */
  ghost predicate IsTheReadPart(log: seq<Event>, from: nat, to: nat) {
    && 0 < from <= to <= |log| && log[from - 1] == Message && (forall k | from <= k < |log| :: log[k] != Message)
    && (if |log| - from <= 20000 then to == |log| else to == from + 20000)
  }

  /** Where the file changes are between two places. */
  function ChangesAt(log: seq<Event>, from: nat, to: nat): set<nat>
    requires to <= |log|
  {
    set k | from <= k < to && log[k].FileChange?
  }

  /** A change that cannot be read, with no more than two hundred before it. */
  ghost predicate AnUnreadableIsReached(log: seq<Event>, from: nat, i: nat, to: nat)
    requires to <= |log|
  {
    exists k | i <= k < to :: log[k] == UnreadableChange && |ChangesAt(log, from, k)| <= 200
  }

  /** These are the changes between two places, in order. */
  ghost predicate AreTheChanges(log: seq<Event>, from: nat, to: nat, changes: seq<Change>)
    requires to <= |log|
  {
    && |changes| == |ChangesAt(log, from, to)|
    && forall k | from <= k < to && log[k].FileChange? ::
         |ChangesAt(log, from, k)| < |changes| && changes[|ChangesAt(log, from, k)|] == log[k].change
  }

  lemma OneMorePlace(log: seq<Event>, from: nat, to: nat)
    requires from <= to < |log|
    ensures |ChangesAt(log, from, to + 1)| == |ChangesAt(log, from, to)| + if log[to].FileChange? then 1 else 0
  {
    if log[to].FileChange? {
      assert ChangesAt(log, from, to + 1) == ChangesAt(log, from, to) + {to};
    } else {
      assert ChangesAt(log, from, to + 1) == ChangesAt(log, from, to);
    }
  }

  lemma {:induction false} MoreChangesLater(log: seq<Event>, from: nat, a: nat, b: nat)
    requires from <= a <= b <= |log|
    ensures |ChangesAt(log, from, a)| <= |ChangesAt(log, from, b)|
  {
    if a < b {
      MoreChangesLater(log, from, a, b - 1);
      OneMorePlace(log, from, b - 1);
    }
  }

  lemma OneMoreChange(log: seq<Event>, from: nat, to: nat, changes: seq<Change>)
    requires from <= to < |log| && AreTheChanges(log, from, to, changes)
    ensures AreTheChanges(log, from, to + 1, if log[to].FileChange? then changes + [log[to].change] else changes)
  {
    hide ChangesAt;
    OneMorePlace(log, from, to);
  }

  lemma {:induction false} ReadOn(log: seq<Event>, from: nat, i: nat, to: nat, sofar: seq<Change>)
    requires from <= i <= to <= |log| && AreTheChanges(log, from, i, sofar) && |sofar| <= 200
    ensures var turn := ReadTurn(log[i..to], sofar);
      && (turn.Err? <==> AnUnreadableIsReached(log, from, i, to))
      && (turn.Ok? ==> turn.value.started && (turn.value.tooMany <==> |ChangesAt(log, from, to)| > 200))
      && (turn.Ok? && !turn.value.tooMany ==> AreTheChanges(log, from, to, turn.value.changes))
    decreases (to - i)
  {
    hide ChangesAt, AreTheChanges, AnUnreadableIsReached;
    SoManyChanges(log, from, i, sofar);
    if i < to {
      assert log[i..to][0] == log[i] && log[i..to][1..] == log[i + 1..to];
      OneMorePlace(log, from, i);
      OneMoreChange(log, from, i, sofar);
      MoreChangesLater(log, from, i + 1, to);
      ReachedFrom(log, from, i, to);
      match log[i]
      case FileChange(change) =>
        if |sofar| < 200 {
          ReadOn(log, from, i + 1, to, sofar + [change]);
        } else {
          NoneReachedPast(log, from, i + 1, to);
        }
      case UnreadableChange =>
      case _ => ReadOn(log, from, i + 1, to, sofar);
    } else {
      assert log[i..to] == [];
      NoneReachedAtTheEnd(log, from, to);
    }
  }

  lemma SoManyChanges(log: seq<Event>, from: nat, to: nat, changes: seq<Change>)
    requires to <= |log| && AreTheChanges(log, from, to, changes)
    ensures |changes| == |ChangesAt(log, from, to)|
  {
  }

  lemma ReachedFrom(log: seq<Event>, from: nat, i: nat, to: nat)
    requires i < to <= |log|
    ensures AnUnreadableIsReached(log, from, i, to)
      <==> (log[i] == UnreadableChange && |ChangesAt(log, from, i)| <= 200) || AnUnreadableIsReached(log, from, i + 1, to)
  {
    hide ChangesAt;
  }

  lemma NoneReachedAtTheEnd(log: seq<Event>, from: nat, to: nat)
    requires to <= |log|
    ensures !AnUnreadableIsReached(log, from, to, to)
  {
  }

  lemma NoneReachedPast(log: seq<Event>, from: nat, i: nat, to: nat)
    requires from <= i <= to <= |log| && |ChangesAt(log, from, i)| > 200
    ensures !AnUnreadableIsReached(log, from, i, to)
  {
    hide ChangesAt;
    forall k | i <= k < to ensures |ChangesAt(log, from, k)| > 200 {
      MoreChangesLater(log, from, i, k);
    }
  }

  /** Of any log whatever: with no message in it there is no turn; otherwise the read
      fails exactly when it reaches a change it cannot read, there are too many exactly
      when the part that is read has more than two hundred changes, and otherwise the
      turn is those changes in order. */
  lemma WhatUndoReads(log: seq<Event>, from: nat, to: nat)
    ensures var turn := LastTurn(log);
      && (Message !in log ==> turn == Ok(Turn(false, false, [])))
      && (IsTheReadPart(log, from, to) ==>
            && (turn.Err? <==> AnUnreadableIsReached(log, from, from, to))
            && (turn.Ok? ==> turn.value.started && (turn.value.tooMany <==> |ChangesAt(log, from, to)| > 200))
            && (turn.Ok? && !turn.value.tooMany ==> AreTheChanges(log, from, to, turn.value.changes)))
  {
    hide ReadTurn, AnUnreadableIsReached, ChangesAt, AreTheChanges;
    var began := TurnBegan(log);
    if IsTheReadPart(log, from, to) {
      assert log[from - 1] in log;
      BeganThere(log, from, began);
      NoChangesYet(log, from);
      ReadOn(log, from, from, to, []);
    }
  }

  lemma BeganThere(log: seq<Event>, from: nat, began: nat)
    requires 0 < from <= |log| && log[from - 1] == Message && forall k | from <= k < |log| :: log[k] != Message
    requires 0 < began <= |log| && log[began - 1] == Message && Message !in log[began..]
    ensures from == began
  {
    forall k | began <= k < |log| ensures log[k] != Message {
      assert log[began..][k - began] == log[k];
    }
  }

  lemma NoChangesYet(log: seq<Event>, from: nat)
    requires from <= |log|
    ensures AreTheChanges(log, from, from, [])
  {
    assert ChangesAt(log, from, from) == {};
  }

  // ---------------------------------------------------------------- putting back

  function PutBackOne(files: Files, change: Change): Files {
    if change.existed then files[change.path := change.prior] else files - {change.path}
  }

  /** Newest first. */
  function Undone(files: Files, changes: seq<Change>): Files
    decreases |changes|
  {
    if changes == [] then files
    else Undone(PutBackOne(files, changes[|changes| - 1]), changes[..|changes| - 1])
  }

  /** The paths put back or removed, newest first. */
  function PathsOf(changes: seq<Change>, existed: bool): seq<string> {
    if changes == [] then []
    else
      var last := changes[|changes| - 1];
      (if last.existed == existed then [last.path] else []) + PathsOf(changes[..|changes| - 1], existed)
  }

  /** The first change made to a path says what it held before any. */
  function FirstTouch(changes: seq<Change>, path: string): (touch: Option<Change>)
    ensures touch.Some? ==> touch.value in changes && touch.value.path == path
    ensures touch.None? ==> forall c | c in changes :: c.path != path
  {
    if changes == [] then None
    else if changes[0].path == path then Some(changes[0])
    else FirstTouch(changes[1..], path)
  }

  function Says(change: Change): Option<Bytes> {
    if change.existed then Some(change.prior) else None
  }

  lemma {:induction false} FirstTouchOfFront(changes: seq<Change>, path: string)
    requires changes != []
    ensures var front, last := changes[..|changes| - 1], changes[|changes| - 1];
      FirstTouch(changes, path) ==
        if FirstTouch(front, path).Some? then FirstTouch(front, path)
        else if last.path == path then Some(last) else None
  {
    if |changes| > 1 {
      assert changes[1..][..|changes| - 2] == changes[..|changes| - 1][1..];
      FirstTouchOfFront(changes[1..], path);
    }
  }

  /** Whatever the files hold now, undoing leaves each path as its first change found
      it, and every other path alone. */
  lemma {:induction false} UndoneAt(files: Files, changes: seq<Change>, path: string)
    ensures At(Undone(files, changes), path) ==
      match FirstTouch(changes, path)
      case None => At(files, path)
      case Some(change) => Says(change)
    decreases |changes|
  {
    if changes != [] {
      var front, last := changes[..|changes| - 1], changes[|changes| - 1];
      UndoneAt(PutBackOne(files, last), front, path);
      FirstTouchOfFront(changes, path);
    }
  }

  lemma LastIsPutBack(files: Files, changes: seq<Change>, at: nat)
    requires at < |changes|
    ensures var change := changes[at];
      && Undone(files, changes[..at + 1]) == Undone(PutBackOne(files, change), changes[..at])
      && (forall existed :: PathsOf(changes[..at + 1], existed)
            == (if change.existed == existed then [change.path] else []) + PathsOf(changes[..at], existed))
  {
    assert changes[..at + 1][..at] == changes[..at];
  }

  lemma NothingLeft(files: Files, changes: seq<Change>)
    ensures Undone(files, changes[..0]) == files && (forall existed :: PathsOf(changes[..0], existed) == [])
  {
  }

  predicate Names(changes: seq<Change>, existed: bool, path: string) {
    exists k | 0 <= k < |changes| :: changes[k].existed == existed && changes[k].path == path
  }

  /** The report names every change once: among what was put back when the file was there
      before, and among what was removed when it was not. */
  lemma {:induction false} ReportNamesEachChange(changes: seq<Change>, existed: bool, path: string)
    ensures path in PathsOf(changes, existed) <==> Names(changes, existed, path)
    ensures |PathsOf(changes, true)| + |PathsOf(changes, false)| == |changes|
    decreases |changes|
  {
    if changes != [] {
      var front, last := changes[..|changes| - 1], changes[|changes| - 1];
      ReportNamesEachChange(front, existed, path);
      assert changes == front + [last];
      assert Names(changes, existed, path) <==> Names(front, existed, path) || (last.existed == existed && last.path == path);
    }
  }

  lemma PathsOfOneMore(changes: seq<Change>, last: Change, existed: bool)
    ensures PathsOf(changes + [last], existed) == (if last.existed == existed then [last.path] else []) + PathsOf(changes, existed)
  {
    assert (changes + [last])[..|changes|] == changes;
  }

  /** And names the newest first. */
  lemma {:induction false} ReportIsNewestFirst(older: seq<Change>, newer: seq<Change>, existed: bool)
    ensures PathsOf(older + newer, existed) == PathsOf(newer, existed) + PathsOf(older, existed)
    decreases |newer|
  {
    if newer == [] {
      assert older + newer == older;
    } else {
      hide PathsOf;
      var front, last := newer[..|newer| - 1], newer[|newer| - 1];
      ReportIsNewestFirst(older, front, existed);
      PathsOfOneMore(older + front, last, existed);
      PathsOfOneMore(front, last, existed);
      OneAtTheEnd(older, newer);
      var one := if last.existed == existed then [last.path] else [];
      assert one + (PathsOf(front, existed) + PathsOf(older, existed)) == one + PathsOf(front, existed) + PathsOf(older, existed);
    }
  }

  lemma OneAtTheEnd(older: seq<Change>, newer: seq<Change>)
    requires newer != []
    ensures var front, last := newer[..|newer| - 1], newer[|newer| - 1];
      front + [last] == newer && older + front + [last] == older + newer
  {
  }

  /** The disk and the log, as the tools and `/undo` change them. */
  class Disk {
    var files: Files
    var log: seq<Event>

    constructor (files: Files, log: seq<Event>)
      ensures this.files == files && this.log == log
    {
      this.files, this.log := files, log;
    }

    /** The one door every change of a file goes through. */
    method WriteFile(path: string, contents: Bytes, fails: bool)
      modifies this
      ensures var act := if fails then FailedWrite(path) else Write(path, contents);
        files == FilesAfterOne(old(files), act) && log == old(log) + [EventOf(old(files), act)]
    {
      var existed, prior := path in files, [];
      if existed && |files[path]| <= MAX_PRIOR_BYTES {
        prior := files[path];
      }
      log := log + [FileChange(Change(path, existed, prior))];
      if !fails {
        files := files[path := contents];
      }
    }

    method PutBack(changes: seq<Change>) returns (restored: seq<string>, removed: seq<string>)
      modifies this`files
      ensures files == Undone(old(files), changes)
      ensures restored == PathsOf(changes, true) && removed == PathsOf(changes, false)
    {
      hide Undone, PathsOf;
      restored, removed := [], [];
      var at := |changes|;
      assert changes[..at] == changes;
      while at > 0
        invariant 0 <= at <= |changes|
        invariant Undone(files, changes[..at]) == Undone(old(files), changes)
        invariant restored + PathsOf(changes[..at], true) == PathsOf(changes, true)
        invariant removed + PathsOf(changes[..at], false) == PathsOf(changes, false)
      {
        at := at - 1;
        var change := changes[at];
        LastIsPutBack(files, changes, at);
        if change.existed {
          files := files[change.path := change.prior];
          restored := restored + [change.path];
        } else {
          files := files - {change.path};
          removed := removed + [change.path];
        }
      }
      NothingLeft(files, changes);
    }

    /** The command: nothing at all is written unless everything it read can be put
        back. */
    method Undo() returns (undone: Result<Turn, UndoError>)
      modifies this`files
      ensures undone == LastTurn(log)
      ensures files == match undone
        case Err(_) => old(files)
        case Ok(turn) => if turn.tooMany then old(files) else Undone(old(files), turn.changes)
      ensures forall from: nat, to: nat | IsTheReadPart(log, from, to) ::
        && (undone.Err? <==> AnUnreadableIsReached(log, from, from, to))
        && (undone.Err? || |ChangesAt(log, from, to)| > 200 ==> files == old(files))
        && (undone.Ok? && |ChangesAt(log, from, to)| <= 200 ==>
              AreTheChanges(log, from, to, undone.value.changes) && files == Undone(old(files), undone.value.changes))
    {
      hide AnUnreadableIsReached, ChangesAt, AreTheChanges, IsTheReadPart, ReadTurn;
      forall from: nat, to: nat { WhatUndoReads(log, from, to); }
      var began := TurnBegan(log);
      if began == 0 {
        return Ok(Turn(false, false, []));
      }
      undone := ChangesIn(log[began..Smaller(began + MAX_TURN_EVENTS, |log|)]);
      if undone.Err? || undone.value.tooMany || undone.value.changes == [] {
        return;
      }
      var _, _ := PutBack(undone.value.changes);
    }
  }

  // ---------------------------------------------------------------- undo is an inverse

  lemma {:induction false} FilesElsewhere(files: Files, acts: seq<Act>, path: string)
    requires !Touches(acts, path)
    ensures At(FilesAfter(files, acts), path) == At(files, path)
    decreases |acts|
  {
    if acts != [] {
      TouchesRest(acts, path);
      FilesElsewhere(FilesAfterOne(files, acts[0]), acts[1..], path);
    }
  }

  /** The first change logged for a path says what it held when the acts began, or
      that it held more than was kept. */
  lemma {:induction false} FirstLogged(files: Files, acts: seq<Act>, path: string)
    ensures FirstTouch(ChangesOf(EventsOf(files, acts)), path)
            == if Touches(acts, path) then Some(Before(files, path)) else None
    decreases |acts|
  {
    hide Before, FilesAfterOne, Touches;
    if acts == [] {
      assert !Touches(acts, path) by { TouchesNone(path); }
    } else {
      var next := FilesAfterOne(files, acts[0]);
      FirstLoggedOf(files, acts[0], EventsOf(next, acts[1..]), path);
      TouchesRest(acts, path);
      FirstLogged(next, acts[1..], path);
      if !IsOf(acts[0], path) {
        BeforeStays(files, acts[0], path);
      }
    }
  }

  lemma TouchesNone(path: string)
    ensures !Touches([], path)
  {
  }

  lemma FirstLoggedOf(files: Files, act: Act, rest: seq<Event>, path: string)
    ensures FirstTouch(ChangesOf([EventOf(files, act)] + rest), path)
            == if IsOf(act, path) then Some(Before(files, path)) else FirstTouch(ChangesOf(rest), path)
  {
    var events := [EventOf(files, act)] + rest;
    assert events[1..] == rest;
    if !act.Otherwise? {
      assert ChangesOf(events) == [Before(files, act.path)] + ChangesOf(rest);
      assert ChangesOf(events)[1..] == ChangesOf(rest);
    } else {
      assert ChangesOf(events) == ChangesOf(rest);
    }
  }

  lemma BeforeStays(files: Files, act: Act, path: string)
    requires !IsOf(act, path)
    ensures Before(FilesAfterOne(files, act), path) == Before(files, path)
  {
  }

  predicate IsOf(act: Act, path: string) { !act.Otherwise? && act.path == path }

  lemma TouchesRest(acts: seq<Act>, path: string)
    requires acts != []
    ensures Touches(acts, path) <==> IsOf(acts[0], path) || Touches(acts[1..], path)
  {
    if Touches(acts, path) {
      var k :| 0 <= k < |acts| && IsOf(acts[k], path);
      if k > 0 {
        assert acts[1..][k - 1] == acts[k];
      }
    }
    if Touches(acts[1..], path) {
      var k :| 0 <= k < |acts[1..]| && IsOf(acts[1..][k], path);
      assert acts[k + 1] == acts[1..][k];
    }
  }

  lemma {:induction false} EventsOfPart(files: Files, acts: seq<Act>, n: nat)
    requires n <= |acts|
    ensures EventsOf(files, acts)[..n] == EventsOf(files, acts[..n])
    ensures Message !in EventsOf(files, acts) && UnreadableChange !in EventsOf(files, acts)
    decreases |acts|
  {
    if acts != [] {
      EventsOfPart(FilesAfterOne(files, acts[0]), acts[1..], if n == 0 then 0 else n - 1);
      if n > 0 {
        assert acts[..n][0] == acts[0] && acts[..n][1..] == acts[1..][..n - 1];
      }
    }
  }

  lemma {:induction false} NoMessageSince(log: seq<Event>, events: seq<Event>)
    requires Message !in events
    ensures TurnBegan(log + [Message] + events) == |log| + 1
  {
    var whole := log + [Message] + events;
    if events == [] {
      assert whole[|whole| - 1] == Message;
    } else {
      assert whole[..|whole| - 1] == log + [Message] + events[..|events| - 1];
      assert whole[|whole| - 1] == events[|events| - 1];
      NoMessageSince(log, events[..|events| - 1]);
    }
  }

  /** The acts `/undo` reads: the first twenty thousand events after the message. */
  function Read(acts: seq<Act>): seq<Act> {
    acts[..Smaller(MAX_TURN_EVENTS, |acts|)]
  }

  function Recorded(files: Files, acts: seq<Act>): seq<Change> {
    ChangesOf(EventsOf(files, Read(acts)))
  }

  lemma OnlyTheTurnIsRead(log: seq<Event>, events: seq<Event>)
    requires Message !in events
    ensures LastTurn(log + [Message] + events) == ReadTurn(events[..Smaller(MAX_TURN_EVENTS, |events|)], [])
  {
    hide ReadTurn, TurnBegan;
    NoMessageSince(log, events);
    var n, whole := Smaller(MAX_TURN_EVENTS, |events|), log + [Message] + events;
    assert whole[|log| + 1..|log| + 1 + n] == events[..n];
  }

  /** What one `/undo` reads of the log a turn left. */
  lemma TheTurnIsRead(log: seq<Event>, files: Files, acts: seq<Act>)
    ensures var turn := LastTurn(log + [Message] + EventsOf(files, acts)); var changes := Recorded(files, acts);
      && turn.Ok? && turn.value.started
      && (turn.value.tooMany <==> |changes| > MAX_UNDO_FILES)
      && (!turn.value.tooMany ==> turn.value.changes == changes)
  {
    hide ReadTurn, ChangesOf, TurnBegan, EventsOf, LastTurn;
    var events := EventsOf(files, acts);
    var n := Smaller(MAX_TURN_EVENTS, |acts|);
    EventsOfPart(files, acts, n);
    OnlyTheTurnIsRead(log, events);
    ReadTurnReads(events[..n], []);
    assert [] + ChangesOf(events[..n]) == ChangesOf(events[..n]);
  }

  /** What undoing a path depends on: if its change was read, it was small enough to be
      kept, and if it changed only after the part that is read, it holds what it did. */
  predicate PathCanBeUndone(files: Files, acts: seq<Act>, path: string) {
    && (path in files && Touches(Read(acts), path) ==> |files[path]| <= MAX_PRIOR_BYTES)
    && (Touches(acts, path) && !Touches(Read(acts), path) ==>
          At(FilesAfter(files, acts), path) == At(files, path))
  }

  ghost predicate CanBeUndone(files: Files, acts: seq<Act>) {
    forall path :: PathCanBeUndone(files, acts, path)
  }

  /** `/undo` right after a turn puts back every path's existence and contents exactly
      when that holds; a turn of too many files it leaves alone. */
  lemma UndoIsAnInverseExactlyWhen(log: seq<Event>, files: Files, acts: seq<Act>)
    ensures var turn := LastTurn(log + [Message] + EventsOf(files, acts));
      && turn.Ok?
      && (turn.value.tooMany <==> |Recorded(files, acts)| > MAX_UNDO_FILES)
      && (!turn.value.tooMany ==>
            (Undone(FilesAfter(files, acts), turn.value.changes) == files <==> CanBeUndone(files, acts)))
  {
    hide LastTurn, Undone, FilesAfter, EventsOf, ChangesOf, PathCanBeUndone, Read;
    TheTurnIsRead(log, files, acts);
    var now, changes := FilesAfter(files, acts), Recorded(files, acts);
    var undone := Undone(now, changes);
    forall path ensures At(undone, path) == At(files, path) <==> PathCanBeUndone(files, acts, path) {
      PathIsUndoneExactlyWhen(files, acts, path);
    }
    SameFiles(undone, files);
  }

  lemma PathIsUndoneExactlyWhen(files: Files, acts: seq<Act>, path: string)
    ensures At(Undone(FilesAfter(files, acts), Recorded(files, acts)), path) == At(files, path)
            <==> PathCanBeUndone(files, acts, path)
  {
    hide Undone, FilesAfter, EventsOf, ChangesOf, Touches, FirstTouch;
    var read := Read(acts);
    UndoneAt(FilesAfter(files, acts), Recorded(files, acts), path);
    FirstLogged(files, read, path);
    if Touches(read, path) {
      ReadIsPart(acts, path);
    } else if !Touches(acts, path) {
      FilesElsewhere(files, acts, path);
    }
  }

  lemma ReadIsPart(acts: seq<Act>, path: string)
    requires Touches(Read(acts), path)
    ensures Touches(acts, path)
  {
    var k :| 0 <= k < |Read(acts)| && IsOf(Read(acts)[k], path);
    assert acts[k] == Read(acts)[k];
  }

  lemma SameFiles(a: Files, b: Files)
    ensures a == b <==> forall path :: At(a, path) == At(b, path)
  {
    if forall path :: At(a, path) == At(b, path) {
      forall path ensures path in a <==> path in b {
        assert At(a, path) == At(b, path);
      }
      forall path | path in a ensures a[path] == b[path] {
        assert At(a, path) == At(b, path);
      }
      assert a.Keys == b.Keys;
      assert a == b;
    }
  }

  /** A turn of ordinary size over ordinary files always comes back whole: repeated
      writes, created files and writes that failed included. */
  lemma OrdinaryTurnsAreUndone(log: seq<Event>, files: Files, acts: seq<Act>)
    requires |acts| <= MAX_TURN_EVENTS && |Recorded(files, acts)| <= MAX_UNDO_FILES
    requires forall path | path in files && Touches(acts, path) :: |files[path]| <= MAX_PRIOR_BYTES
    ensures var turn := LastTurn(log + [Message] + EventsOf(files, acts));
      turn.Ok? && Undone(FilesAfter(files, acts), turn.value.changes) == files
  {
    hide LastTurn, Undone, FilesAfter, EventsOf, ChangesOf, Touches;
    assert Read(acts) == acts;
    UndoIsAnInverseExactlyWhen(log, files, acts);
  }

  /** A file too big to be kept is not left alone: it comes back empty. */
  lemma ABigFileComesBackEmpty(big: Bytes)
    requires |big| > MAX_PRIOR_BYTES
    ensures var files := map["big" := big]; var acts := [Write("big", [])];
      var turn := LastTurn([] + [Message] + EventsOf(files, acts));
      turn.Ok? && Undone(FilesAfter(files, acts), turn.value.changes) == map["big" := []]
  {
    hide LastTurn;
    var files, acts := map["big" := big], [Write("big", [])];
    TheTurnIsRead([], files, acts);
    assert Read(acts) == acts && acts[1..] == [];
    var events := EventsOf(files, acts);
    assert events == [FileChange(Change("big", true, []))] && events[1..] == [];
    var changes := Recorded(files, acts);
    assert ChangesOf(events[1..]) == [];
    assert changes == ChangesOf(events) == [Change("big", true, [])];
    assert changes[..0] == [];
  }

  /** A change the read stops short of is not put back. */
  lemma ALateChangeStays(first: bv8)
    ensures var acts := seq(MAX_TURN_EVENTS, k => Otherwise) + [Write("late", [first])];
      var turn := LastTurn([] + [Message] + EventsOf(map[], acts));
      turn.Ok? && !turn.value.tooMany && Undone(FilesAfter(map[], acts), turn.value.changes) != map[]
  {
    hide LastTurn, Undone, EventsOf, ChangesOf, ReadTurn;
    var quiet := seq(MAX_TURN_EVENTS, k => Otherwise);
    var acts := quiet + [Write("late", [first])];
    assert Read(acts) == quiet;
    QuietChangesNothing(map[], quiet);
    UndoIsAnInverseExactlyWhen([], map[], acts);
    FilesAfterAppend(map[], quiet, Write("late", [first]));
    assert IsOf(acts[MAX_TURN_EVENTS], "late");
    assert At(FilesAfter(map[], acts), "late") == Some([first]);
    assert forall k | 0 <= k < |quiet| :: !IsOf(quiet[k], "late");
    assert !PathCanBeUndone(map[], acts, "late");
  }

  lemma {:induction false} QuietChangesNothing(files: Files, acts: seq<Act>)
    requires forall k | 0 <= k < |acts| :: acts[k].Otherwise?
    ensures ChangesOf(EventsOf(files, acts)) == [] && FilesAfter(files, acts) == files
  {
    if acts != [] {
      QuietChangesNothing(files, acts[1..]);
      assert EventsOf(files, acts)[1..] == EventsOf(files, acts[1..]);
    }
  }

  lemma {:induction false} FilesAfterAppend(files: Files, acts: seq<Act>, act: Act)
    ensures FilesAfter(files, acts + [act]) == FilesAfterOne(FilesAfter(files, acts), act)
    decreases |acts|
  {
    if acts != [] {
      assert (acts + [act])[1..] == acts[1..] + [act];
      FilesAfterAppend(FilesAfterOne(files, acts[0]), acts[1..], act);
    } else {
      assert (acts + [act])[1..] == [];
    }
  }
}
