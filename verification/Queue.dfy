/** The durable message queue: one table every channel adds to and one drainer
    takes from, which a crash may cut off at any statement. */
module Queue {
  import opened Text

  datatype Inbound = Inbound(id: string, sender: string, text: string, attachments: seq<string>, received: int, channel: string)

  datatype RowState = Waiting | Taken | Done

  datatype Row = Row(sequence: nat, message: Inbound, state: RowState, takenCount: nat)

  /** The table as it is on disk: its rows by sequence, and the number the next
      row gets, which is never given twice. */
  datatype Table = Table(rows: seq<Row>, next: nat)

  datatype Queued = Queued(sequence: nat, message: Inbound, duplicate: bool)

  datatype QueueError = NothingInTheMessage | NoChannelNamed | QueueClosed | QueueFull(held: nat, capacity: nat) | NotHeld(sequence: nat)

  // ---------------------------------------------------------------- the statements

  predicate Ordered(table: Table) {
    && (forall i, j | 0 <= i < j < |table.rows| :: table.rows[i].sequence < table.rows[j].sequence)
    && (forall i | 0 <= i < |table.rows| :: table.rows[i].sequence < table.next)
  }

  function CountHeld(rows: seq<Row>): (held: nat)
    ensures held <= |rows|
  {
    if rows == [] then 0 else (if rows[0].state.Done? then 0 else 1) + CountHeld(rows[1..])
  }

  function Inserted(table: Table, message: Inbound): Table {
    Table(table.rows + [Row(table.next, message, Waiting, 0)], table.next + 1)
  }

  /** Where the oldest waiting row is, or minus one. */
  function OldestWaiting(rows: seq<Row>): (at: int)
    ensures -1 <= at < |rows|
    ensures at >= 0 ==> rows[at].state.Waiting?
    ensures forall k | 0 <= k < (if at < 0 then |rows| else at) :: !rows[k].state.Waiting?
  {
    if rows == [] then -1
    else if rows[0].state.Waiting? then 0
    else
      var rest := OldestWaiting(rows[1..]);
      assert forall k | 0 < k < |rows| :: rows[k] == rows[1..][k - 1];
      if rest < 0 then -1 else rest + 1
  }

  function TakenAt(table: Table, at: nat): Table
    requires at < |table.rows|
  {
    table.(rows := table.rows[at := table.rows[at].(state := Taken, takenCount := table.rows[at].takenCount + 1)])
  }

  function HandedOut(row: Row): Queued {
    Queued(row.sequence, row.message, row.takenCount > 0)
  }

  /** Where the unfinished row with this number is, or minus one. */
  function Unfinished(rows: seq<Row>, sequence: nat): (at: int)
    ensures -1 <= at < |rows|
    ensures at >= 0 ==> rows[at].sequence == sequence && !rows[at].state.Done?
    ensures at < 0 ==> forall k | 0 <= k < |rows| :: rows[k].sequence == sequence ==> rows[k].state.Done?
  {
    if rows == [] then -1
    else if rows[0].sequence == sequence && !rows[0].state.Done? then 0
    else
      var rest := Unfinished(rows[1..], sequence);
      assert forall k | 0 < k < |rows| :: rows[k] == rows[1..][k - 1];
      if rest < 0 then -1 else rest + 1
  }

  function DoneAt(table: Table, at: nat): Table
    requires at < |table.rows|
  {
    table.(rows := table.rows[at := table.rows[at].(state := Done)])
  }

  function PutBack(row: Row): Row {
    if row.state.Taken? then row.(state := Waiting) else row
  }

  function RecoveredRows(rows: seq<Row>): seq<Row> {
    if rows == [] then []
    else (if rows[0].state.Done? then [] else [PutBack(rows[0])]) + RecoveredRows(rows[1..])
  }

  /** What opening does to what the last run left: taken rows go back into the
      line, finished ones are cleared out, and the numbering goes on. */
  function Recovered(table: Table): Table {
    table.(rows := RecoveredRows(table.rows))
  }

  // ---------------------------------------------------------------- lemmas about the statements

  lemma {:induction false} HeldAfterUpdate(rows: seq<Row>, at: nat, row: Row)
    requires at < |rows|
    ensures CountHeld(rows[at := row])
            == CountHeld(rows) - (if rows[at].state.Done? then 0 else 1) + (if row.state.Done? then 0 else 1)
  {
    if at > 0 {
      assert rows[at := row][1..] == rows[1..][at - 1 := row];
      HeldAfterUpdate(rows[1..], at - 1, row);
    } else {
      assert rows[0 := row][1..] == rows[1..];
    }
  }

  lemma {:induction false} HeldAfterInsert(rows: seq<Row>, row: Row)
    requires !row.state.Done?
    ensures CountHeld(rows + [row]) == CountHeld(rows) + 1
  {
    if rows != [] {
      assert (rows + [row])[1..] == rows[1..] + [row];
      HeldAfterInsert(rows[1..], row);
    } else {
      assert (rows + [row])[1..] == [];
    }
  }

  lemma {:induction false} RecoveryKeepsTheCount(rows: seq<Row>)
    ensures CountHeld(RecoveredRows(rows)) == CountHeld(rows)
  {
    if rows != [] {
      RecoveryKeepsTheCount(rows[1..]);
      var rest := RecoveredRows(rows[1..]);
      assert [] + rest == rest;
      assert ([PutBack(rows[0])] + rest)[1..] == rest;
    }
  }

  /** Every unfinished message goes back into the line, with the times it was
      handed out. */
  lemma {:induction false} RecoveryLosesNone(rows: seq<Row>, row: Row)
    requires row in rows && !row.state.Done?
    ensures PutBack(row) in RecoveredRows(rows)
  {
    if row != rows[0] {
      assert row in rows[1..];
      RecoveryLosesNone(rows[1..], row);
    }
  }

  predicate CameBack(rows: seq<Row>, row: Row) {
    row.state.Waiting? && exists k | 0 <= k < |rows| :: !rows[k].state.Done? && row == PutBack(rows[k])
  }

  /** And nothing else is in it. */
  lemma {:induction false} RecoveryAddsNone(rows: seq<Row>, row: Row)
    requires row in RecoveredRows(rows)
    ensures CameBack(rows, row)
  {
    if row in RecoveredRows(rows[1..]) {
      RecoveryAddsNone(rows[1..], row);
      var k :| 0 <= k < |rows[1..]| && !rows[1..][k].state.Done? && row == PutBack(rows[1..][k]);
      assert rows[k + 1] == rows[1..][k];
    } else {
      assert row == PutBack(rows[0]);
    }
  }

  lemma AllCameBack(rows: seq<Row>)
    ensures forall k | 0 <= k < |RecoveredRows(rows)| :: CameBack(rows, RecoveredRows(rows)[k])
  {
    hide CameBack;
    forall k | 0 <= k < |RecoveredRows(rows)| ensures CameBack(rows, RecoveredRows(rows)[k]) {
      RecoveryAddsNone(rows, RecoveredRows(rows)[k]);
    }
  }

  lemma {:induction false} RecoveryKeepsTheOrder(rows: seq<Row>, next: nat)
    requires Ordered(Table(rows, next))
    ensures Ordered(Table(RecoveredRows(rows), next))
  {
    if rows != [] {
      var first, rest := rows[0], RecoveredRows(rows[1..]);
      assert forall k | 0 < k < |rows| :: rows[k] == rows[1..][k - 1];
      RecoveryKeepsTheOrder(rows[1..], next);
      AllCameBack(rows[1..]);
      forall k | 0 <= k < |rest| ensures rest[k].sequence > first.sequence {
        assert CameBack(rows[1..], rest[k]);
      }
      assert RecoveredRows(rows) == if first.state.Done? then rest else [PutBack(first)] + rest;
    }
  }

  // ---------------------------------------------------------------- every run of the queue

  datatype Op = AddOp(message: Inbound) | TakeOp | DoneOp(sequence: nat) | RestartOp

  /** One message handed out: in which run, under which number, whether it was marked a
      duplicate, and the message. */
  datatype Handed = Handed(run: nat, sequence: nat, duplicate: bool, message: Inbound)

  datatype History = History(table: Table, run: nat, handed: seq<Handed>)

  const FRESH := History(Table([], 1), 0, [])

  function Apply(capacity: nat, h: History, op: Op): History {
    match op
    case AddOp(message) => if CountHeld(h.table.rows) >= capacity then h else h.(table := Inserted(h.table, message))
    case TakeOp =>
      var at := OldestWaiting(h.table.rows);
      if at < 0 then h
      else
        var queued := HandedOut(h.table.rows[at]);
        h.(table := TakenAt(h.table, at), handed := h.handed + [Handed(h.run, queued.sequence, queued.duplicate, queued.message)])
    case DoneOp(sequence) =>
      var at := Unfinished(h.table.rows, sequence);
      if at < 0 then h else h.(table := DoneAt(h.table, at))
    case RestartOp => h.(table := Recovered(h.table), run := h.run + 1)
  }

  function After(capacity: nat, ops: seq<Op>): History {
    if ops == [] then FRESH else Apply(capacity, After(capacity, ops[..|ops| - 1]), ops[|ops| - 1])
  }

  predicate WasHanded(handed: seq<Handed>, sequence: nat) {
    exists i | 0 <= i < |handed| :: handed[i].sequence == sequence
  }

  /** Within a run messages go out in strictly increasing order, and a message is
      marked a duplicate exactly when an earlier run had handed it out. */
  predicate InOrder(handed: seq<Handed>) {
    && (forall i, j | 0 <= i < j < |handed| :: handed[i].run <= handed[j].run)
    && (forall i, j | 0 <= i < j < |handed| && handed[i].run == handed[j].run :: handed[i].sequence < handed[j].sequence)
    && (forall j | 0 <= j < |handed| :: handed[j].duplicate
          <==> exists i | 0 <= i < j :: handed[i].sequence == handed[j].sequence && handed[i].run < handed[j].run)
  }

  predicate Bounded(capacity: nat, table: Table) {
    Ordered(table) && CountHeld(table.rows) <= capacity
  }

  /** What this run handed out is below everything still waiting. */
  predicate BelowTheLine(h: History) {
    && (forall i | 0 <= i < |h.handed| :: h.handed[i].sequence < h.table.next && h.handed[i].run <= h.run)
    && (forall i, k | 0 <= i < |h.handed| && 0 <= k < |h.table.rows| && h.handed[i].run == h.run && h.table.rows[k].state.Waiting? ::
          h.handed[i].sequence < h.table.rows[k].sequence)
  }

  predicate Counted(h: History) {
    forall k | 0 <= k < |h.table.rows| :: h.table.rows[k].takenCount > 0 <==> WasHanded(h.handed, h.table.rows[k].sequence)
  }

  predicate Kept(capacity: nat, h: History) {
    Bounded(capacity, h.table) && InOrder(h.handed) && BelowTheLine(h) && Counted(h)
  }

  lemma AddKeeps(capacity: nat, h: History, message: Inbound)
    requires Kept(capacity, h)
    ensures Kept(capacity, Apply(capacity, h, AddOp(message)))
  {
    hide InOrder;
    var row := Row(h.table.next, message, Waiting, 0);
    HeldAfterInsert(h.table.rows, row);
    var after := Apply(capacity, h, AddOp(message));
    assert after.handed == h.handed;
    assert forall k | 0 <= k < |h.table.rows| :: after.table.rows[k] == h.table.rows[k];
    assert !WasHanded(h.handed, h.table.next);
  }

  lemma HandedGrows(handed: seq<Handed>, one: Handed)
    ensures forall sequence :: WasHanded(handed + [one], sequence) <==> WasHanded(handed, sequence) || sequence == one.sequence
  {
    var more := handed + [one];
    assert more[|handed|] == one;
    forall sequence | WasHanded(handed, sequence) ensures WasHanded(more, sequence) {
      var i :| 0 <= i < |handed| && handed[i].sequence == sequence;
      assert more[i].sequence == sequence;
    }
  }

  lemma OrderGrows(handed: seq<Handed>, one: Handed)
    requires InOrder(handed)
    requires forall i | 0 <= i < |handed| :: handed[i].run < one.run || (handed[i].run == one.run && handed[i].sequence < one.sequence)
    requires one.duplicate <==> WasHanded(handed, one.sequence)
    ensures InOrder(handed + [one])
  {
    var more := handed + [one];
    assert more[|handed|] == one;
    assert forall i | 0 <= i < |handed| :: more[i] == handed[i];
    forall j | 0 <= j < |more|
      ensures more[j].duplicate <==> exists i | 0 <= i < j :: more[i].sequence == more[j].sequence && more[i].run < more[j].run
    {
      if j < |handed| {
        if handed[j].duplicate {
          var i :| 0 <= i < j && handed[i].sequence == handed[j].sequence && handed[i].run < handed[j].run;
          assert more[i].sequence == more[j].sequence;
        }
      } else if one.duplicate {
        var i :| 0 <= i < |handed| && handed[i].sequence == one.sequence;
        assert more[i].sequence == more[j].sequence;
      }
    }
  }

  lemma TakeKeeps(capacity: nat, h: History)
    requires Kept(capacity, h)
    ensures Kept(capacity, Apply(capacity, h, TakeOp))
  {
    hide InOrder, WasHanded;
    var at := OldestWaiting(h.table.rows);
    if at >= 0 {
      var row := h.table.rows[at];
      var one, table := Handed(h.run, row.sequence, row.takenCount > 0, row.message), TakenAt(h.table, at);
      HeldAfterUpdate(h.table.rows, at, table.rows[at]);
      assert Bounded(capacity, table);
      OrderGrows(h.handed, one);
      HandedGrows(h.handed, one);
      assert forall i | 0 <= i < |h.handed| :: (h.handed + [one])[i] == h.handed[i];
    }
  }

  lemma DoneKeeps(capacity: nat, h: History, sequence: nat)
    requires Kept(capacity, h)
    ensures Kept(capacity, Apply(capacity, h, DoneOp(sequence)))
  {
    hide InOrder, WasHanded;
    var at := Unfinished(h.table.rows, sequence);
    if at >= 0 {
      HeldAfterUpdate(h.table.rows, at, h.table.rows[at].(state := Done));
    }
  }

  lemma RestartKeeps(capacity: nat, h: History)
    requires Kept(capacity, h)
    ensures Kept(capacity, Apply(capacity, h, RestartOp))
  {
    hide InOrder, WasHanded;
    var rows := RecoveredRows(h.table.rows);
    RecoveryKeepsTheOrder(h.table.rows, h.table.next);
    AllCameBack(h.table.rows);
    RecoveryKeepsTheCount(h.table.rows);
    forall k | 0 <= k < |rows| ensures rows[k].takenCount > 0 <==> WasHanded(h.handed, rows[k].sequence) {
      assert CameBack(h.table.rows, rows[k]);
    }
  }

  /** Over every run of adds, takes, finishes and restarts, a crash standing
      between any two: the rows stay ordered and numbered once, the unfinished
      ones never pass the capacity, messages go out in strictly increasing order
      within a run, and the duplicate mark is set exactly when an earlier run had
      handed the message out. */
  lemma {:induction false} QueueKeepsOrderAndBound(capacity: nat, ops: seq<Op>)
    ensures Kept(capacity, After(capacity, ops))
  {
    if ops != [] {
      var before, op := ops[..|ops| - 1], ops[|ops| - 1];
      QueueKeepsOrderAndBound(capacity, before);
      match op
      case AddOp(message) => AddKeeps(capacity, After(capacity, before), message);
      case TakeOp => TakeKeeps(capacity, After(capacity, before));
      case DoneOp(sequence) => DoneKeeps(capacity, After(capacity, before), sequence);
      case RestartOp => RestartKeeps(capacity, After(capacity, before));
    }
  }

  /** The callers finish only what they hold. */
  predicate FinishOnlyTaken(capacity: nat, ops: seq<Op>) {
    ops == [] ||
    (&& FinishOnlyTaken(capacity, ops[..|ops| - 1])
     && match ops[|ops| - 1]
        case DoneOp(sequence) =>
          var rows := After(capacity, ops[..|ops| - 1]).table.rows;
          var at := Unfinished(rows, sequence); at >= 0 ==> rows[at].state.Taken?
        case _ => true)
  }

  predicate HandledBelowWaiting(table: Table) {
    forall i, j | 0 <= i < |table.rows| && 0 <= j < |table.rows| && !table.rows[i].state.Waiting? && table.rows[j].state.Waiting? ::
      table.rows[i].sequence < table.rows[j].sequence
  }

  /** And then every taken or finished message is below every waiting one. */
  lemma {:induction false} HandledStaysBelowWaiting(capacity: nat, ops: seq<Op>)
    requires FinishOnlyTaken(capacity, ops)
    ensures HandledBelowWaiting(After(capacity, ops).table)
  {
    if ops != [] {
      var before, op := ops[..|ops| - 1], ops[|ops| - 1];
      HandledStaysBelowWaiting(capacity, before);
      QueueKeepsOrderAndBound(capacity, before);
      var h := After(capacity, before);
      if op.RestartOp? {
        AllCameBack(h.table.rows);
      }
    }
  }

  // ---------------------------------------------------------------- the queue itself

  class MessageQueue {
    const capacity: nat
    var rows: seq<Row>
    var next: nat
    var nudged: bool
    var closed: bool

    function OnDisk(): Table
      reads this
    {
      Table(rows, next)
    }

    ghost predicate Valid()
      reads this
    {
      Ordered(OnDisk())
    }

    /** Opening recovers what the last run left; nothing nudges yet. */
    constructor Open(left: Table, capacity: nat)
      requires Ordered(left) && capacity >= 1
      ensures Valid() && OnDisk() == Recovered(left) && this.capacity == capacity && !closed && !nudged
    {
      RecoveryKeepsTheOrder(left.rows, left.next);
      this.capacity := capacity;
      rows, next := RecoveredRows(left.rows), left.next;
      nudged, closed := false, false;
    }

    method Close()
      modifies this
      ensures closed && OnDisk() == old(OnDisk())
    {
      closed := true;
    }

    /** A message is on disk, and the one-slot nudge full, before Add returns. */
    method Add(message: Inbound) returns (added: Result<nat, QueueError>)
      requires Valid()
      modifies this
      ensures Valid() && closed == old(closed)
      ensures added.Ok? ==> added.value == old(next) && OnDisk() == Inserted(old(OnDisk()), message) && nudged
      ensures added.Err? ==> OnDisk() == old(OnDisk()) && nudged == old(nudged)
      ensures added.Ok? <==> !(AllSpace(message.text) && message.attachments == []) && message.channel != ""
                             && !closed && CountHeld(old(rows)) < capacity
    {
      if AllSpace(message.text) && message.attachments == [] {
        return Err(NothingInTheMessage);
      }
      if message.channel == "" {
        return Err(NoChannelNamed);
      }
      if closed {
        return Err(QueueClosed);
      }
      var held := CountHeld(rows);
      if held >= capacity {
        return Err(QueueFull(held, capacity));
      }
      added := Ok(next);
      rows, next := rows + [Row(next, message, Waiting, 0)], next + 1;
      nudged := true;
    }

    method Take() returns (taken: Result<Option<Queued>, QueueError>)
      requires Valid()
      modifies this
      ensures Valid() && closed == old(closed) && nudged == old(nudged)
      ensures taken.Err? <==> old(closed)
      ensures var at := OldestWaiting(old(rows));
        if closed || at < 0 then OnDisk() == old(OnDisk()) && (taken.Ok? ==> taken.value.None?)
        else taken == Ok(Some(HandedOut(old(rows)[at]))) && OnDisk() == TakenAt(old(OnDisk()), at)
    {
      if closed {
        return Err(QueueClosed);
      }
      var at := OldestWaiting(rows);
      if at < 0 {
        return Ok(None);
      }
      taken := Ok(Some(HandedOut(rows[at])));
      rows := rows[at := rows[at].(state := Taken, takenCount := rows[at].takenCount + 1)];
    }

    method Finish(sequence: nat) returns (error: Option<QueueError>)
      requires Valid()
      modifies this
      ensures Valid() && closed == old(closed) && nudged == old(nudged)
      ensures var at := Unfinished(old(rows), sequence);
        if closed || at < 0 then OnDisk() == old(OnDisk()) && error == Some(if closed then QueueClosed else NotHeld(sequence))
        else error.None? && OnDisk() == DoneAt(old(OnDisk()), at)
    {
      if closed {
        return Some(QueueClosed);
      }
      var at := Unfinished(rows, sequence);
      if at < 0 {
        return Some(NotHeld(sequence));
      }
      rows := rows[at := rows[at].(state := Done)];
      return None;
    }
  }
}
