/** The queue as a line of messages, with no table in it, and that the table keeps
    exactly that line over every run. */
module Line {
  import opened Text
  import opened Queue

  /** The messages accepted, oldest first, the one under number n at n - 1; which numbers
      are finished; and what was handed out, in which run of the program. */
  datatype MessageLine = MessageLine(added: seq<Inbound>, finished: set<nat>, run: nat, handed: seq<Handed>)

  predicate IsUnfinished(l: MessageLine, n: nat) { 1 <= n <= |l.added| && n !in l.finished }

  predicate HandedThisRun(l: MessageLine, n: nat) {
    exists i | 0 <= i < |l.handed| :: l.handed[i].run == l.run && l.handed[i].sequence == n
  }

  /** Not finished, and not handed out since the program started. */
  predicate IsNext(l: MessageLine, n: nat) { IsUnfinished(l, n) && !HandedThisRun(l, n) }

  /** The least number from here on that may be handed out. */
  function LeastFrom(l: MessageLine, n: nat): (least: Option<nat>)
    ensures least.Some? ==> n <= least.value && IsNext(l, least.value) && forall m | n <= m < least.value :: !IsNext(l, m)
    ensures least.None? ==> forall m | m >= n :: !IsNext(l, m)
    decreases |l.added| + 1 - n
  {
    if n > |l.added| then None else if IsNext(l, n) then Some(n) else LeastFrom(l, n + 1)
  }

  /** An accepted message is one more at the end, while fewer than the capacity are
      unfinished; the least number that may be handed out is, with the message that was
      added under it, marked when it was handed out before; a number is finished once; and
      a restart changes nothing but the run. */
  function Moved(capacity: nat, l: MessageLine, op: Op): MessageLine {
    match op
    case AddOp(message) => if |l.added| - |l.finished| >= capacity then l else l.(added := l.added + [message])
    case TakeOp =>
      (match LeastFrom(l, 1)
       case None => l
       case Some(n) => l.(handed := l.handed + [Handed(l.run, n, WasHanded(l.handed, n), l.added[n - 1])]))
    case DoneOp(n) => if IsUnfinished(l, n) then l.(finished := l.finished + {n}) else l
    case RestartOp => l.(run := l.run + 1)
  }

  function LineAfter(capacity: nat, ops: seq<Op>): MessageLine {
    if ops == [] then MessageLine([], {}, 0, []) else Moved(capacity, LineAfter(capacity, ops[..|ops| - 1]), ops[|ops| - 1])
  }

  // ---------------------------------------------------------------- the table keeps the line

  /** One row shows what the line says of its number. */
  predicate Shows(l: MessageLine, row: Row) {
    && 1 <= row.sequence <= |l.added| && row.message == l.added[row.sequence - 1]
    && (row.state.Done? <==> row.sequence in l.finished)
    && (row.state.Waiting? ==> !HandedThisRun(l, row.sequence))
    && (row.state.Taken? ==> HandedThisRun(l, row.sequence))
  }

  predicate IsThere(rows: seq<Row>, n: nat) { exists k | 0 <= k < |rows| :: rows[k].sequence == n }

  /** The table and the history tell of this line. */
  ghost predicate Keeps(h: History, l: MessageLine) {
    && h.run == l.run && h.handed == l.handed && h.table.next == |l.added| + 1
    && (forall k | 0 <= k < |h.table.rows| :: Shows(l, h.table.rows[k]))
    && (forall n: nat | IsUnfinished(l, n) :: IsThere(h.table.rows, n))
    && (forall n | n in l.finished :: 1 <= n <= |l.added|)
    && CountHeld(h.table.rows) == |l.added| - |l.finished|
  }

  lemma AddKeepsTheLine(capacity: nat, h: History, l: MessageLine, message: Inbound)
    requires Kept(capacity, h) && Keeps(h, l)
    ensures Keeps(Apply(capacity, h, AddOp(message)), Moved(capacity, l, AddOp(message)))
  {
    hide InOrder, Counted;
    var after, line := Apply(capacity, h, AddOp(message)), Moved(capacity, l, AddOp(message));
    var row := Row(h.table.next, message, Waiting, 0);
    HeldAfterInsert(h.table.rows, row);
    if CountHeld(h.table.rows) < capacity {
      assert after.table.rows == h.table.rows + [row];
      forall k | 0 <= k < |after.table.rows| ensures Shows(line, after.table.rows[k]) {
        if k < |h.table.rows| {
          assert Shows(l, h.table.rows[k]);
        } else {
          assert forall i | 0 <= i < |h.handed| :: h.handed[i].sequence < h.table.next;
        }
      }
      forall n: nat | IsUnfinished(line, n) ensures IsThere(after.table.rows, n) {
        if n == h.table.next {
          assert after.table.rows[|h.table.rows|].sequence == n;
        } else {
          assert IsUnfinished(l, n);
          StillThere(h.table.rows, row, n);
        }
      }
    }
  }

  lemma StillThere(rows: seq<Row>, row: Row, n: nat)
    requires IsThere(rows, n)
    ensures IsThere(rows + [row], n)
  {
    var k :| 0 <= k < |rows| && rows[k].sequence == n;
    assert (rows + [row])[k].sequence == n;
  }

  lemma ThereAfterUpdate(rows: seq<Row>, at: nat, row: Row, n: nat)
    requires at < |rows| && row.sequence == rows[at].sequence && IsThere(rows, n)
    ensures IsThere(rows[at := row], n)
  {
    var k :| 0 <= k < |rows| && rows[k].sequence == n;
    assert rows[at := row][k].sequence == n;
  }

  /** The oldest waiting row is the least number that may be handed out. */
  lemma TheOldestIsTheLeast(capacity: nat, h: History, l: MessageLine)
    requires Kept(capacity, h) && Keeps(h, l)
    ensures var at := OldestWaiting(h.table.rows);
      LeastFrom(l, 1) == if at < 0 then None else Some(h.table.rows[at].sequence)
  {
    hide InOrder, WasHanded, HandedThisRun, Counted, BelowTheLine, CountHeld;
    var rows, at, least := h.table.rows, OldestWaiting(h.table.rows), LeastFrom(l, 1);
    if least.Some? {
      assert IsThere(rows, least.value);
      var k :| 0 <= k < |rows| && rows[k].sequence == least.value;
      assert Shows(l, rows[k]) && rows[k].state.Waiting?;
      assert at >= 0 && at <= k;
    }
    if at >= 0 {
      assert Shows(l, rows[at]) && IsNext(l, rows[at].sequence);
      assert least.Some? && least.value <= rows[at].sequence;
    }
  }

  lemma TakeKeepsTheLine(capacity: nat, h: History, l: MessageLine)
    requires Kept(capacity, h) && Keeps(h, l)
    ensures Keeps(Apply(capacity, h, TakeOp), Moved(capacity, l, TakeOp))
  {
    hide InOrder, WasHanded, HandedThisRun, BelowTheLine, LeastFrom;
    var rows, at := h.table.rows, OldestWaiting(h.table.rows);
    TheOldestIsTheLeast(capacity, h, l);
    if at >= 0 {
      var row, after, line := rows[at], Apply(capacity, h, TakeOp), Moved(capacity, l, TakeOp);
      assert Shows(l, row);
      HeldAfterUpdate(rows, at, after.table.rows[at]);
      forall k | 0 <= k < |rows| ensures Shows(line, after.table.rows[k]) {
        assert Shows(l, rows[k]);
        OneMoreHanded(l, line.handed[|l.handed|], rows[k].sequence);
      }
      forall n: nat | IsUnfinished(line, n) ensures IsThere(after.table.rows, n) {
        assert IsUnfinished(l, n);
        ThereAfterUpdate(rows, at, after.table.rows[at], n);
      }
    }
  }

  lemma OneMoreHanded(l: MessageLine, one: Handed, n: nat)
    ensures HandedThisRun(l.(handed := l.handed + [one]), n) <==> HandedThisRun(l, n) || (one.run == l.run && one.sequence == n)
  {
    var more := l.handed + [one];
    assert more[|l.handed|] == one;
    if HandedThisRun(l, n) {
      var i :| 0 <= i < |l.handed| && l.handed[i].run == l.run && l.handed[i].sequence == n;
      assert more[i] == l.handed[i];
    }
  }

  lemma DoneKeepsTheLine(capacity: nat, h: History, l: MessageLine, n: nat)
    requires Kept(capacity, h) && Keeps(h, l)
    ensures Keeps(Apply(capacity, h, DoneOp(n)), Moved(capacity, l, DoneOp(n)))
  {
    hide InOrder, WasHanded, HandedThisRun, BelowTheLine, Counted;
    var rows, at := h.table.rows, Unfinished(h.table.rows, n);
    UnfinishedIsThere(h, l, n);
    if at >= 0 {
      var after, line := Apply(capacity, h, DoneOp(n)), Moved(capacity, l, DoneOp(n));
      HeldAfterUpdate(rows, at, rows[at].(state := RowState.Done));
      forall k | 0 <= k < |rows| ensures Shows(line, after.table.rows[k]) {
        assert Shows(l, rows[k]);
        SameHanded(l, line, rows[k].sequence);
        assert k != at ==> rows[k].sequence != n;
      }
      forall m: nat | IsUnfinished(line, m) ensures IsThere(after.table.rows, m) {
        assert IsUnfinished(l, m);
        ThereAfterUpdate(rows, at, after.table.rows[at], m);
      }
    }
  }

  lemma SameHanded(l: MessageLine, line: MessageLine, n: nat)
    requires line.handed == l.handed && line.run == l.run
    ensures HandedThisRun(line, n) == HandedThisRun(l, n)
  {
  }

  lemma UnfinishedIsThere(h: History, l: MessageLine, n: nat)
    requires Keeps(h, l)
    ensures Unfinished(h.table.rows, n) >= 0 <==> IsUnfinished(l, n)
  {
    hide HandedThisRun, CountHeld;
    var rows, at := h.table.rows, Unfinished(h.table.rows, n);
    if at >= 0 {
      assert Shows(l, rows[at]);
    }
    if IsUnfinished(l, n) {
      assert IsThere(rows, n);
      var k :| 0 <= k < |rows| && rows[k].sequence == n;
      assert Shows(l, rows[k]);
    }
  }

  lemma RestartKeepsTheLine(capacity: nat, h: History, l: MessageLine)
    requires Kept(capacity, h) && Keeps(h, l)
    ensures Keeps(Apply(capacity, h, RestartOp), Moved(capacity, l, RestartOp))
  {
    hide InOrder, WasHanded, Counted, RecoveredRows, CountHeld;
    var rows, after, line := h.table.rows, RecoveredRows(h.table.rows), Moved(capacity, l, RestartOp);
    RecoveryKeepsTheCount(rows);
    AllCameBack(rows);
    forall k | 0 <= k < |after| ensures Shows(line, after[k]) {
      assert CameBack(rows, after[k]);
      var j :| 0 <= j < |rows| && !rows[j].state.Done? && after[k] == PutBack(rows[j]);
      assert Shows(l, rows[j]);
      assert !HandedThisRun(line, after[k].sequence);
    }
    forall n: nat | IsUnfinished(line, n) ensures IsThere(after, n) {
      assert IsUnfinished(l, n) && IsThere(rows, n);
      var k :| 0 <= k < |rows| && rows[k].sequence == n;
      assert Shows(l, rows[k]);
      RecoveryLosesNone(rows, rows[k]);
      var j :| 0 <= j < |after| && after[j] == PutBack(rows[k]);
      assert after[j].sequence == n;
    }
  }

  /** Over every run of adds, takes, finishes and restarts the table keeps exactly the
      line: what is handed out under a number is the very message added under it, the
      oldest that is unfinished and not yet handed out since the start, and none is lost
      or comes back finished. */
  lemma {:induction false} TheTableKeepsTheLine(capacity: nat, ops: seq<Op>)
    ensures Keeps(After(capacity, ops), LineAfter(capacity, ops))
  {
    hide Keeps, Kept, Apply, Moved;
    if ops == [] {
      NothingKept(capacity);
    } else {
      var before, op := ops[..|ops| - 1], ops[|ops| - 1];
      var h, l := After(capacity, before), LineAfter(capacity, before);
      TheTableKeepsTheLine(capacity, before);
      QueueKeepsOrderAndBound(capacity, before);
      match op
      case AddOp(message) => AddKeepsTheLine(capacity, h, l, message);
      case TakeOp => TakeKeepsTheLine(capacity, h, l);
      case DoneOp(n) => DoneKeepsTheLine(capacity, h, l, n);
      case RestartOp => RestartKeepsTheLine(capacity, h, l);
    }
  }

  lemma NothingKept(capacity: nat)
    ensures Keeps(After(capacity, []), LineAfter(capacity, []))
  {
  }

  /** In particular: what is handed out under a number is the message added under it. */
  lemma {:induction false} WhatIsHandedOutWasAdded(capacity: nat, ops: seq<Op>, i: nat)
    requires i < |After(capacity, ops).handed|
    ensures var one, added := After(capacity, ops).handed[i], LineAfter(capacity, ops).added;
      1 <= one.sequence <= |added| && one.message == added[one.sequence - 1]
  {
    hide Apply, Kept, Moved;
    TheTableKeepsTheLine(capacity, ops);
    HandedWasAdded(capacity, ops, i);
  }

  lemma {:induction false} HandedWasAdded(capacity: nat, ops: seq<Op>, i: nat)
    requires i < |LineAfter(capacity, ops).handed|
    ensures var l := LineAfter(capacity, ops);
      1 <= l.handed[i].sequence <= |l.added| && l.handed[i].message == l.added[l.handed[i].sequence - 1]
  {
    hide WasHanded;
    var before := ops[..|ops| - 1];
    if i < |LineAfter(capacity, before).handed| {
      HandedWasAdded(capacity, before, i);
    }
  }
}
