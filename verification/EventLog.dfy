/**
  The per-job event log: sequence numbers read and inserted inside transactions that
  interleave, a unique constraint that arbitrates, and replay from a position.

  A transaction sees the committed rows and its own (READ COMMITTED). A row whose
  key an open transaction holds makes an insert wait; a row whose key is committed or
  the inserter's own makes it fail, which spoils the transaction.
 */
module EventLog {

  import opened Wrappers

  type TxId = nat

  datatype Key = Key(org: nat, job: nat)

  datatype Event = Event(key: Key, sequence: nat, eventType: string, payload: string)

  datatype LastRead = LastRead(key: Key, sequence: nat)

  /** `read` is what the last sequence query of the transaction returned and no insert has used yet. */
  datatype Tx = Tx(read: Option<LastRead>, pending: seq<Event>, spoiled: bool)

  datatype Log = Log(committed: seq<Event>, open: map<TxId, Tx>)

  datatype Action =
    | Begin(tx: TxId)
    | ReadLast(tx: TxId, key: Key)
    | Insert(tx: TxId, eventType: string, payload: string)
    | Commit(tx: TxId)
    | Rollback(tx: TxId)

  // ------------------------------------------------------------------ queries

  /** The rows of one job, in the order they stand. */
  function Of(rows: seq<Event>, key: Key): seq<Event> {
    if rows == [] then []
    else Of(rows[..|rows| - 1], key) + if rows[|rows| - 1].key == key then [rows[|rows| - 1]] else []
  }

  /** ORDER BY sequence DESC LIMIT 1, or 0 when there is none. */
  function LastSequence(rows: seq<Event>, key: Key): nat {
    if rows == [] then 0
    else
      var rest := LastSequence(rows[..|rows| - 1], key);
      var last := rows[|rows| - 1];
      if last.key == key && last.sequence > rest then last.sequence else rest
  }

  function After(rows: seq<Event>, last: int): seq<Event> {
    if rows == [] then []
    else After(rows[..|rows| - 1], last) + if rows[|rows| - 1].sequence > last then [rows[|rows| - 1]] else []
  }

  function InsertSorted(e: Event, rows: seq<Event>): seq<Event> {
    if rows == [] || rows[|rows| - 1].sequence <= e.sequence then rows + [e]
    else InsertSorted(e, rows[..|rows| - 1]) + [rows[|rows| - 1]]
  }

  function SortBySequence(rows: seq<Event>): seq<Event> {
    if rows == [] then [] else InsertSorted(rows[|rows| - 1], SortBySequence(rows[..|rows| - 1]))
  }

  /** The rows of a job after a position, ascending. */
  function Replay(rows: seq<Event>, key: Key, last: int): seq<Event> {
    SortBySequence(After(Of(rows, key), last))
  }

  predicate Taken(rows: seq<Event>, key: Key, sequence: nat) {
    exists i :: 0 <= i < |rows| && rows[i].key == key && rows[i].sequence == sequence
  }

  predicate HeldByOther(s: Log, tx: TxId, key: Key, sequence: nat) {
    exists u :: u in s.open && u != tx && Taken(s.open[u].pending, key, sequence)
  }

  // -------------------------------------------------------------------- steps

  predicate CanWork(s: Log, tx: TxId) {
    tx in s.open && !s.open[tx].spoiled
  }

  function Visible(s: Log, tx: TxId): seq<Event>
    requires tx in s.open
  {
    s.committed + s.open[tx].pending
  }

  function StepRead(s: Log, tx: TxId, key: Key): Log
    requires CanWork(s, tx)
  {
    s.(open := s.open[tx := s.open[tx].(read := Some(LastRead(key, LastSequence(Visible(s, tx), key))))])
  }

  function NewRow(s: Log, tx: TxId, eventType: string, payload: string): Event
    requires CanWork(s, tx) && s.open[tx].read.Some?
  {
    Event(s.open[tx].read.value.key, s.open[tx].read.value.sequence + 1, eventType, payload)
  }

  predicate Violates(s: Log, tx: TxId)
    requires CanWork(s, tx) && s.open[tx].read.Some?
  {
    Taken(Visible(s, tx), s.open[tx].read.value.key, s.open[tx].read.value.sequence + 1)
  }

  predicate Waits(s: Log, tx: TxId)
    requires CanWork(s, tx) && s.open[tx].read.Some?
  {
    !Violates(s, tx) && HeldByOther(s, tx, s.open[tx].read.value.key, s.open[tx].read.value.sequence + 1)
  }

  function StepInsert(s: Log, tx: TxId, eventType: string, payload: string): Log
    requires CanWork(s, tx) && s.open[tx].read.Some?
  {
    if Violates(s, tx) then s.(open := s.open[tx := Tx(None, [], true)])
    else if Waits(s, tx) then s
    else s.(open := s.open[tx := Tx(None, s.open[tx].pending + [NewRow(s, tx, eventType, payload)], false)])
  }

  function StepCommit(s: Log, tx: TxId): Log
    requires tx in s.open
  {
    Log(s.committed + s.open[tx].pending, s.open - {tx})
  }

  /** A step that cannot be taken changes nothing. */
  function Step(s: Log, a: Action): Log {
    match a
    case Begin(tx) => if tx in s.open then s else s.(open := s.open[tx := Tx(None, [], false)])
    case ReadLast(tx, key) => if CanWork(s, tx) then StepRead(s, tx, key) else s
    case Insert(tx, eventType, payload) =>
      if CanWork(s, tx) && s.open[tx].read.Some? then StepInsert(s, tx, eventType, payload) else s
    case Commit(tx) => if tx in s.open then StepCommit(s, tx) else s
    case Rollback(tx) => s.(open := s.open - {tx})
  }

  function Run(s: Log, actions: seq<Action>): Log {
    if actions == [] then s else Step(Run(s, actions[..|actions| - 1]), actions[|actions| - 1])
  }

  const EMPTY := Log([], map[])

  // ---------------------------------------------------------------- invariant

  predicate Consecutive(rows: seq<Event>, from: nat) {
    forall i :: 0 <= i < |rows| ==> rows[i].sequence == from + i + 1
  }

  ghost predicate TxInv(s: Log, tx: TxId, key: Key)
    requires tx in s.open
  {
    var n, own := |Of(s.committed, key)|, Of(s.open[tx].pending, key);
    && Consecutive(own, n)
    && (s.open[tx].spoiled ==> s.open[tx].pending == [])
    && (s.open[tx].read.Some? && s.open[tx].read.value.key == key ==> s.open[tx].read.value.sequence <= n + |own|)
  }

  ghost predicate KeyInv(s: Log, key: Key) {
    && Consecutive(Of(s.committed, key), 0)
    && (forall tx :: tx in s.open ==> TxInv(s, tx, key))
    && (forall t, u :: t in s.open && u in s.open && t != u ==>
          Of(s.open[t].pending, key) == [] || Of(s.open[u].pending, key) == [])
  }

  ghost predicate Inv(s: Log) {
    forall key :: KeyInv(s, key)
  }

  // ------------------------------------------------------------ query lemmas

  lemma {:induction false} OfConcat(a: seq<Event>, b: seq<Event>, key: Key)
    ensures Of(a + b, key) == Of(a, key) + Of(b, key)
  {
    if b == [] {
      assert a + b == a;
    } else {
      OfConcat(a, b[..|b| - 1], key);
      assert (a + b)[..|a + b| - 1] == a + b[..|b| - 1];
    }
  }

  lemma {:induction false} LastIsLength(rows: seq<Event>, key: Key)
    requires Consecutive(Of(rows, key), 0)
    ensures LastSequence(rows, key) == |Of(rows, key)|
  {
    if rows != [] {
      var init := rows[..|rows| - 1];
      assert forall i :: 0 <= i < |Of(init, key)| ==> Of(rows, key)[i] == Of(init, key)[i];
      LastIsLength(init, key);
      if rows[|rows| - 1].key == key {
        assert Of(rows, key)[|Of(init, key)|] == rows[|rows| - 1];
      }
    }
  }

  lemma {:induction false} TakenIsIn(rows: seq<Event>, key: Key, sequence: nat)
    ensures Taken(rows, key, sequence) <==> exists i :: 0 <= i < |Of(rows, key)| && Of(rows, key)[i].sequence == sequence
  {
    if rows != [] {
      var init := rows[..|rows| - 1];
      var last := rows[|rows| - 1];
      TakenIsIn(init, key, sequence);
      if Taken(rows, key, sequence) {
        var i :| 0 <= i < |rows| && rows[i].key == key && rows[i].sequence == sequence;
        if i < |init| {
          assert init[i] == rows[i];
          var j :| 0 <= j < |Of(init, key)| && Of(init, key)[j].sequence == sequence;
          assert Of(rows, key)[j].sequence == sequence;
        } else {
          assert Of(rows, key)[|Of(init, key)|].sequence == sequence;
        }
      }
      if i :| 0 <= i < |Of(rows, key)| && Of(rows, key)[i].sequence == sequence {
        if i < |Of(init, key)| {
          var j :| 0 <= j < |init| && init[j].key == key && init[j].sequence == sequence;
          assert rows[j] == init[j];
        } else {
          assert rows[|init|].key == key && rows[|init|].sequence == sequence;
        }
      }
    }
  }

  /** For rows numbered from + 1 onwards, a number is taken exactly when it lies in their range. */
  lemma TakenExactly(rows: seq<Event>, key: Key, from: nat, sequence: nat)
    requires Consecutive(Of(rows, key), from)
    ensures Taken(rows, key, sequence) <==> from < sequence <= from + |Of(rows, key)|
  {
    TakenIsIn(rows, key, sequence);
    if from < sequence <= from + |Of(rows, key)| {
      assert Of(rows, key)[sequence - from - 1].sequence == sequence;
    }
  }

  lemma VisibleNumbered(s: Log, tx: TxId, key: Key)
    requires KeyInv(s, key) && tx in s.open
    ensures Consecutive(Of(Visible(s, tx), key), 0)
    ensures |Of(Visible(s, tx), key)| == |Of(s.committed, key)| + |Of(s.open[tx].pending, key)|
  {
    assert TxInv(s, tx, key);
    OfConcat(s.committed, s.open[tx].pending, key);
  }

  /** Exactly when an insert that follows a read goes in, fails or waits. */
  lemma InsertOutcome(s: Log, tx: TxId)
    requires CanWork(s, tx) && s.open[tx].read.Some? && KeyInv(s, s.open[tx].read.value.key)
    ensures var read := s.open[tx].read.value;
            var seen := |Of(Visible(s, tx), read.key)|;
            && (Violates(s, tx) <==> read.sequence < seen)
            && (Waits(s, tx) <==> read.sequence == seen
                                  && exists u :: u in s.open && u != tx && Of(s.open[u].pending, read.key) != [])
  {
    var read := s.open[tx].read.value;
    VisibleNumbered(s, tx, read.key);
    assert TxInv(s, tx, read.key);
    TakenExactly(Visible(s, tx), read.key, 0, read.sequence + 1);
    forall u | u in s.open && u != tx
      ensures Of(s.open[u].pending, read.key) != [] && read.sequence == |Of(Visible(s, tx), read.key)| ==>
                Taken(s.open[u].pending, read.key, read.sequence + 1)
      ensures Taken(s.open[u].pending, read.key, read.sequence + 1) ==> Of(s.open[u].pending, read.key) != []
    {
      assert TxInv(s, u, read.key);
      TakenExactly(s.open[u].pending, read.key, |Of(s.committed, read.key)|, read.sequence + 1);
    }
  }

  // ------------------------------------------------------------- preservation

  lemma ReadKeeps(s: Log, tx: TxId, k: Key, key: Key)
    requires KeyInv(s, key) && CanWork(s, tx) && (k == key ==> KeyInv(s, k))
    ensures KeyInv(StepRead(s, tx, k), key)
  {
    var s' := StepRead(s, tx, k);
    forall u | u in s'.open ensures TxInv(s', u, key) {
      assert TxInv(s, u, key);
      if u == tx && k == key {
        VisibleNumbered(s, tx, key);
        LastIsLength(Visible(s, tx), key);
      }
    }
  }

  lemma OfExtended(rows: seq<Event>, row: Event, key: Key)
    ensures Of(rows + [row], key) == if row.key == key then Of(rows, key) + [row] else Of(rows, key)
  {
    assert (rows + [row])[..|rows|] == rows;
  }

  /** The row that goes in carries the next number, and no other transaction has rows of its job. */
  lemma InsertTakesNext(s: Log, tx: TxId, key: Key)
    requires CanWork(s, tx) && s.open[tx].read.Some? && s.open[tx].read.value.key == key && KeyInv(s, key)
    requires !Violates(s, tx) && !Waits(s, tx)
    ensures s.open[tx].read.value.sequence == |Of(s.committed, key)| + |Of(s.open[tx].pending, key)|
    ensures forall u :: u in s.open && u != tx ==> Of(s.open[u].pending, key) == []
  {
    InsertOutcome(s, tx);
    VisibleNumbered(s, tx, key);
    assert TxInv(s, tx, key);
  }

  lemma SpoiledKeeps(s: Log, tx: TxId, key: Key)
    requires KeyInv(s, key) && tx in s.open
    ensures KeyInv(s.(open := s.open[tx := Tx(None, [], true)]), key)
  {
    var s' := s.(open := s.open[tx := Tx(None, [], true)]);
    forall u | u in s'.open ensures TxInv(s', u, key) {
      if u != tx { assert TxInv(s, u, key); }
    }
  }

  function Appended(s: Log, tx: TxId, event: Event): Log
    requires tx in s.open
  {
    s.(open := s.open[tx := Tx(None, s.open[tx].pending + [event], false)])
  }

  lemma AppendedKeeps(s: Log, tx: TxId, row: Event, key: Key)
    requires KeyInv(s, key) && CanWork(s, tx)
    requires row.key == key ==> row.sequence == |Of(s.committed, key)| + |Of(s.open[tx].pending, key)| + 1
    requires row.key == key ==> forall u :: u in s.open && u != tx ==> Of(s.open[u].pending, key) == []
    ensures KeyInv(Appended(s, tx, row), key)
  {
    var s' := Appended(s, tx, row);
    OfExtended(s.open[tx].pending, row, key);
    assert TxInv(s, tx, key);
    forall u | u in s'.open ensures TxInv(s', u, key) {
      if u != tx { assert TxInv(s, u, key) && s'.open[u] == s.open[u]; }
    }
  }

  lemma InsertKeeps(s: Log, tx: TxId, eventType: string, payload: string, key: Key)
    requires KeyInv(s, key) && CanWork(s, tx) && s.open[tx].read.Some?
    ensures KeyInv(StepInsert(s, tx, eventType, payload), key)
  {
    var row := NewRow(s, tx, eventType, payload);
    if Violates(s, tx) {
      SpoiledKeeps(s, tx, key);
    } else if !Waits(s, tx) {
      if row.key == key {
        InsertTakesNext(s, tx, key);
      }
      AppendedKeeps(s, tx, row, key);
    }
  }

  lemma CommitKeeps(s: Log, tx: TxId, key: Key)
    requires KeyInv(s, key) && tx in s.open
    ensures KeyInv(StepCommit(s, tx), key)
  {
    var s' := StepCommit(s, tx);
    VisibleNumbered(s, tx, key);
    OfConcat(s.committed, s.open[tx].pending, key);
    forall u | u in s'.open ensures TxInv(s', u, key) {
      assert TxInv(s, u, key) && TxInv(s, tx, key);
    }
  }

  lemma StepKeepsKey(s: Log, a: Action, key: Key)
    requires KeyInv(s, key)
    ensures KeyInv(Step(s, a), key)
  {
    match a
    case Begin(tx) =>
      var s' := Step(s, a);
      forall u | u in s'.open ensures TxInv(s', u, key) {
        if u in s.open { assert TxInv(s, u, key); }
      }
    case ReadLast(tx, k) => if CanWork(s, tx) { ReadKeeps(s, tx, k, key); }
    case Insert(tx, eventType, payload) =>
      if CanWork(s, tx) && s.open[tx].read.Some? { InsertKeeps(s, tx, eventType, payload, key); }
    case Commit(tx) => if tx in s.open { CommitKeeps(s, tx, key); }
    case Rollback(tx) =>
      var s' := Step(s, a);
      forall u | u in s'.open ensures TxInv(s', u, key) {
        assert TxInv(s, u, key);
      }
  }

  lemma StepKeepsInv(s: Log, a: Action)
    requires Inv(s)
    ensures Inv(Step(s, a))
  {
    forall key ensures KeyInv(Step(s, a), key) {
      StepKeepsKey(s, a, key);
    }
  }

  lemma {:induction false} RunKeepsInv(s: Log, actions: seq<Action>)
    requires Inv(s)
    ensures Inv(Run(s, actions))
  {
    if actions != [] {
      RunKeepsInv(s, actions[..|actions| - 1]);
      StepKeepsInv(Run(s, actions[..|actions| - 1]), actions[|actions| - 1]);
    }
  }

  // ----------------------------------------------------------------- theorems

  /** Whatever transactions interleave, the committed events of a job are numbered 1..n in commit order. */
  lemma CommittedNumberedFromOne(actions: seq<Action>, key: Key)
    ensures Consecutive(Of(Run(EMPTY, actions).committed, key), 0)
  {
    RunKeepsInv(EMPTY, actions);
    assert KeyInv(Run(EMPTY, actions), key);
  }

  /** The log of a job only grows at its end. */
  lemma {:induction false} CommittedOnlyGrows(s: Log, actions: seq<Action>, key: Key)
    ensures s.committed <= Run(s, actions).committed
    ensures Of(s.committed, key) <= Of(Run(s, actions).committed, key)
  {
    if actions != [] {
      var mid := Run(s, actions[..|actions| - 1]);
      CommittedOnlyGrows(s, actions[..|actions| - 1], key);
      var end := Run(s, actions);
      if mid.committed != end.committed {
        var tx := actions[|actions| - 1].tx;
        OfConcat(mid.committed, mid.open[tx].pending, key);
      }
    }
  }

  /** A read followed at once by the insert never meets the unique constraint: it waits or takes the next number. */
  lemma AdjacentEmitNeverViolates(s: Log, tx: TxId, key: Key)
    requires KeyInv(s, key) && CanWork(s, tx)
    ensures var read := StepRead(s, tx, key);
            && !Violates(read, tx)
            && (Waits(read, tx) <==> exists u :: u in s.open && u != tx && Of(s.open[u].pending, key) != [])
            && read.open[tx].read.value.sequence == |Of(Visible(s, tx), key)|
  {
    var read := StepRead(s, tx, key);
    ReadKeeps(s, tx, key, key);
    VisibleNumbered(s, tx, key);
    LastIsLength(Visible(s, tx), key);
    InsertOutcome(read, tx);
    assert forall u :: u in s.open && u != tx ==> read.open[u] == s.open[u];
  }

  function Clamp(last: int, n: nat): nat {
    if last < 0 then 0 else if last > n then n else last
  }

  lemma {:induction false} AfterIsSuffix(rows: seq<Event>, last: int)
    requires Consecutive(rows, 0)
    ensures After(rows, last) == rows[Clamp(last, |rows|)..]
  {
    if rows != [] {
      var init := rows[..|rows| - 1];
      AfterIsSuffix(init, last);
      if last < |rows| {
        assert rows[Clamp(last, |rows|)..] == init[Clamp(last, |init|)..] + [rows[|rows| - 1]];
      }
    }
  }

  lemma InsertAtEnd(e: Event, rows: seq<Event>)
    requires rows != [] ==> rows[|rows| - 1].sequence <= e.sequence
    ensures InsertSorted(e, rows) == rows + [e]
  {
  }

  lemma {:induction false} SortingSorted(rows: seq<Event>, from: nat)
    requires Consecutive(rows, from)
    ensures SortBySequence(rows) == rows
  {
    if rows != [] {
      var init, last := rows[..|rows| - 1], rows[|rows| - 1];
      SortingSorted(init, from);
      InsertAtEnd(last, init);
      assert rows == init + [last];
    }
  }

  /** Replaying from k gives exactly the events k+1..n, in order; a position past the end gives none. */
  lemma ReplayIsSuffix(rows: seq<Event>, key: Key, last: int)
    requires Consecutive(Of(rows, key), 0)
    ensures var events := Replay(rows, key, last);
            && events == Of(rows, key)[Clamp(last, |Of(rows, key)|)..]
            && Consecutive(events, Clamp(last, |Of(rows, key)|))
  {
    AfterIsSuffix(Of(rows, key), last);
    SortingSorted(After(Of(rows, key), last), Clamp(last, |Of(rows, key)|));
  }

  /** Where a client stands after a batch: at the last event's number. */
  function Cursor(last: nat, batch: seq<Event>): nat {
    if batch == [] then last else batch[|batch| - 1].sequence
  }

  function RunAll(s: Log, segments: seq<seq<Action>>): Log
    decreases |segments|
  {
    if segments == [] then s else RunAll(Run(s, segments[0]), segments[1..])
  }

  /** What a client gathers that replays after every segment of a run, each time from where it stands. */
  function Resumed(s: Log, segments: seq<seq<Action>>, key: Key, last: nat): seq<Event>
    decreases |segments|
  {
    if segments == [] then []
    else
      var mid := Run(s, segments[0]);
      var batch := Replay(mid.committed, key, last);
      batch + Resumed(mid, segments[1..], key, Cursor(last, batch))
  }

  lemma {:induction false} RunAllGrows(s: Log, segments: seq<seq<Action>>, key: Key)
    requires Inv(s)
    ensures Inv(RunAll(s, segments)) && Of(s.committed, key) <= Of(RunAll(s, segments).committed, key)
    decreases |segments|
  {
    if segments != [] {
      RunKeepsInv(s, segments[0]);
      CommittedOnlyGrows(s, segments[0], key);
      RunAllGrows(Run(s, segments[0]), segments[1..], key);
    }
  }

  /** A batch and what follows its last event join up, for any log that has grown in between. */
  lemma BatchesJoin(before: seq<Event>, after: seq<Event>, last: nat)
    requires Consecutive(before, 0) && before <= after
    ensures var batch := before[Clamp(last, |before|)..];
            batch + after[Clamp(Cursor(last, batch), |after|)..] == after[Clamp(last, |after|)..]
  {
    var batch := before[Clamp(last, |before|)..];
    if batch != [] {
      assert batch[|batch| - 1] == before[|before| - 1];
    }
  }

  /** Replays resumed at successive points of any run lose nothing and repeat nothing. */
  lemma {:induction false} ResumedReplaysAreOne(s: Log, segments: seq<seq<Action>>, key: Key, last: nat)
    requires Inv(s) && segments != []
    ensures Resumed(s, segments, key, last) == Replay(RunAll(s, segments).committed, key, last)
    decreases |segments|
  {
    var mid := Run(s, segments[0]);
    var batch := Replay(mid.committed, key, last);
    RunKeepsInv(s, segments[0]);
    assert KeyInv(mid, key);
    ReplayIsSuffix(mid.committed, key, last);
    if |segments| == 1 {
      assert segments[1..] == [];
    } else {
      ResumedReplaysAreOne(mid, segments[1..], key, Cursor(last, batch));
      RunAllGrows(mid, segments[1..], key);
      var end := RunAll(mid, segments[1..]);
      assert KeyInv(end, key);
      ReplayIsSuffix(end.committed, key, last);
      ReplayIsSuffix(end.committed, key, Cursor(last, batch));
      BatchesJoin(Of(mid.committed, key), Of(end.committed, key), last);
    }
  }

  // ------------------------------------------------------- over a mutable store

  ghost predicate AnotherHolds(s: Log, tx: TxId, key: Key) {
    exists u :: u in s.open && u != tx && Of(s.open[u].pending, key) != []
  }

  predicate NoneBy(actions: seq<Action>, tx: TxId) {
    forall i :: 0 <= i < |actions| ==> actions[i].tx != tx
  }

  /** What a transaction read and wrote is not touched by the steps of others. */
  lemma {:induction false} OthersLeave(s: Log, tx: TxId, others: seq<Action>)
    requires tx in s.open && NoneBy(others, tx)
    ensures tx in Run(s, others).open && Run(s, others).open[tx] == s.open[tx]
  {
    if others != [] {
      OthersLeave(s, tx, others[..|others| - 1]);
    }
  }

  /** Where the insert of an event finds the log: after the read and what others did since. */
  function AtInsert(s: Log, tx: TxId, key: Key, others: seq<Action>): Log {
    Run(Step(s, ReadLast(tx, key)), others)
  }

  /** Another transaction has committed events of the job between the read and the insert. */
  predicate Overtaken(s: Log, tx: TxId, key: Key, others: seq<Action>) {
    |Of(AtInsert(s, tx, key, others).committed, key)| > |Of(s.committed, key)|
  }

  /** What an insert comes to, whatever others do between it and its read. */
  lemma EmitOutcome(s: Log, tx: TxId, key: Key, others: seq<Action>)
    requires Inv(s) && CanWork(s, tx) && NoneBy(others, tx)
    ensures var mid := AtInsert(s, tx, key, others);
            && Inv(mid) && CanWork(mid, tx)
            && LastSequence(Visible(s, tx), key) == |Of(Visible(s, tx), key)|
            && mid.open[tx] == s.open[tx].(read := Some(LastRead(key, |Of(Visible(s, tx), key)|)))
            && (Violates(mid, tx) <==> Overtaken(s, tx, key, others))
            && (Waits(mid, tx) <==> !Overtaken(s, tx, key, others) && AnotherHolds(mid, tx, key))
  {
    var read, mid := Step(s, ReadLast(tx, key)), AtInsert(s, tx, key, others);
    assert KeyInv(s, key);
    VisibleNumbered(s, tx, key);
    LastIsLength(Visible(s, tx), key);
    StepKeepsInv(s, ReadLast(tx, key));
    OthersLeave(read, tx, others);
    RunKeepsInv(read, others);
    CommittedOnlyGrows(read, others, key);
    assert KeyInv(mid, key);
    InsertOutcome(mid, tx);
    VisibleNumbered(mid, tx, key);
  }

  datatype EmitError = PayloadTooLarge | UniqueViolation | MustWait | TransactionUnusable

  const MAX_PAYLOAD_BYTES := 32768

  class EventStore {
    var committed: seq<Event>
    var open: map<TxId, Tx>
    const size: string -> nat

    ghost function State(): Log
      reads this
    {
      Log(committed, open)
    }

    constructor (size: string -> nat)
      ensures State() == EMPTY && Inv(State()) && this.size == size
    {
      committed, open, this.size := [], map[], size;
    }

    method ReadLastSequence(tx: TxId, key: Key) returns (last: nat)
      requires CanWork(State(), tx)
      modifies this`open
      ensures last == LastSequence(Visible(old(State()), tx), key)
      ensures State() == Step(old(State()), ReadLast(tx, key))
    {
      last := LastSequence(committed + open[tx].pending, key);
      open := open[tx := open[tx].(read := Some(LastRead(key, last)))];
    }

    method InsertRow(tx: TxId, event: Event) returns (error: Option<EmitError>)
      requires CanWork(State(), tx) && event.sequence > 0 && open[tx].read == Some(LastRead(event.key, event.sequence - 1))
      modifies this`open
      ensures State() == Step(old(State()), Insert(tx, event.eventType, event.payload))
      ensures error == if Violates(old(State()), tx) then Some(UniqueViolation)
                       else if Waits(old(State()), tx) then Some(MustWait) else None
    {
      if Taken(committed + open[tx].pending, event.key, event.sequence) {
        open := open[tx := Tx(None, [], true)];
        return Some(UniqueViolation);
      }
      if exists u :: u in open && u != tx && Taken(open[u].pending, event.key, event.sequence) {
        return Some(MustWait);
      }
      open := open[tx := Tx(None, open[tx].pending + [event], false)];
      return None;
    }

    /** What other transactions do while a call awaits the database. */
    method LetOthersRun(others: seq<Action>)
      modifies this
      ensures State() == Run(old(State()), others)
    {
      var next := Run(Log(committed, open), others);
      committed, open := next.committed, next.open;
    }

    /**
      Reads the last number, then inserts the next one; `others` run between the two.
      The insert violates the constraint exactly when one of them committed events of the
      job, and waits exactly when none did but one of them holds some.
     */
    method EmitEvent(tx: TxId, key: Key, eventType: string, payload: string, others: seq<Action>)
      returns (r: Result<Event, EmitError>)
      requires Inv(State()) && NoneBy(others, tx)
      modifies this
      ensures Inv(State())
      ensures r == Err(TransactionUnusable) <==> !CanWork(old(State()), tx)
      ensures r == Err(PayloadTooLarge) <==> CanWork(old(State()), tx) && size(payload) > MAX_PAYLOAD_BYTES
      ensures r == Err(TransactionUnusable) || r == Err(PayloadTooLarge) ==> State() == old(State())
      ensures CanWork(old(State()), tx) && size(payload) <= MAX_PAYLOAD_BYTES ==>
                var mid := AtInsert(old(State()), tx, key, others);
                && CanWork(mid, tx)
                && (r == Err(UniqueViolation) <==> Overtaken(old(State()), tx, key, others))
                && (r == Err(MustWait) <==> !Overtaken(old(State()), tx, key, others) && AnotherHolds(mid, tx, key))
                && (r == Err(UniqueViolation) ==> State() == mid.(open := mid.open[tx := Tx(None, [], true)]))
                && (r == Err(MustWait) ==> State() == mid)
                && (r.Ok? ==> r.value == Event(key, |Of(Visible(old(State()), tx), key)| + 1, eventType, payload)
                              && State() == Appended(mid, tx, r.value))
    {
      if tx !in open || open[tx].spoiled {
        return Err(TransactionUnusable);
      }
      if size(payload) > MAX_PAYLOAD_BYTES {
        return Err(PayloadTooLarge);
      }
      EmitOutcome(State(), tx, key, others);
      var last := ReadLastSequence(tx, key);
      LetOthersRun(others);
      StepKeepsInv(State(), Insert(tx, eventType, payload));
      var event := Event(key, last + 1, eventType, payload);
      var error := InsertRow(tx, event);
      return if error.Some? then Err(error.value) else Ok(event);
    }

    method ReplayEvents(tx: TxId, key: Key, lastSequence: int) returns (events: seq<Event>)
      requires Inv(State()) && tx in open
      ensures var all := Of(Visible(State(), tx), key);
              events == all[Clamp(lastSequence, |all|)..] && Consecutive(events, Clamp(lastSequence, |all|))
    {
      events := Replay(committed + open[tx].pending, key, lastSequence);
      assert KeyInv(State(), key);
      VisibleNumbered(State(), tx, key);
      ReplayIsSuffix(Visible(State(), tx), key, lastSequence);
    }
  }
}
