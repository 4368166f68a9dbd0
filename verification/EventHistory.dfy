/**
  What the event log holds after a run, told from the list of actions alone: the
  events inserted by the transactions that were committed, in the order of the commits.
 */
module EventHistory {

  import opened Wrappers
  import opened EventLog

  /** A transaction as its actions tell it; `inserted` are its events since it began. */
  datatype View = View(open: bool, spoiled: bool, read: Option<LastRead>, inserted: seq<Event>)

  const ABSENT := View(false, false, None, [])

  /** The events committed by these actions. */
  ghost function History(actions: seq<Action>): seq<Event>
    decreases |actions|, 0
  {
    if actions == [] then []
    else
      var before, last := actions[..|actions| - 1], actions[|actions| - 1];
      History(before) + if last.Commit? then ViewOf(before, last.tx).inserted else []
  }

  /** How many events of the job a transaction sees: the committed ones and its own. */
  ghost function SeenBy(actions: seq<Action>, tx: TxId, key: Key): nat
    decreases |actions|, 2
  {
    |Of(History(actions), key)| + |Of(ViewOf(actions, tx).inserted, key)|
  }

  ghost function Views(actions: seq<Action>): TxId -> View
    decreases |actions|, 2
  {
    (u: TxId) => ViewOf(actions, u)
  }

  /** Another transaction has inserted events of the job and is not committed. */
  ghost predicate HeldUp(views: TxId -> View, tx: TxId, key: Key) {
    exists u: TxId :: u != tx && Of(views(u).inserted, key) != []
  }

  ghost function ViewOf(actions: seq<Action>, tx: TxId): View
    decreases |actions|, 1
  {
    if actions == [] then ABSENT
    else
      var before, last := actions[..|actions| - 1], actions[|actions| - 1];
      var v := ViewOf(before, tx);
      if last.tx != tx then v
      else match last
        case Begin(_) => if v.open then v else View(true, false, None, [])
        case ReadLast(_, key) =>
          if v.open && !v.spoiled then v.(read := Some(LastRead(key, SeenBy(before, tx, key)))) else v
        case Insert(_, eventType, payload) =>
          if !v.open || v.spoiled || v.read.None? then v
          else if v.read.value.sequence < SeenBy(before, tx, v.read.value.key) then View(true, true, None, [])
          else if HeldUp(Views(before), tx, v.read.value.key) then v
          else View(true, false, None,
                    v.inserted + [Event(v.read.value.key, v.read.value.sequence + 1, eventType, payload)])
        case Commit(_) => ABSENT
        case Rollback(_) => ABSENT
  }

  /** The state is what the actions tell. */
  predicate TxTold(s: Log, tx: TxId, v: View) {
    if v.open then tx in s.open && s.open[tx] == Tx(v.read, v.inserted, v.spoiled)
    else tx !in s.open && v.inserted == []
  }

  ghost predicate Told(s: Log, actions: seq<Action>) {
    s.committed == History(actions) && forall tx :: TxTold(s, tx, ViewOf(actions, tx))
  }

  lemma Extended(actions: seq<Action>, a: Action, tx: TxId)
    ensures (actions + [a])[..|actions + [a]| - 1] == actions && (actions + [a])[|actions + [a]| - 1] == a
    ensures a.tx != tx ==> ViewOf(actions + [a], tx) == ViewOf(actions, tx)
    ensures History(actions + [a]) == History(actions) + if a.Commit? then ViewOf(actions, a.tx).inserted else []
  {
    assert (actions + [a])[..|actions|] == actions;
  }

  lemma OthersUntouched(s: Log, a: Action, tx: TxId)
    requires a.tx != tx
    ensures tx in Step(s, a).open <==> tx in s.open
    ensures tx in s.open ==> Step(s, a).open[tx] == s.open[tx]
  {
  }

  lemma SeenIsVisible(s: Log, actions: seq<Action>, tx: TxId, key: Key)
    requires Told(s, actions) && tx in s.open
    ensures SeenBy(actions, tx, key) == |Of(Visible(s, tx), key)|
  {
    assert TxTold(s, tx, ViewOf(actions, tx));
    OfConcat(s.committed, s.open[tx].pending, key);
  }

  lemma HeldIsHeldUp(s: Log, actions: seq<Action>, tx: TxId, key: Key)
    requires Told(s, actions)
    ensures HeldUp(Views(actions), tx, key) <==> AnotherHolds(s, tx, key)
  {
    if HeldUp(Views(actions), tx, key) {
      var u: TxId :| u != tx && Of(Views(actions)(u).inserted, key) != [];
      assert TxTold(s, u, ViewOf(actions, u));
    }
    if AnotherHolds(s, tx, key) {
      var u :| u in s.open && u != tx && Of(s.open[u].pending, key) != [];
      assert TxTold(s, u, ViewOf(actions, u)) && Views(actions)(u) == ViewOf(actions, u);
    }
  }

  lemma ReadIsTold(s: Log, actions: seq<Action>, tx: TxId, key: Key)
    requires Told(s, actions) && KeyInv(s, key)
    ensures TxTold(Step(s, ReadLast(tx, key)), tx, ViewOf(actions + [ReadLast(tx, key)], tx))
  {
    Extended(actions, ReadLast(tx, key), tx);
    assert TxTold(s, tx, ViewOf(actions, tx));
    if CanWork(s, tx) {
      SeenIsVisible(s, actions, tx, key);
      VisibleNumbered(s, tx, key);
      LastIsLength(Visible(s, tx), key);
    }
  }

  lemma InsertIsTold(s: Log, actions: seq<Action>, tx: TxId, eventType: string, payload: string)
    requires Told(s, actions) && Inv(s)
    ensures var a := Insert(tx, eventType, payload); TxTold(Step(s, a), tx, ViewOf(actions + [a], tx))
  {
    Extended(actions, Insert(tx, eventType, payload), tx);
    assert TxTold(s, tx, ViewOf(actions, tx));
    if CanWork(s, tx) && s.open[tx].read.Some? {
      var key := s.open[tx].read.value.key;
      assert KeyInv(s, key);
      InsertOutcome(s, tx);
      SeenIsVisible(s, actions, tx, key);
      HeldIsHeldUp(s, actions, tx, key);
      ReadWithinSeen(s, tx, key);
    }
  }

  lemma ReadWithinSeen(s: Log, tx: TxId, key: Key)
    requires KeyInv(s, key) && tx in s.open && s.open[tx].read.Some? && s.open[tx].read.value.key == key
    ensures s.open[tx].read.value.sequence <= |Of(Visible(s, tx), key)|
  {
    assert TxInv(s, tx, key);
    VisibleNumbered(s, tx, key);
  }

  lemma OwnIsTold(s: Log, actions: seq<Action>, a: Action)
    requires Told(s, actions) && Inv(s)
    ensures TxTold(Step(s, a), a.tx, ViewOf(actions + [a], a.tx))
  {
    Extended(actions, a, a.tx);
    assert TxTold(s, a.tx, ViewOf(actions, a.tx));
    match a
    case Begin(tx) =>
    case ReadLast(tx, key) => assert KeyInv(s, key); ReadIsTold(s, actions, tx, key);
    case Insert(tx, eventType, payload) => InsertIsTold(s, actions, tx, eventType, payload);
    case Commit(tx) =>
    case Rollback(tx) =>
  }

  lemma StepIsTold(s: Log, actions: seq<Action>, a: Action)
    requires Told(s, actions) && Inv(s)
    ensures Told(Step(s, a), actions + [a])
  {
    Extended(actions, a, a.tx);
    assert TxTold(s, a.tx, ViewOf(actions, a.tx));
    forall tx ensures TxTold(Step(s, a), tx, ViewOf(actions + [a], tx)) {
      if tx == a.tx {
        OwnIsTold(s, actions, a);
      } else {
        Extended(actions, a, tx);
        OthersUntouched(s, a, tx);
        assert TxTold(s, tx, ViewOf(actions, tx));
      }
    }
  }

  /**
    After any run the log holds exactly the events that its committed transactions
    inserted since they began, in the order of the commits: one that is rolled back, that
    is still open, or that met the unique constraint adds none.
   */
  lemma {:induction false} CommittedIsHistory(actions: seq<Action>)
    ensures Told(Run(EMPTY, actions), actions) && Run(EMPTY, actions).committed == History(actions)
  {
    if actions != [] {
      var before, last := actions[..|actions| - 1], actions[|actions| - 1];
      CommittedIsHistory(before);
      RunKeepsInv(EMPTY, before);
      StepIsTold(Run(EMPTY, before), before, last);
      assert before + [last] == actions;
    }
  }

  /** A commit appends the transaction's events of a job to the job's log, and nothing else changes it. */
  lemma CommitAppends(actions: seq<Action>, a: Action, key: Key)
    ensures Of(Run(EMPTY, actions + [a]).committed, key) ==
            Of(Run(EMPTY, actions).committed, key)
            + if a.Commit? then Of(ViewOf(actions, a.tx).inserted, key) else []
  {
    CommittedIsHistory(actions);
    CommittedIsHistory(actions + [a]);
    Extended(actions, a, a.tx);
    if a.Commit? {
      OfConcat(History(actions), ViewOf(actions, a.tx).inserted, key);
    }
  }

  /** A replay from the beginning gives everything committed of the job, numbered from one. */
  lemma ReplayGivesHistory(actions: seq<Action>, key: Key)
    ensures var events := Replay(Run(EMPTY, actions).committed, key, 0);
            events == Of(History(actions), key) && Consecutive(events, 0)
  {
    CommittedIsHistory(actions);
    CommittedNumberedFromOne(actions, key);
    ReplayIsSuffix(Run(EMPTY, actions).committed, key, 0);
    assert Of(History(actions), key)[0..] == Of(History(actions), key);
  }

  /** One event emitted and committed by itself. */
  function EmitAndCommit(tx: TxId, key: Key, eventType: string, payload: string): seq<Action> {
    [Begin(tx), ReadLast(tx, key), Insert(tx, eventType, payload), Commit(tx)]
  }

  lemma RunOfFour(s: Log, a: Action, b: Action, c: Action, d: Action)
    ensures Run(s, [a, b, c, d]) == Step(Step(Step(Step(s, a), b), c), d)
  {
    assert [a, b, c, d][..3] == [a, b, c] && [a, b, c][..2] == [a, b] && [a, b][..1] == [a] && [a][..0] == [];
    assert Run(s, [a]) == Step(Run(s, []), a);
    assert Run(s, [a, b]) == Step(Run(s, [a]), b);
    assert Run(s, [a, b, c]) == Step(Run(s, [a, b]), c);
  }

  /**
    From any state in which nobody else holds events of the job, an event that is
    emitted and committed stands at the end of the log under the next number, and a replay
    from the number before gives exactly it.
   */
  lemma EmittedIsReplayed(s: Log, tx: TxId, key: Key, eventType: string, payload: string)
    requires Inv(s) && tx !in s.open && !AnotherHolds(s, tx, key)
    ensures var n := |Of(s.committed, key)|;
            var e := Event(key, n + 1, eventType, payload);
            var s' := Run(s, EmitAndCommit(tx, key, eventType, payload));
            && s' == Log(s.committed + [e], s.open)
            && Replay(s'.committed, key, n) == [e]
  {
    var e := Event(key, |Of(s.committed, key)| + 1, eventType, payload);
    EmitsAndCommits(s, tx, key, eventType, payload);
    assert KeyInv(s, key);
    ReplayOfLast(s.committed, e, key);
  }

  lemma EmitsAndCommits(s: Log, tx: TxId, key: Key, eventType: string, payload: string)
    requires Inv(s) && tx !in s.open && !AnotherHolds(s, tx, key)
    ensures Run(s, EmitAndCommit(tx, key, eventType, payload))
            == Log(s.committed + [Event(key, |Of(s.committed, key)| + 1, eventType, payload)], s.open)
  {
    StepKeepsInv(s, Begin(tx));
    RunOfFour(s, Begin(tx), ReadLast(tx, key), Insert(tx, eventType, payload), Commit(tx));
    EmitFresh(s, Step(s, Begin(tx)), tx, key, eventType, payload);
    var e := Event(key, |Of(s.committed, key)| + 1, eventType, payload);
    assert s.open[tx := Tx(None, [e], false)] - {tx} == s.open;
  }

  lemma ReplayOfLast(rows: seq<Event>, e: Event, key: Key)
    requires Consecutive(Of(rows, key), 0) && e.key == key && e.sequence == |Of(rows, key)| + 1
    ensures Replay(rows + [e], key, |Of(rows, key)|) == [e]
  {
    OfExtended(rows, e, key);
    ReplayIsSuffix(rows + [e], key, |Of(rows, key)|);
    assert Of(rows + [e], key)[|Of(rows, key)|..] == [e];
  }

  lemma ReadAtBegin(s: Log, s1: Log, tx: TxId, key: Key)
    requires Inv(s1) && tx !in s.open && !AnotherHolds(s, tx, key) && s1 == Step(s, Begin(tx))
    ensures var read := Step(s1, ReadLast(tx, key));
            && read == Log(s.committed, s.open[tx := Tx(Some(LastRead(key, |Of(s.committed, key)|)), [], false)])
            && CanWork(read, tx) && !Violates(read, tx) && !Waits(read, tx)
  {
    assert KeyInv(s1, key);
    AdjacentEmitNeverViolates(s1, tx, key);
    assert s.committed + [] == s.committed;
    assert forall u :: u in s1.open && u != tx ==> s1.open[u] == s.open[u];
    assert Step(s1, ReadLast(tx, key)).open == s.open[tx := Tx(Some(LastRead(key, |Of(s.committed, key)|)), [], false)];
  }

  lemma EmitFresh(s: Log, s1: Log, tx: TxId, key: Key, eventType: string, payload: string)
    requires Inv(s1) && tx !in s.open && !AnotherHolds(s, tx, key) && s1 == Step(s, Begin(tx))
    ensures Step(Step(s1, ReadLast(tx, key)), Insert(tx, eventType, payload))
            == Log(s.committed, s.open[tx := Tx(None, [Event(key, |Of(s.committed, key)| + 1, eventType, payload)], false)])
  {
    ReadAtBegin(s, s1, tx, key);
    var e := Event(key, |Of(s.committed, key)| + 1, eventType, payload);
    assert [] + [e] == [e];
    assert Step(Step(s1, ReadLast(tx, key)), Insert(tx, eventType, payload)).open == s.open[tx := Tx(None, [e], false)];
  }
}
