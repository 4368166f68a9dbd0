/**
  Recorded tool calls of one analysis job and the search that reuses them
  (services/api/app/orchestration/tool_dedup.py).

  Arguments are represented by their checksum: two argument objects with equal
  checksums are the same arguments to the search.
 */
module ToolDedup {

  import opened Wrappers

  type Token = nat
  type Checksum = string

  /** What a tool returned; only the dataset id is read by the engine. */
  datatype ToolOutput = ToolOutput(datasetId: Option<string>, body: string)

  /** A recorded call. `writer` is the claim token under which the row was written. */
  datatype ToolRow = ToolRow(tool: string, args: Checksum, output: ToolOutput, writer: Token)

  predicate SameCall(row: ToolRow, tool: string, args: Checksum) {
    row.tool == tool && row.args == args
  }

  predicate Recorded(rows: seq<ToolRow>, tool: string, args: Checksum) {
    exists i :: 0 <= i < |rows| && SameCall(rows[i], tool, args)
  }

  /** No two rows stand for the same call. */
  predicate Distinct(rows: seq<ToolRow>) {
    forall i, j :: 0 <= i < j < |rows| ==> !SameCall(rows[i], rows[j].tool, rows[j].args)
  }

  /** The output the search answers with: that of the newest matching row. */
  function Reused(rows: seq<ToolRow>, tool: string, args: Checksum): (r: Option<ToolOutput>)
    ensures r.Some? <==> Recorded(rows, tool, args)
    ensures r.Some? ==> exists i :: 0 <= i < |rows| && SameCall(rows[i], tool, args) && rows[i].output == r.value
  {
    if |rows| == 0 then None
    else if SameCall(rows[|rows| - 1], tool, args) then
      assert SameCall(rows[|rows| - 1], tool, args);
      Some(rows[|rows| - 1].output)
    else
      var r := Reused(rows[..|rows| - 1], tool, args);
      assert Recorded(rows, tool, args) ==> Recorded(rows[..|rows| - 1], tool, args) by {
        if Recorded(rows, tool, args) {
          var i :| 0 <= i < |rows| && SameCall(rows[i], tool, args);
          assert rows[..|rows| - 1][i] == rows[i];
        }
      }
      r
  }

  /** The search itself: rows newest first, the first match is the answer. */
  method CheckExistingInvocation(rows: seq<ToolRow>, tool: string, args: Checksum)
    returns (r: Option<ToolOutput>)
    ensures r == Reused(rows, tool, args)
    ensures r.None? <==> forall i :: 0 <= i < |rows| ==> !SameCall(rows[i], tool, args)
    ensures r.Some? ==> exists i ::
      && 0 <= i < |rows| && SameCall(rows[i], tool, args) && r.value == rows[i].output
      && forall k :: i < k < |rows| ==> !SameCall(rows[k], tool, args)
  {
    var n := |rows|;
    assert rows[..n] == rows;
    while n > 0
      invariant 0 <= n <= |rows|
      invariant forall k :: n <= k < |rows| ==> !SameCall(rows[k], tool, args)
      invariant Reused(rows, tool, args) == Reused(rows[..n], tool, args)
    {
      assert rows[..n][..n - 1] == rows[..n - 1];
      if SameCall(rows[n - 1], tool, args) {
        return Some(rows[n - 1].output);
      }
      n := n - 1;
    }
    return None;
  }

  // ------------------------------------------------------------ the tool loop

  /**
    One planned call: what running the tool would return, and whether running it
    ends the engine's transaction (a tool that commits its own work does).
   */
  datatype PlannedCall = PlannedCall(tool: string, args: Checksum, output: ToolOutput, endsTransaction: bool)

  /**
    Where one transaction leaves the loop over the plan: finished, or stopped
    behind the call at `next`, whose row is not written yet.
   */
  datatype LoopEnd =
    | Finished(rows: seq<ToolRow>, outputs: seq<ToolOutput>)
    | Stopped(rows: seq<ToolRow>, outputs: seq<ToolOutput>, next: nat)

  function RowFor(call: PlannedCall, writer: Token): ToolRow {
    ToolRow(call.tool, call.args, call.output, writer)
  }

  /** The loop over plan[next..] as one transaction runs it. */
  function RunTools(rows: seq<ToolRow>, outputs: seq<ToolOutput>, plan: seq<PlannedCall>, next: nat, writer: Token): LoopEnd
    requires next <= |plan|
    decreases |plan| - next
  {
    if next == |plan| then Finished(rows, outputs)
    else
      var call := plan[next];
      var existing := Reused(rows, call.tool, call.args);
      if existing.Some? then RunTools(rows, outputs + [existing.value], plan, next + 1, writer)
      else if call.endsTransaction then Stopped(rows, outputs, next)
      else RunTools(rows + [RowFor(call, writer)], outputs + [call.output], plan, next + 1, writer)
  }

  /** The loop as the engine writes it, over variables. */
  method ExecuteTools(rows: seq<ToolRow>, outputs: seq<ToolOutput>, plan: seq<PlannedCall>, start: nat, writer: Token)
    returns (end: LoopEnd)
    requires start <= |plan|
    ensures end == RunTools(rows, outputs, plan, start, writer)
  {
    var written, results, next := rows, outputs, start;
    while next < |plan|
      invariant start <= next <= |plan|
      invariant RunTools(written, results, plan, next, writer) == RunTools(rows, outputs, plan, start, writer)
    {
      var call := plan[next];
      var existing := CheckExistingInvocation(written, call.tool, call.args);
      if existing.Some? {
        results := results + [existing.value];
      } else {
        if call.endsTransaction {
          return Stopped(written, results, next);
        }
        written := written + [RowFor(call, writer)];
        results := results + [call.output];
      }
      next := next + 1;
    }
    return Finished(written, results);
  }

  /** o is what the recorded row of this call returned. */
  predicate AnswerRecorded(o: ToolOutput, call: PlannedCall, rows: seq<ToolRow>) {
    exists k :: 0 <= k < |rows| && SameCall(rows[k], call.tool, call.args) && rows[k].output == o
  }

  /** The outputs so far answer the first calls of the plan, each from the row of its own call. */
  predicate AnswersPlan(outputs: seq<ToolOutput>, plan: seq<PlannedCall>, rows: seq<ToolRow>) {
    |outputs| <= |plan| && forall i :: 0 <= i < |outputs| ==> AnswerRecorded(outputs[i], plan[i], rows)
  }

  lemma ReusedIsRecorded(rows: seq<ToolRow>, call: PlannedCall)
    requires Reused(rows, call.tool, call.args).Some?
    ensures AnswerRecorded(Reused(rows, call.tool, call.args).value, call, rows)
  {
    var o := Reused(rows, call.tool, call.args).value;
    var i :| 0 <= i < |rows| && SameCall(rows[i], call.tool, call.args) && rows[i].output == o;
  }

  predicate WrittenBy(rows: seq<ToolRow>, writer: Token) {
    forall i :: 0 <= i < |rows| ==> rows[i].writer == writer
  }

  lemma AnswerSurvives(o: ToolOutput, call: PlannedCall, rows: seq<ToolRow>, row: ToolRow)
    requires AnswerRecorded(o, call, rows)
    ensures AnswerRecorded(o, call, rows + [row])
  {
    var k :| 0 <= k < |rows| && SameCall(rows[k], call.tool, call.args) && rows[k].output == o;
    assert (rows + [row])[k] == rows[k];
  }

  lemma NextAnswer(outputs: seq<ToolOutput>, plan: seq<PlannedCall>, rows: seq<ToolRow>, o: ToolOutput)
    requires AnswersPlan(outputs, plan, rows) && |outputs| < |plan| && AnswerRecorded(o, plan[|outputs|], rows)
    ensures AnswersPlan(outputs + [o], plan, rows)
  {
  }

  /** Appending a row whose call is not recorded keeps rows distinct and answers recorded. */
  lemma AppendRow(rows: seq<ToolRow>, outputs: seq<ToolOutput>, plan: seq<PlannedCall>, call: PlannedCall, writer: Token)
    requires Distinct(rows) && AnswersPlan(outputs, plan, rows)
    requires !Recorded(rows, call.tool, call.args)
    ensures Distinct(rows + [RowFor(call, writer)]) && AnswersPlan(outputs, plan, rows + [RowFor(call, writer)])
    ensures AnswerRecorded(call.output, call, rows + [RowFor(call, writer)])
  {
    var row := RowFor(call, writer);
    forall i | 0 <= i < |outputs| ensures AnswerRecorded(outputs[i], plan[i], rows + [row]) {
      AnswerSurvives(outputs[i], plan[i], rows, row);
    }
    assert (rows + [row])[|rows|] == row;
  }

  /** The loop's rows and outputs at `next`. */
  predicate LoopState(rows: seq<ToolRow>, outputs: seq<ToolOutput>, plan: seq<PlannedCall>, next: nat, writer: Token) {
    next <= |plan| && |outputs| == next && Distinct(rows) && WrittenBy(rows, writer) && AnswersPlan(outputs, plan, rows)
  }

  /** One turn past a call that has just been recorded. */
  lemma RecordedTurn(rows: seq<ToolRow>, outputs: seq<ToolOutput>, plan: seq<PlannedCall>, next: nat, writer: Token)
    requires LoopState(rows, outputs, plan, next, writer) && next < |plan|
    requires !Recorded(rows, plan[next].tool, plan[next].args)
    ensures LoopState(rows + [RowFor(plan[next], writer)], outputs + [plan[next].output], plan, next + 1, writer)
  {
    AppendRow(rows, outputs, plan, plan[next], writer);
    NextAnswer(outputs, plan, rows + [RowFor(plan[next], writer)], plan[next].output);
  }

  /** One turn past a call that is answered from its row. */
  lemma ReusedTurn(rows: seq<ToolRow>, outputs: seq<ToolOutput>, plan: seq<PlannedCall>, next: nat, writer: Token)
    requires LoopState(rows, outputs, plan, next, writer) && next < |plan|
    requires Reused(rows, plan[next].tool, plan[next].args).Some?
    ensures LoopState(rows, outputs + [Reused(rows, plan[next].tool, plan[next].args).value], plan, next + 1, writer)
  {
    ReusedIsRecorded(rows, plan[next]);
    NextAnswer(outputs, plan, rows, Reused(rows, plan[next].tool, plan[next].args).value);
  }

  /**
    The loop records each call at most once, under the writing token, extends the
    rows it found, answers every call it passed from the row of that very call, and
    stops only behind a call that is not recorded yet.
   */
  lemma {:induction false} RunToolsKeepsRows(rows: seq<ToolRow>, outputs: seq<ToolOutput>, plan: seq<PlannedCall>, next: nat, writer: Token)
    requires LoopState(rows, outputs, plan, next, writer)
    ensures var e := RunTools(rows, outputs, plan, next, writer);
            && rows <= e.rows && outputs <= e.outputs
            && LoopState(e.rows, e.outputs, plan, if e.Stopped? then e.next else |plan|, writer)
            && (e.Stopped? ==> next <= e.next < |plan| && !Recorded(e.rows, plan[e.next].tool, plan[e.next].args))
    decreases |plan| - next
  {
    if next < |plan| {
      var call := plan[next];
      var existing := Reused(rows, call.tool, call.args);
      if existing.Some? {
        ReusedTurn(rows, outputs, plan, next, writer);
        RunToolsKeepsRows(rows, outputs + [existing.value], plan, next + 1, writer);
      } else if !call.endsTransaction {
        RecordedTurn(rows, outputs, plan, next, writer);
        RunToolsKeepsRows(rows + [RowFor(call, writer)], outputs + [call.output], plan, next + 1, writer);
      }
    }
  }

  // ------------------------------------------- what the loop records, read off the plan

  /** plan[k] is a call of which neither a row nor a call since `from` is a repetition. */
  predicate NewCall(rows: seq<ToolRow>, plan: seq<PlannedCall>, from: nat, k: nat) {
    && from <= k < |plan|
    && (forall i :: 0 <= i < |rows| ==> rows[i].tool != plan[k].tool || rows[i].args != plan[k].args)
    && (forall i :: from <= i < k ==> plan[i].tool != plan[k].tool || plan[i].args != plan[k].args)
  }

  /** The rows of the new calls between `from` and `upTo`, in the plan's order. */
  function NewRows(rows: seq<ToolRow>, plan: seq<PlannedCall>, from: nat, upTo: nat, writer: Token): seq<ToolRow>
    requires from <= upTo <= |plan|
    decreases upTo
  {
    if upTo == from then []
    else
      var before := NewRows(rows, plan, from, upTo - 1, writer);
      var call := plan[upTo - 1];
      if NewCall(rows, plan, from, upTo - 1) then before + [ToolRow(call.tool, call.args, call.output, writer)] else before
  }

  /** The first new call from `from` on behind which a transaction ends. */
  predicate StopsAt(rows: seq<ToolRow>, plan: seq<PlannedCall>, from: nat, start: nat, k: nat) {
    && start <= k < |plan| && NewCall(rows, plan, from, k) && plan[k].endsTransaction
    && forall i :: start <= i < k ==> !(NewCall(rows, plan, from, i) && plan[i].endsTransaction)
  }

  predicate NeverStops(rows: seq<ToolRow>, plan: seq<PlannedCall>, from: nat, start: nat) {
    forall i :: start <= i < |plan| ==> !(NewCall(rows, plan, from, i) && plan[i].endsTransaction)
  }

  predicate Repeats(plan: seq<PlannedCall>, from: nat, upTo: nat, tool: string, args: Checksum) {
    exists i :: from <= i < upTo <= |plan| && plan[i].tool == tool && plan[i].args == args
  }

  lemma RecordedAfter(rows: seq<ToolRow>, row: ToolRow, tool: string, args: Checksum)
    ensures Recorded(rows + [row], tool, args) <==> Recorded(rows, tool, args) || SameCall(row, tool, args)
  {
    var more := rows + [row];
    if i :| 0 <= i < |rows| && SameCall(rows[i], tool, args) {
      assert SameCall(more[i], tool, args);
    }
    if SameCall(row, tool, args) {
      assert SameCall(more[|rows|], tool, args);
    }
  }

  /** A call is recorded by `upTo` when it was before or has been planned since. */
  lemma {:induction false} RecordedByNow(rows: seq<ToolRow>, plan: seq<PlannedCall>, from: nat, upTo: nat, writer: Token, tool: string, args: Checksum)
    requires from <= upTo <= |plan|
    ensures Recorded(rows + NewRows(rows, plan, from, upTo, writer), tool, args) <==>
              Recorded(rows, tool, args) || Repeats(plan, from, upTo, tool, args)
    decreases upTo
  {
    if upTo == from {
      assert rows + [] == rows;
    } else {
      var call := plan[upTo - 1];
      var before := NewRows(rows, plan, from, upTo - 1, writer);
      RecordedByNow(rows, plan, from, upTo - 1, writer, tool, args);
      if Repeats(plan, from, upTo - 1, tool, args) {
        var i :| from <= i < upTo - 1 && plan[i].tool == tool && plan[i].args == args;
        assert Repeats(plan, from, upTo, tool, args);
      }
      if NewCall(rows, plan, from, upTo - 1) {
        var row := ToolRow(call.tool, call.args, call.output, writer);
        RecordedAfter(rows + before, row, tool, args);
        assert rows + NewRows(rows, plan, from, upTo, writer) == rows + before + [row];
      }
    }
  }

  /** The loop takes a call for new exactly when it is. */
  lemma NewIsUnrecorded(rows: seq<ToolRow>, plan: seq<PlannedCall>, from: nat, next: nat, writer: Token)
    requires from <= next < |plan|
    ensures NewCall(rows, plan, from, next) <==>
              !Recorded(rows + NewRows(rows, plan, from, next, writer), plan[next].tool, plan[next].args)
  {
    RecordedByNow(rows, plan, from, next, writer, plan[next].tool, plan[next].args);
  }

  lemma NextRow(rows: seq<ToolRow>, plan: seq<PlannedCall>, from: nat, next: nat, writer: Token)
    requires from <= next < |plan|
    ensures rows + NewRows(rows, plan, from, next + 1, writer) ==
            if NewCall(rows, plan, from, next) then rows + NewRows(rows, plan, from, next, writer) + [RowFor(plan[next], writer)]
            else rows + NewRows(rows, plan, from, next, writer)
  {
  }

  /** Past the plan without a stop, or at the first stop, with the rows of the new calls up to there. */
  predicate EndsAs(rows: seq<ToolRow>, plan: seq<PlannedCall>, from: nat, start: nat, writer: Token, e: LoopEnd)
    requires from <= start <= |plan|
  {
    match e
    case Finished(written, _) =>
      NeverStops(rows, plan, from, start) && written == rows + NewRows(rows, plan, from, |plan|, writer)
    case Stopped(written, _, k) =>
      StopsAt(rows, plan, from, start, k) && written == rows + NewRows(rows, plan, from, k, writer)
  }

  lemma EndsLater(rows: seq<ToolRow>, plan: seq<PlannedCall>, from: nat, start: nat, writer: Token, e: LoopEnd)
    requires from <= start < |plan| && EndsAs(rows, plan, from, start + 1, writer, e)
    requires !(NewCall(rows, plan, from, start) && plan[start].endsTransaction)
    ensures EndsAs(rows, plan, from, start, writer, e)
  {
  }

  /**
    Where the loop ends and what it has recorded there: it stops behind the first new
    call that ends its transaction, and by then, or by the end of the plan, every new call
    has its own row under the writing token and no other row has been added.
   */
  lemma {:induction false} RunToolsExactly(rows: seq<ToolRow>, outputs: seq<ToolOutput>, plan: seq<PlannedCall>,
                                           from: nat, next: nat, writer: Token, written: seq<ToolRow>)
    requires from <= next <= |plan| && written == rows + NewRows(rows, plan, from, next, writer)
    ensures EndsAs(rows, plan, from, next, writer, RunTools(written, outputs, plan, next, writer))
    decreases |plan| - next
  {
    if next < |plan| {
      var call := plan[next];
      var existing := Reused(written, call.tool, call.args);
      NewIsUnrecorded(rows, plan, from, next, writer);
      NextRow(rows, plan, from, next, writer);
      if existing.Some? {
        RunToolsExactly(rows, outputs + [existing.value], plan, from, next + 1, writer, written);
        EndsLater(rows, plan, from, next, writer, RunTools(written, outputs + [existing.value], plan, next + 1, writer));
      } else if !call.endsTransaction {
        var more := written + [RowFor(call, writer)];
        RunToolsExactly(rows, outputs + [call.output], plan, from, next + 1, writer, more);
        EndsLater(rows, plan, from, next, writer, RunTools(more, outputs + [call.output], plan, next + 1, writer));
      }
    }
  }

  lemma NextRowIfUnrecorded(rows: seq<ToolRow>, plan: seq<PlannedCall>, from: nat, next: nat, writer: Token)
    requires from <= next < |plan|
    ensures var before := rows + NewRows(rows, plan, from, next, writer);
            rows + NewRows(rows, plan, from, next + 1, writer) ==
            if Recorded(before, plan[next].tool, plan[next].args) then before else before + [RowFor(plan[next], writer)]
  {
    NewIsUnrecorded(rows, plan, from, next, writer);
    NextRow(rows, plan, from, next, writer);
  }

  /** What one transaction records and what the next ones do add up to the plan's new calls. */
  lemma {:induction false} NewRowsSplit(rows: seq<ToolRow>, plan: seq<PlannedCall>, from: nat, mid: nat, k: nat, writer: Token, written: seq<ToolRow>)
    requires from <= mid && mid + k <= |plan| && written == rows + NewRows(rows, plan, from, mid, writer)
    ensures written + NewRows(written, plan, mid, mid + k, writer) == rows + NewRows(rows, plan, from, mid + k, writer)
  {
    if k == 0 {
      assert written + [] == written;
    } else {
      NewRowsSplit(rows, plan, from, mid, k - 1, writer, written);
      NextRowIfUnrecorded(rows, plan, from, mid + (k - 1), writer);
      NextRowIfUnrecorded(written, plan, mid, mid + (k - 1), writer);
    }
  }
}
