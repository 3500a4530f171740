/**
 * Stepping through the rows of a statement: SQLite's cursor and the wrapper's
 * `completed` flag, on values.
 */
module Rows {
  import opened Types

  /** sqlite3_step's position in a result of `n` rows. */
  datatype Cursor = ReadyToRun | OnRow(i: nat) | Finished | Failed

  datatype StepResult = Row | Done | Error(rv: int)

  /** sqlite3_step: after the last row, and after an error, stepping starts over. */
  function StepCursor(n: nat, c: Cursor, err: Option<int>): (Cursor, StepResult) {
    if err.Some? then (Failed, Error(err.value))
    else
      var next := if c.OnRow? then c.i + 1 else 0;
      if next < n then (OnRow(next), Row) else (Finished, Done)
  }

  /** The statement object's flag next to the cursor. */
  datatype Execution = Execution(cursor: Cursor, completed: bool)

  datatype Op = StepOp(err: Option<int>) | ResetOp

  /** statement::step, also run() and next_row(), and statement::reset. */
  function Do(n: nat, e: Execution, op: Op): Execution {
    match op
    case StepOp(err) =>
      var (c, r) := StepCursor(n, e.cursor, err);
      Execution(c, match r case Row => false case Done => true case Error(_) => e.completed)
    case ResetOp => e.(cursor := ReadyToRun)
  }

  function Run(n: nat, ops: seq<Op>): Execution {
    if ops == [] then Execution(ReadyToRun, true) else Do(n, Run(n, ops[..|ops| - 1]), ops[|ops| - 1])
  }

  /** done() says whether there is a current row. */
  predicate Truthful(e: Execution) { e.completed <==> !e.cursor.OnRow? }

  /** The last step of a run that did not fail, counted from the start. */
  ghost function LastStepFound(n: nat, ops: seq<Op>): Option<Cursor> {
    if ops == [] then None
    else
      var last := ops[|ops| - 1];
      if last.StepOp? && last.err.None? then Some(Run(n, ops).cursor) else LastStepFound(n, ops[..|ops| - 1])
  }

  /**
   * The flag is what the last successful step left. So done() tells the truth
   * if and only if the last call was a successful step, or the last successful
   * step, if any, found no row: a reset and a failed step do not update it.
   */
  lemma {:induction false} DoneTruthfulIff(n: nat, ops: seq<Op>)
    ensures Run(n, ops).completed <==> !(LastStepFound(n, ops).Some? && LastStepFound(n, ops).value.OnRow?)
    ensures Truthful(Run(n, ops)) <==>
            (ops != [] && ops[|ops| - 1] == StepOp(None)) || Run(n, ops).completed
  {
    if ops != [] {
      DoneTruthfulIff(n, ops[..|ops| - 1]);
    }
  }

  /** What done() is documented to say: all result rows have been processed, as SQLite reported it. */
  predicate TellsProcessed(e: Execution) { e.completed <==> e.cursor.Finished? }

  /**
   * done() says that all rows have been processed exactly when they have, if
   * and only if the last call was a successful step, or done() is false.
   */
  lemma {:induction false} DoneTellsProcessedIff(n: nat, ops: seq<Op>)
    ensures TellsProcessed(Run(n, ops)) <==>
            (ops != [] && ops[|ops| - 1] == StepOp(None)) || !Run(n, ops).completed
    ensures Run(n, ops).cursor.Finished? ==> Run(n, ops).completed
  {
    if ops != [] {
      DoneTellsProcessedIff(n, ops[..|ops| - 1]);
    }
  }

  /** A fresh statement with rows, and one that was reset at its end, are done() with nothing processed. */
  lemma DoneWithoutProcessing(n: nat)
    ensures Run(n, []).completed && Run(n, []).cursor == ReadyToRun
    ensures var ops := [ResetOp] + Steps(n + 1) + [ResetOp];
            Run(n, ops).completed && Run(n, ops).cursor == ReadyToRun
  {
    var none: seq<Op> := [];
    var ops := [ResetOp] + Steps(n + 1) + [ResetOp];
    StepsVisitRowsInOrder(n, none, n + 1);
    assert none + [ResetOp] + Steps(n + 1) == ops[..|ops| - 1];
  }

  /** Resetting after the first of two rows leaves done() false with no row to read. */
  lemma ResetLeavesStaleFlag()
    ensures !Truthful(Run(2, [StepOp(None), ResetOp]))
  {
    var ops := [StepOp(None), ResetOp];
    assert ops[..1] == [StepOp(None)] && [StepOp(None)][..0] == [];
    assert Run(2, []) == Execution(ReadyToRun, true);
    assert Run(2, [StepOp(None)]) == Execution(OnRow(0), false);
  }

  /** Whatever happened before, reset and run start over at the first row. */
  lemma ResetRunRestarts(n: nat, ops: seq<Op>)
    ensures Run(n, ops + [ResetOp, StepOp(None)]) == Execution(if n > 0 then OnRow(0) else Finished, n == 0)
  {
    var all := ops + [ResetOp, StepOp(None)];
    assert all[..|all| - 1] == ops + [ResetOp];
    assert (ops + [ResetOp])[..|ops|] == ops;
  }

  ghost function Steps(k: nat): (ops: seq<Op>)
    ensures |ops| == k
  {
    if k == 0 then [] else Steps(k - 1) + [StepOp(None)]
  }

  /**
   * After any history, a reset and k successful steps: on row k - 1 while there
   * is one, then finished with done() true after the n-th row was left.
   */
  lemma {:induction false} StepsVisitRowsInOrder(n: nat, ops: seq<Op>, k: nat)
    requires 1 <= k <= n + 1
    ensures Run(n, ops + [ResetOp] + Steps(k)) ==
            if k <= n then Execution(OnRow(k - 1), false) else Execution(Finished, true)
  {
    var all := ops + [ResetOp] + Steps(k);
    assert all[..|all| - 1] == ops + [ResetOp] + Steps(k - 1);
    if k == 1 {
      assert ops + [ResetOp] + Steps(0) == ops + [ResetOp] && (ops + [ResetOp])[..|ops|] == ops;
    } else {
      StepsVisitRowsInOrder(n, ops, k - 1);
    }
  }
}
