/** The statement class, its row iterator and its column lookup. */
module Statements {
  import opened Types
  import R = Rows
  import C = Columns

  /** A sqlite3_stmt whose result is `rows` rows of the columns `columns`. */
  class SqliteStmt {
    const rows: nat
    var columns: seq<string>
    var cursor: R.Cursor
    ghost var stepsPastEnd: nat   // steps taken after SQLITE_DONE

    constructor (rows: nat, columns: seq<string>)
      ensures this.rows == rows && this.columns == columns && cursor == R.ReadyToRun && stepsPastEnd == 0
    {
      this.rows, this.columns, cursor, stepsPastEnd := rows, columns, R.ReadyToRun, 0;
    }

    method Step(err: Option<int>) returns (r: R.StepResult)
      modifies this`cursor, this`stepsPastEnd
      ensures (cursor, r) == R.StepCursor(rows, old(cursor), err)
      ensures stepsPastEnd == old(stepsPastEnd) + if old(cursor).Finished? then 1 else 0
    {
      if cursor.Finished? {
        stepsPastEnd := stepsPastEnd + 1;
      }
      if err.Some? {
        cursor := R.Failed;
        return R.Error(err.value);
      }
      var next := if cursor.OnRow? then cursor.i + 1 else 0;
      if next < rows {
        cursor, r := R.OnRow(next), R.Row;
      } else {
        cursor, r := R.Finished, R.Done;
      }
    }

    method Reset()
      modifies this`cursor
      ensures cursor == R.ReadyToRun
    {
      cursor := R.ReadyToRun;
    }
  }

  class Statement {
    const handle: SqliteStmt
    var completed: bool
    var colIndexTableBuilt: bool
    var colIndexTable: map<string, int>

    constructor (handle: SqliteStmt)
      ensures this.handle == handle && completed && Cache() == C.Cleared()
    {
      this.handle, completed := handle, true;
      colIndexTableBuilt, colIndexTable := false, map[];
    }

    function Execution(): R.Execution
      reads this`completed, handle`cursor
    {
      R.Execution(handle.cursor, completed)
    }

    function Cache(): C.Cache
      reads this`colIndexTableBuilt, this`colIndexTable
    {
      C.Cache(colIndexTableBuilt, colIndexTable)
    }

    /** step(), and with it run(), query() and next_row(). */
    method Step(err: Option<int>) returns (thrown: Option<Exception>)
      modifies this`completed, handle`cursor, handle`stepsPastEnd
      ensures Execution() == R.Do(handle.rows, old(Execution()), R.StepOp(err))
      ensures handle.stepsPastEnd == old(handle.stepsPastEnd) + if old(handle.cursor).Finished? then 1 else 0
      ensures thrown == if err.Some? then Some(SqxxError(err.value)) else None
    {
      var rv := handle.Step(err);
      match rv {
        case Row => completed := false;
        case Done => completed := true;
        case Error(e) => return Some(SqxxError(e));
      }
      return None;
    }

    /** reset(): the flag is not touched, the column cache is dropped. */
    method Reset()
      modifies this`colIndexTableBuilt, this`colIndexTable, handle`cursor
      ensures Execution() == R.Do(handle.rows, old(Execution()), R.ResetOp)
      ensures Cache() == C.Cleared()
    {
      handle.Reset();
      colIndexTable := map[];
      colIndexTableBuilt := false;
    }

    /** col_index: builds the table on first use; indexing the map inserts what is missing. */
    method ColIndex(name: string) returns (index: int)
      requires !colIndexTableBuilt ==> colIndexTable == map[]
      modifies this`colIndexTableBuilt, this`colIndexTable
      ensures (Cache(), index) == C.Lookup(handle.columns, old(Cache()), name)
      ensures !old(colIndexTableBuilt) ==> index == C.Answer(handle.columns, name)
    {
      if !colIndexTableBuilt {
        var n := |handle.columns|;
        for i := 0 to n
          invariant colIndexTable == C.Scan(handle.columns[..i])
        {
          assert handle.columns[..i + 1][..i] == handle.columns[..i];
          colIndexTable := colIndexTable[handle.columns[i] := i];
        }
        assert handle.columns[..n] == handle.columns;
        assert map[] + C.Scan(handle.columns) == C.Scan(handle.columns);
        colIndexTableBuilt := true;
        C.ScanFindsLast(handle.columns, name);
      }
      if name !in colIndexTable {
        colIndexTable := colIndexTable[name := 0];
      }
      return colIndexTable[name];
    }
  }

  /** statement::row_iterator; a null statement is the end. */
  class RowIterator {
    var s: Statement?
    var rowidx: nat

    constructor (s: Statement?)
      ensures this.s == (if s != null && s.completed then null else s) && rowidx == 0
    {
      this.s, rowidx := s, 0;
      new;
      CheckComplete();
    }

    method CheckComplete()
      modifies this`s
      ensures s == if old(s) != null && old(s).completed then null else old(s)
    {
      if s != null && s.completed {
        s := null;
      }
    }

    /** operator++ on an iterator that is not at the end. */
    method Increment(err: Option<int>) returns (thrown: Option<Exception>)
      requires s != null
      modifies this, s`completed, s.handle`cursor, s.handle`stepsPastEnd
      ensures old(s).Execution() == R.Do(old(s).handle.rows, old(s.Execution()), R.StepOp(err))
      ensures old(s).handle.stepsPastEnd == old(s.handle.stepsPastEnd) + if old(s.handle.cursor).Finished? then 1 else 0
      ensures err.None? ==> s == (if old(s).completed then null else old(s)) && rowidx == old(rowidx) + 1
      ensures err.Some? ==> s == old(s) && rowidx == old(rowidx) && thrown == Some(SqxxError(err.value))
      ensures err.None? ==> thrown == None
    {
      thrown := s.Step(err);
      if thrown.Some? {
        return;
      }
      CheckComplete();
      rowidx := rowidx + 1;
    }
  }

  /** The rows a loop body sees: the iterator's value and SQLite's row. */
  ghost function Visits(first: nat, rows: nat): (v: seq<(nat, nat)>)
    requires first <= rows
    ensures |v| == rows - first && forall k :: 0 <= k < |v| ==> v[k] == (k, first + k)
  {
    seq(rows - first, k requires 0 <= k < rows - first => (k, first + k))
  }

  /**
   * A range-based for loop over a statement, without errors. Started on row j
   * it visits rows j, j+1, ... to the last, once each and in order, numbered
   * from 0; after run() that is every row, with its own number. It ends with
   * done() true, without ever stepping past the end.
   */
  method VisitRows(st: Statement) returns (visited: seq<(nat, nat)>)
    requires R.Truthful(st.Execution()) && (st.handle.cursor.OnRow? ==> st.handle.cursor.i < st.handle.rows)
    modifies st`completed, st.handle`cursor, st.handle`stepsPastEnd
    ensures visited == if old(st.handle.cursor).OnRow? then Visits(old(st.handle.cursor.i), st.handle.rows) else []
    ensures st.completed
    ensures st.handle.cursor == if old(st.handle.cursor).OnRow? then R.Finished else old(st.handle.cursor)
    ensures st.handle.stepsPastEnd == old(st.handle.stepsPastEnd)
  {
    visited := [];
    ghost var first := if st.handle.cursor.OnRow? then st.handle.cursor.i else 0;
    var it := new RowIterator(st);
    while it.s != null
      invariant it.s == null || it.s == st
      invariant R.Truthful(st.Execution()) && (it.s == null <==> st.completed)
      invariant st.handle.stepsPastEnd == old(st.handle.stepsPastEnd)
      invariant old(st.handle.cursor).OnRow? ==>
                  first <= st.handle.rows && |visited| == it.rowidx <= st.handle.rows - first
      invariant old(st.handle.cursor).OnRow? ==> forall k :: 0 <= k < |visited| ==> visited[k] == (k, first + k)
      invariant it.s != null ==>
                  old(st.handle.cursor).OnRow?
                  && st.handle.cursor == R.OnRow(first + it.rowidx) && first + it.rowidx < st.handle.rows
      invariant it.s == null ==>
                  if old(st.handle.cursor).OnRow?
                  then |visited| == st.handle.rows - first && st.handle.cursor == R.Finished
                  else visited == [] && st.handle.cursor == old(st.handle.cursor)
      decreases st.handle.rows - it.rowidx, it.s != null
    {
      visited := visited + [(it.rowidx, st.handle.cursor.i)];
      var _ := it.Increment(None);
    }
  }

  /**
   * reset(), run() and a loop over the statement, whatever was done with it
   * before: the loop visits all rows in order, each numbered with its own
   * number, and ends with done() true and no step past the end.
   */
  method RunAndVisit(st: Statement) returns (visited: seq<(nat, nat)>)
    modifies st`completed, st`colIndexTableBuilt, st`colIndexTable, st.handle`cursor, st.handle`stepsPastEnd
    ensures |visited| == st.handle.rows && forall k :: 0 <= k < |visited| ==> visited[k] == (k, k)
    ensures st.completed && st.handle.cursor == R.Finished
    ensures st.handle.stepsPastEnd == old(st.handle.stepsPastEnd)
  {
    st.Reset();
    var _ := st.Step(None);
    visited := VisitRows(st);
  }
}
