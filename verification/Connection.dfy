/**
 * The connection class over a database object that stands for SQLite and the
 * C++ heap. The members follow the code statement by statement; each is proved
 * to do what its program in Worlds does, and so keeps the system invariant.
 */
module Connections {
  import opened Types
  import opened Ledgers
  import opened Worlds
  import opened Safety
  import opened Runs

  /** The C side: the heap, and the SQLite functions the class calls. */
  class Database<S> {
    var ledger: Ledger<Object<S>>
    var db: Db
    var bound: map<Home, Binding>
    var prepared: set<nat>
    ghost var active: set<nat>
    ghost var computations: map<nat, Computation<S>>
    ghost var finals: map<nat, Final<S>>
    ghost var frames: seq<Frame>
    ghost var fault: bool

    constructor ()
      ensures With(false, None, None) == Initial()
    {
      ledger, db, bound, prepared := Ledgers.Empty(), Closed, map[], {};
      active, computations, finals, frames, fault := {}, map[], map[], [], false;
    }

    ghost function With(handle: bool, table: Option<map<Hook, Addr>>, local: Option<Addr>): World<S>
      reads this
    {
      World(ledger, handle, table, local, db, bound, prepared, active, computations, finals, frames, fault)
    }

    method New(o: Object<S>) returns (a: Addr)
      modifies this`ledger
      ensures a == |old(ledger.objects)| && ledger == Ledgers.New(old(ledger), o)
    {
      a := |ledger.objects|;
      ledger := Ledgers.New(ledger, o);
    }

    method Delete(a: Addr)
      modifies this`ledger
      ensures ledger == Ledgers.Delete(old(ledger), a)
    {
      ledger := Ledgers.Delete(ledger, a);
    }

    /** sqlite3_commit_hook and its nine siblings; `n` is the progress interval. */
    method Hook(k: Hook, n: int, b: Binding)
      modifies this`bound
      ensures bound == old(bound)[HookHome(k) := if k.Progress? && n < 1 then Unbound else b]
    {
      bound := bound[HookHome(k) := if k.Progress? && n < 1 then Unbound else b];
    }

    /** sqlite3_busy_timeout and sqlite3_wal_autocheckpoint. */
    method OwnHook(k: Hook, n: int, rv: int)
      modifies this`bound
      ensures bound == if rv == SQLITE_OK then old(bound)[HookHome(k) := if n > 0 then BuiltIn(n) else Unbound]
                       else old(bound)
    {
      if rv == SQLITE_OK {
        bound := bound[HookHome(k) := if n > 0 then BuiltIn(n) else Unbound];
      }
    }

    /** sqlite3_create_function_v2: user data is destroyed when replaced, and when refused. */
    method CreateFunctionV2(h: Home, b: Binding, rv: int)
      modifies this`ledger, this`bound
      ensures rv == SQLITE_OK ==>
                bound == old(bound)[h := b]
                && ledger == Destroy(old(ledger), if h in old(bound) then old(bound)[h] else Unbound)
      ensures rv != SQLITE_OK ==> bound == old(bound) && ledger == Destroy(old(ledger), b)
    {
      if rv == SQLITE_OK {
        ledger := Destroy(ledger, if h in bound then bound[h] else Unbound);
        bound := bound[h := b];
      } else {
        ledger := Destroy(ledger, b);
      }
    }

    /** sqlite3_create_collation_v2: refused user data is left alone. */
    method CreateCollationV2(h: Home, b: Binding, rv: int)
      modifies this`ledger, this`bound
      ensures rv == SQLITE_OK ==>
                bound == old(bound)[h := b]
                && ledger == Destroy(old(ledger), if h in old(bound) then old(bound)[h] else Unbound)
      ensures rv != SQLITE_OK ==> bound == old(bound) && ledger == old(ledger)
    {
      if rv == SQLITE_OK {
        ledger := Destroy(ledger, if h in bound then bound[h] else Unbound);
        bound := bound[h := b];
      }
    }

    /** sqlite3_open_v2: a connection comes with SQLite's own WAL hook. */
    method OpenV2(r: OpenResult) returns (handle: bool)
      modifies this`db, this`bound
      ensures handle == !r.OpenFailedNoHandle?
      ensures db == if handle then Opened else old(db)
      ensures bound == if handle then old(bound)[HookHome(Wal) := BuiltIn(DefaultAutocheckpoint)] else old(bound)
    {
      handle := !r.OpenFailedNoHandle?;
      if handle {
        db := Opened;
        bound := bound[HookHome(Wal) := BuiltIn(DefaultAutocheckpoint)];
      }
    }

    /** sqlite3_close_v2: destroys all user data, or waits for the statements. */
    method CloseV2(handle: bool)
      modifies this`ledger, this`bound, this`db
      ensures !handle || prepared != {} ==> ledger == old(ledger) && bound == old(bound)
      ensures handle && prepared == {} ==>
                ledger == DeleteAll(old(ledger), UserData(old(With(handle, None, None)))) && bound == map[]
      ensures db == if !handle then old(db) else if prepared != {} then Zombie else Closed
    {
      if handle {
        if prepared != {} {
          db := Zombie;
        } else {
          db := Closed;
          var data := set h | h in bound && !h.HookHome? && bound[h].Heap? :: bound[h].a;
          ledger := DeleteAll(ledger, data);
          bound := map[];
        }
      }
    }
  }

  /** The statements of a collation registration whose object could be allocated. */
  lemma CollationProgram<S>(w: World<S>, h: Home, fn: int, ok: bool)
    ensures var w2 := Step(Step(w, NewLocal(Object(h, Callable(fn)))), CreateCollationV2(h, Local, ok));
            Do(w, CreateCollation(h, fn, true, ok)) == if ok then w2 else Step(w2, DeleteLocal)
  {
    var o := Object(h, Callable(fn));
    Exec2(w, NewLocal(o), CreateCollationV2(h, Local, ok));
    Exec3(w, NewLocal(o), CreateCollationV2(h, Local, ok), DeleteLocal);
    var p := Program(w, CreateCollation(h, fn, true, ok));
    assert p == if ok then [NewLocal(o), CreateCollationV2(h, Local, ok)]
                else [NewLocal(o), CreateCollationV2(h, Local, ok), DeleteLocal];
  }

  class Connection<S> {
    const sqlite: Database<S>
    var handle: bool
    var callbacks: Option<map<Hook, Addr>>

    constructor (sqlite: Database<S>)
      ensures this.sqlite == sqlite && !handle && callbacks == None
    {
      this.sqlite, handle, callbacks := sqlite, false, None;
    }

    ghost function View(): World<S>
      reads this, sqlite
    {
      sqlite.With(handle, callbacks, None)
    }

    /** The object with a callable in flight. */
    ghost function ViewWith(local: Addr): World<S>
      reads this, sqlite
    {
      sqlite.With(handle, callbacks, Some(local))
    }

    /** The table is made on first use; false stands for leaving by bad_alloc. */
    method SetupCallbacks(tableOk: bool) returns (done: bool)
      modifies this`callbacks
      ensures done == (old(callbacks).Some? || tableOk)
      ensures callbacks == if old(callbacks).None? && tableOk then Some(map[]) else old(callbacks)
    {
      if callbacks.None? {
        if !tableOk {
          return false;
        }
        callbacks := Some(map[]);
      }
      return true;
    }

    /** set_*_handler; an empty function is a clear. */
    method SetHandler(k: Hook, n: int, fun: Option<int>, newOk: bool, tableOk: bool) returns (thrown: Option<Exception>)
      requires Resting(View()) && handle && NotRunning(View(), HookHome(k))
      modifies this`callbacks, sqlite`ledger, sqlite`bound
      ensures View() == Do(old(View()), if fun.Some? then Op.SetHandler(k, n, fun.value, newOk, tableOk)
                                        else Op.ClearHandler(k))
      ensures fun.None? || !newOk || tableOk || old(callbacks).Some? ==> Resting(View())
      ensures thrown == if fun.Some? && (!newOk || !(tableOk || old(callbacks).Some?)) then Some(BadAlloc) else None
    {
      ghost var w := View();
      if fun.None? {
        ClearHandler(k);
        return None;
      }
      if !newOk {
        return Some(BadAlloc);
      }
      SetterProgram(w, k, n, fun.value, tableOk);
      var cb := sqlite.New(Object(HookHome(k), Callable(fun.value)));
      sqlite.Hook(k, n, Heap(cb));
      assert ViewWith(cb) == Repointed(w, k, n, fun.value);
      var done := SetupCallbacks(tableOk);
      if !done {
        sqlite.Delete(cb);
        return Some(BadAlloc);
      }
      assert ViewWith(cb) == Setup(Repointed(w, k, n, fun.value));
      MoveToSlot(k, cb);
      OpRests(w, Op.SetHandler(k, n, fun.value, newOk, tableOk));
      return None;
    }

    /** unique_ptr move assignment: the slot takes the pointer, then the old object is deleted. */
    method MoveToSlot(k: Hook, cb: Addr)
      requires callbacks.Some?
      modifies this`callbacks, sqlite`ledger
      ensures View() == MoveLocal(old(ViewWith(cb)), k)
    {
      var prev := if k in callbacks.value then Some(callbacks.value[k]) else None;
      callbacks := Some(callbacks.value[k := cb]);
      if prev.Some? {
        sqlite.Delete(prev.value);
      }
    }

    /** if (callbacks) callbacks->slot.reset() */
    method ResetSlot(k: Hook)
      modifies this`callbacks, sqlite`ledger
      ensures View() == Reset(old(View()), k)
    {
      if callbacks.Some? && k in callbacks.value {
        var a := callbacks.value[k];
        callbacks := Some(callbacks.value - {k});
        sqlite.Delete(a);
      }
    }

    method ClearHandler(k: Hook)
      requires Resting(View()) && Permitted(View(), Op.ClearHandler(k))
      modifies this`callbacks, sqlite`ledger, sqlite`bound
      ensures View() == Do(old(View()), Op.ClearHandler(k)) && Resting(View())
    {
      ghost var w := View();
      OpRests(w, Op.ClearHandler(k));
      Exec2(w, ClearHook(k), Statement.ResetSlot(k));
      sqlite.Hook(k, 1, Unbound);
      assert View() == Step(w, ClearHook(k));
      ResetSlot(k);
    }

    method BusyTimeout(ms: int, rv: int) returns (thrown: Option<Exception>)
      requires Resting(View()) && Permitted(View(), Op.BusyTimeout(ms, rv == SQLITE_OK))
      modifies this`callbacks, sqlite`ledger, sqlite`bound
      ensures View() == Do(old(View()), Op.BusyTimeout(ms, rv == SQLITE_OK)) && Resting(View())
      ensures thrown == if rv != SQLITE_OK then Some(SqxxError(rv)) else None
    {
      ghost var w := View();
      OpRests(w, Op.BusyTimeout(ms, rv == SQLITE_OK));
      Exec2(w, SetBuiltIn(Busy, ms), Statement.ResetSlot(Busy));
      sqlite.OwnHook(Busy, ms, rv);
      if rv != SQLITE_OK {
        return Some(SqxxError(rv));
      }
      ResetSlot(Busy);
      return None;
    }

    method WalAutocheckpoint(frames: int, rv: int) returns (thrown: Option<Exception>)
      requires Resting(View()) && Permitted(View(), Op.WalAutocheckpoint(frames, rv == SQLITE_OK))
      modifies this`callbacks, sqlite`ledger, sqlite`bound
      ensures View() == Do(old(View()), Op.WalAutocheckpoint(frames, rv == SQLITE_OK)) && Resting(View())
      ensures thrown == if rv != SQLITE_OK then Some(SqxxError(rv)) else None
    {
      ghost var w := View();
      OpRests(w, Op.WalAutocheckpoint(frames, rv == SQLITE_OK));
      Exec2(w, SetBuiltIn(Wal, frames), Statement.ResetSlot(Wal));
      sqlite.OwnHook(Wal, frames, rv);
      if rv != SQLITE_OK {
        return Some(SqxxError(rv));
      }
      ResetSlot(Wal);
      return None;
    }

    /** create_function_register: SQLite destroys refused user data, so the wrapper only throws. */
    method CreateFunctionRegister(h: Home, data: Binding, rv: int) returns (thrown: Option<Exception>)
      modifies sqlite`ledger, sqlite`bound
      ensures rv == SQLITE_OK ==>
                sqlite.bound == old(sqlite.bound)[h := data]
                && sqlite.ledger == Destroy(old(sqlite.ledger), Bound(old(View()), h))
      ensures rv != SQLITE_OK ==>
                sqlite.bound == old(sqlite.bound) && sqlite.ledger == Destroy(old(sqlite.ledger), data)
      ensures thrown == if rv != SQLITE_OK then Some(SqxxError(rv)) else None
    {
      sqlite.CreateFunctionV2(h, data, rv);
      return if rv != SQLITE_OK then Some(SqxxError(rv)) else None;
    }

    /** create_collation_register: SQLite leaves refused user data alone, so the wrapper destroys it. */
    method CreateCollationRegister(h: Home, data: Binding, rv: int) returns (thrown: Option<Exception>)
      modifies sqlite`ledger, sqlite`bound
      ensures rv == SQLITE_OK ==>
                sqlite.bound == old(sqlite.bound)[h := data]
                && sqlite.ledger == Destroy(old(sqlite.ledger), Bound(old(View()), h))
      ensures rv != SQLITE_OK ==>
                sqlite.bound == old(sqlite.bound) && sqlite.ledger == Destroy(old(sqlite.ledger), data)
      ensures thrown == if rv != SQLITE_OK then Some(SqxxError(rv)) else None
    {
      sqlite.CreateCollationV2(h, data, rv);
      if rv != SQLITE_OK {
        if data.Heap? {
          sqlite.Delete(data.a);
        }
        return Some(SqxxError(rv));
      }
      return None;
    }

    /** create_function and create_aggregate for an object: the copy becomes SQLite's user data. */
    method CreateFunctionObject(h: Home, payload: Payload<S>, newOk: bool, rv: int) returns (thrown: Option<Exception>)
      requires Resting(View()) && Permitted(View(), Op.CreateFunction(h, payload, newOk, rv == SQLITE_OK))
      modifies sqlite`ledger, sqlite`bound
      ensures View() == Do(old(View()), Op.CreateFunction(h, payload, newOk, rv == SQLITE_OK)) && Resting(View())
      ensures thrown == if !newOk then Some(BadAlloc) else if rv != SQLITE_OK then Some(SqxxError(rv)) else None
    {
      ghost var w := View();
      OpRests(w, Op.CreateFunction(h, payload, newOk, rv == SQLITE_OK));
      if !newOk {
        return Some(BadAlloc);
      }
      Exec2(w, NewLocal(Object(h, payload)), Statement.CreateFunctionV2(h, Local, rv == SQLITE_OK));
      var cptr := sqlite.New(Object(h, payload));
      thrown := CreateFunctionRegister(h, Heap(cptr), rv);
    }

    /** create_function for a function pointer, which needs no destructor. */
    method CreateFunctionPointer(h: Home, fn: int, rv: int) returns (thrown: Option<Exception>)
      requires Resting(View()) && Permitted(View(), Op.CreateStaticFunction(h, fn, rv == SQLITE_OK))
      modifies sqlite`ledger, sqlite`bound
      ensures View() == Do(old(View()), Op.CreateStaticFunction(h, fn, rv == SQLITE_OK)) && Resting(View())
      ensures thrown == if rv != SQLITE_OK then Some(SqxxError(rv)) else None
    {
      ghost var w := View();
      OpRests(w, Op.CreateStaticFunction(h, fn, rv == SQLITE_OK));
      Exec1(w, Statement.CreateFunctionV2(h, Function(fn), rv == SQLITE_OK));
      thrown := CreateFunctionRegister(h, Static(fn), rv);
    }

    /** create_collation for an object. */
    method CreateCollationObject(h: Home, fn: int, newOk: bool, rv: int) returns (thrown: Option<Exception>)
      requires Resting(View()) && Permitted(View(), Op.CreateCollation(h, fn, newOk, rv == SQLITE_OK))
      modifies sqlite`ledger, sqlite`bound
      ensures View() == Do(old(View()), Op.CreateCollation(h, fn, newOk, rv == SQLITE_OK)) && Resting(View())
      ensures thrown == if !newOk then Some(BadAlloc) else if rv != SQLITE_OK then Some(SqxxError(rv)) else None
    {
      ghost var w := View();
      OpRests(w, Op.CreateCollation(h, fn, newOk, rv == SQLITE_OK));
      if !newOk {
        return Some(BadAlloc);
      }
      CollationProgram(w, h, fn, rv == SQLITE_OK);
      var cptr := sqlite.New(Object(h, Callable(fn)));
      thrown := CreateCollationRegister(h, Heap(cptr), rv);
    }

    /** create_collation for a function pointer. */
    method CreateCollationPointer(h: Home, fn: int, rv: int) returns (thrown: Option<Exception>)
      requires Resting(View()) && Permitted(View(), Op.CreateStaticCollation(h, fn, rv == SQLITE_OK))
      modifies sqlite`ledger, sqlite`bound
      ensures View() == Do(old(View()), Op.CreateStaticCollation(h, fn, rv == SQLITE_OK)) && Resting(View())
      ensures thrown == if rv != SQLITE_OK then Some(SqxxError(rv)) else None
    {
      ghost var w := View();
      OpRests(w, Op.CreateStaticCollation(h, fn, rv == SQLITE_OK));
      Exec1(w, Statement.CreateCollationV2(h, Function(fn), rv == SQLITE_OK));
      thrown := CreateCollationRegister(h, Static(fn), rv);
    }

    method RemoveFunction(h: Home, rv: int) returns (thrown: Option<Exception>)
      requires Resting(View()) && Permitted(View(), Op.RemoveFunction(h, rv == SQLITE_OK))
      modifies sqlite`ledger, sqlite`bound
      ensures View() == Do(old(View()), Op.RemoveFunction(h, rv == SQLITE_OK)) && Resting(View())
      ensures thrown == if rv != SQLITE_OK then Some(SqxxError(rv)) else None
    {
      ghost var w := View();
      OpRests(w, Op.RemoveFunction(h, rv == SQLITE_OK));
      Exec1(w, Statement.CreateFunctionV2(h, NullData, rv == SQLITE_OK));
      sqlite.CreateFunctionV2(h, Unbound, rv);
      return if rv != SQLITE_OK then Some(SqxxError(rv)) else None;
    }

    method RemoveCollation(h: Home, rv: int) returns (thrown: Option<Exception>)
      requires Resting(View()) && Permitted(View(), Op.RemoveCollation(h, rv == SQLITE_OK))
      modifies sqlite`ledger, sqlite`bound
      ensures View() == Do(old(View()), Op.RemoveCollation(h, rv == SQLITE_OK)) && Resting(View())
      ensures thrown == if rv != SQLITE_OK then Some(SqxxError(rv)) else None
    {
      ghost var w := View();
      OpRests(w, Op.RemoveCollation(h, rv == SQLITE_OK));
      Exec1(w, Statement.CreateCollationV2(h, NullData, rv == SQLITE_OK));
      sqlite.CreateCollationV2(h, Unbound, rv);
      return if rv != SQLITE_OK then Some(SqxxError(rv)) else None;
    }

    method Open(r: OpenResult, rv: int) returns (thrown: Option<Exception>)
      requires Resting(View()) && Permitted(View(), Op.Open(r)) && (rv == SQLITE_OK <==> r.OpenOk?)
      modifies this`handle, sqlite`ledger, sqlite`bound, sqlite`db
      ensures View() == Do(old(View()), Op.Open(r)) && Resting(View())
      ensures thrown == if rv != SQLITE_OK then Some(SqxxError(rv)) else None
      ensures thrown.Some? ==> !handle && sqlite.db.Closed?
    {
      ghost var w := View();
      OpRests(w, Op.Open(r));
      OpenProgram(w, r);
      if !r.OpenOk? {
        FailedOpen(w, r);
      }
      handle := sqlite.OpenV2(r);
      assert View() == OpenDb(w, r);
      if rv != SQLITE_OK {
        if handle {
          CloseHandle();
        }
        return Some(SqxxError(rv));
      }
      return None;
    }

    /** close_v2 and handle = nullptr, as every way to close ends. */
    method CloseHandle()
      modifies this`handle, sqlite`ledger, sqlite`bound, sqlite`db
      ensures View() == CloseDb(old(View())).(handle := false)
    {
      sqlite.CloseV2(handle);
      handle := false;
    }

    /** close(): with statements left, SQLite keeps the connection until they are gone. */
    method Close()
      requires Resting(View())
      modifies this`handle, sqlite`ledger, sqlite`bound, sqlite`db
      ensures View() == Do(old(View()), Op.Close) && !handle
      ensures Permitted(old(View()), Op.Close) ==> Resting(View())
    {
      ghost var w := View();
      if Permitted(w, Op.Close) {
        OpRests(w, Op.Close);
      }
      Exec2(w, Statement.CloseV2, NullHandle);
      CloseHandle();
    }

    method CloseSync(rv: int) returns (thrown: Option<Exception>)
      requires Resting(View()) && Permitted(View(), Op.CloseSync(rv == SQLITE_OK))
      modifies this`handle, sqlite`ledger, sqlite`bound, sqlite`db
      ensures View() == Do(old(View()), Op.CloseSync(rv == SQLITE_OK)) && Resting(View())
      ensures thrown == if rv != SQLITE_OK then Some(SqxxError(rv)) else None
    {
      ghost var w := View();
      OpRests(w, Op.CloseSync(rv == SQLITE_OK));
      if rv != SQLITE_OK {
        return Some(SqxxError(rv));
      }
      Exec2(w, Statement.CloseV2, NullHandle);
      CloseHandle();
      return None;
    }

    /** The destructor: the body closes, then the members are destroyed. */
    method Destruct()
      requires Resting(View())
      modifies this, sqlite`ledger, sqlite`bound, sqlite`db
      ensures View() == Do(old(View()), Op.Destruct) && callbacks.None?
      ensures Permitted(old(View()), Op.Destruct) ==> Resting(View()) && sqlite.db.Closed?
    {
      ghost var w := View();
      if Permitted(w, Op.Destruct) {
        OpRests(w, Op.Destruct);
        DestructReady(w);
      }
      DestructDoes(w);
      if handle {
        CloseHandle();
      }
      FreeCallbacks();
    }

    method FreeCallbacks()
      modifies this`callbacks, sqlite`ledger
      ensures View() == DropTable(old(View()))
    {
      if callbacks.Some? {
        sqlite.ledger := DeleteAll(sqlite.ledger, callbacks.value.Values);
        callbacks := None;
      }
    }
  }
}
