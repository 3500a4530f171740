# A verified model of sqxx

sqxx wraps SQLite's C API in C++ classes. This project models the parts of sqxx that keep state
across the C boundary, each together with the piece of SQLite it relies on, and proves what holds
over every run of them.

* **Connection** (`World`, `Safety`, `Runs`, `Theorems`, `Dispatch`, `AggregateRuns`, `Witnesses`,
  `Connection`). A connection object with its callback table, SQLite's hook slots and registry of
  functions, aggregates and collations, the C++ heap as a ledger of allocations and deletions
  (`Ledger`), the statements, the callbacks now on the stack and the aggregate computations in
  progress form one state machine whose steps are C++ statements. A run is any sequence of calls of
  the class and of things SQLite does by itself: entering and leaving callbacks at any nesting
  depth, starting and stopping statements, stepping and finishing aggregates. The invariant is
  proved at every program point of every run; the class `Connections.Connection` is proved to do
  what the machine does.
* **Aggregates** (`AggregateProtocol`, `AggregateObjects`, `AggregateRuns`). The memory SQLite keeps
  per aggregate context is a block with a readable `initialized` byte over raw, constructed or
  destroyed state.
* **Function trampolines** (`Trampolines`), **exec** (`Exec`), **global log handlers** (`Config`).
* **Blob stream** (`Blob`, `BlobObjects`), **statement rows** (`Rows`, `Statement`), **column
  lookup** (`Columns`, `Statement`), **backup** (`Backup`).

What SQLite, the allocator or a user callable decides is a parameter of the call or an element of
the run: return codes, failing allocations, what a callable does or throws. The ten `set_*_handler`
pairs of connection.cpp have the same statements and differ only in the SQLite function and the
table member, so one member with a `Hook` argument stands for all of them; the two pairs of
config.cpp are treated the same way.

## Assumptions about SQLite

These are stated as the contract `Safety.EventOk` and `Runs.SqliteOk` and in the statements of
`Worlds.Step`: fresh aggregate memory is zeroed; `sqlite3_create_function_v2` runs the destroy
callback on refused user data and `sqlite3_create_collation_v2` does not; registering over something
that exists is refused while a statement is running; a busy timeout or an automatic checkpoint takes
the slot of the busy or WAL handler, and a fresh connection comes with SQLite's own WAL handler; a
progress handler with an interval below one is disabled; `sqlite3_close` is refused, at least while
statements are left, and `sqlite3_close_v2` is deferred until they are gone.

The ten hooks are taken to be independent, as they are before SQLite 3.14; from then on the old trace
and profile setters switch each other off. SQLite ignores the case of function and collation names:
the names of a run stand for names in one case. A step that failed is taken to start over at the first
row when it is tried again; a step that SQLite found busy may in fact go on where it stopped.

## Assumptions about callers

`Runs.CallerOk` lists them: a handler does not set or clear its own kind while it runs, the callback
table can be allocated, statements are destroyed before their connection, a connection is not closed
from inside a callback, `open` is called on a connection without a handle, and calls that need a
handle have one. Three of them are shown to be necessary by exact conditions:
`Dispatch.SetHandlerKeepsRunningIff` with `Dispatch.ClearKeepsRunningIff`, `Dispatch.SetHandlerSafeIff`
and `Dispatch.DestructSafeIff`. `Witnesses` shows runs that meet the assumptions, and for each of the
three what happens without it. That copying an aggregate's zero state does not throw is not assumed:
`AggregateRuns.OnlyBuiltStatesIff` says what depends on it.

## Where the code does less than one would expect

Each of these is proved with its exact condition.

* A progress handler set with an interval below one is kept by the table but never called
  (`Dispatch.SetHandlerTakesEffectIff`, `Witnesses.ProgressHandlerIgnored`).
* The callback table is allocated after the hook was installed; if that fails the hook dangles
  (`Dispatch.SetHandlerSafeIff`, `Witnesses.FailedTableAllocationDangles`).
* The `initialized` flag is set before the zero state is copied; if the copy throws, the next call
  uses a state that was never constructed (`AggregateProtocol.LifecycleSafeIff` for one computation,
  `AggregateRuns.OnlyBuiltStatesIff` for whole runs, `Witnesses.FailedCopyRun`).
* A handler that sets or clears its own kind is deleted while it runs
  (`Dispatch.SetHandlerKeepsRunningIff`, `Dispatch.ClearKeepsRunningIff`,
  `Witnesses.SelfReplacementKillsHandler`).
* Destroying a connection before its statements leaves its hooks dangling
  (`Dispatch.DestructSafeIff`, `Witnesses.StatementOutlivesConnection`). Likewise `close()` with
  statements left keeps the old connection and its hooks alive in SQLite, so a handler that is replaced
  after opening the same object again is one the old connection still points to.
* At process exit the global table of log handlers is destroyed while SQLite still points to them
  (`Configs.ExitSafeIff`, `Witnesses.LogHandlerDanglesAtExit`).
* `exec` leaks SQLite's error message if and only if the handler throws at a row it is given, or the
  message cannot be copied into the exception (`Execs.Exec`, `Witnesses.ThrowingHandlerLeaks`).
* A collation whose comparison throws is taken to find the strings equal. SQLite then sees the order the
  comparison stands for if and only if it throws only for strings that are equal in that order
  (`Trampolines.IntendedOrderSeenIff`). A comparison that throws for every pair with a string it cannot
  compare gives SQLite an order at all if and only if there is no such string or it finds all the others
  equal (`Trampolines.ThrowingCollationOrdersIff`).
* A write of more than 2^31-1 bytes may store fewer and report success, and a seek whose target does
  not fit an int may land elsewhere (`Blobs.RefinesIff`, `Blobs.LongWriteIsShort`,
  `Blobs.FarSeekLandsAtStart`). A seek relative to the end counts from the last byte
  (`Blobs.EndSeekIsUsualIff`), and a relative seek by zero fails at the end of the blob
  (`Blobs.TellIff`).
* `done()` is documented to tell whether all result rows have been processed (statement.hpp:362), but it
  is true of a fresh statement, and a reset and a failed step leave it as it was
  (`Rows.DoneTellsProcessedIff`, `Rows.DoneWithoutProcessing`). Nor does it always tell whether there is
  a row to read (`Rows.DoneTruthfulIff`, `Rows.ResetLeavesStaleFlag`).
* `col_index` is documented to return the index of a column with the given name
  (statement.hpp:259-269). For a name that does not exist the code returns 0, and after a change of the
  columns it answers for those it saw first (`Columns.LookupNamesColumnIff`,
  `Witnesses.UnknownNameIsFirstColumn`, `Witnesses.StaleAnswerIsOtherColumn`); while the columns stay
  the same, it is right exactly for existing names (`Columns.FixedLookupNamesColumnIff`).
* Iterating over a backup of a source that is not empty never ends with step size zero
  (`Backups.StepMovesIff`).

## Model

| member | source | states |
|---|---|---|
| AggregateProtocol.ReplayIsFold | connection_create_aggregate.impl.hpp:44-79 | For every sequence of step calls on a fresh context, malformed, short of memory, throwing or not: the block holds the left fold of the rows that were served, the state was constructed exactly if one was, and nothing was touched while not constructed |
| AggregateProtocol.StepReplies | connection_create_aggregate.impl.hpp:100-119 | What each step call reports to SQLite: misuse for a wrong number of arguments, no memory if the first state cannot be had, else nothing unless the step function throws on the fold so far, and then the error of that kind of exception |
| AggregateProtocol.FailedCopyReplies | connection_create_aggregate.impl.hpp:100-119 | The same for the call at which copying the zero state throws |
| AggregateProtocol.FinalIsFold | connection_create_aggregate.impl.hpp:81-92 | The final call answers with the value of the final function of that fold, of the zero state if no row was served, or with the error of the kind of exception it throws, and destroys the state exactly as often as it was constructed, at most once |
| AggregateProtocol.PlainRunsFoldLeft | connection.hpp:513-523 | With a step function that does not throw, the answer is finalfun(foldl(stepfun, zero, rows)) for all rows, or the error of what finalfun throws |
| AggregateProtocol.CopyFailurePoisons | connection_create_aggregate.impl.hpp:18-23 | If copying the zero state throws, the block is left with a set flag over raw storage and every later served call uses it |
| AggregateProtocol.LifecycleSafeIff | connection_create_aggregate.impl.hpp:51-58 | A context that is stepped and finalised touches only constructed state if and only if the one copy of the zero state does not throw |
| AggregateObjects.AggregateData.GetStateCreate | connection_create_aggregate.impl.hpp:44-58 | Creates the state in zeroed memory on first use only, or throws; otherwise changes nothing |
| AggregateObjects.AggregateData.GetStateExisting | connection_create_aggregate.impl.hpp:61-68 | Never allocates; tells whether there is memory |
| AggregateObjects.AggregateData.StepCall | connection_create_aggregate.impl.hpp:71-79 | Refines the protocol's step on every way out, by return or by throw |
| AggregateObjects.AggregateData.FinalCall | connection_create_aggregate.impl.hpp:81-92 | Refines the protocol's final call; the owning pointer destroys the state on every way out |
| AggregateObjects.AggregateCallStep | connection_create_aggregate.impl.hpp:100-119 | Refines the protocol's step; whatever the step function throws becomes the error of its kind |
| AggregateObjects.AggregateCallFinal | connection_create_aggregate.impl.hpp:125-144 | The same for the final call: the final function's value or the error of its exception, for the state or the zero state |
| AggregateRuns.AnswersAreFolds | connection_create_aggregate.impl.hpp:44-92 | In every run of the connection, however computations are interleaved with each other and with anything else, and whatever fails in others: unless copying its zero state threw, each answer is the final function of the fold of exactly that computation's calls, by the aggregate registered when it began; built at most once, destroyed as often |
| AggregateRuns.ComputationsAreIndependent | connection_create_aggregate.impl.hpp:44-79 | The memory of a computation in progress is the replay of its own calls alone |
| AggregateRuns.OnlyBuiltStatesIff | connection_create_aggregate.impl.hpp:18-58 | In every run, all computations touch only constructed states if and only if none is used again after copying its zero state threw |
| Safety.StepKeeps | connection.cpp:39-804 | Every C++ statement, run where the code runs it, keeps the system invariant |
| Safety.MoveKeeps | connection.cpp:451-457 | Moving the local into the slot frees the displaced handler only when no hook points to it |
| Safety.ResetKeeps | connection.cpp:463-467 | Emptying a slot frees a handler no hook points to any more |
| Safety.RefusedFunctionKeeps | connection.cpp:39-47 | SQLite destroying refused function data frees an object nothing else refers to, once |
| Safety.ComputationFindsOwner | connection_create_aggregate.impl.hpp:100-144 | A trampoline of a computation in progress finds the live aggregate_data the computation began with |
| Runs.OpKeeps | connection.cpp:216-812 | Every permitted call keeps the invariant at each of its program points and ends with nothing in flight |
| Runs.EveryPointSafe | connection.cpp:216-812 | The system invariant holds at every program point of every call of every run |
| Runs.RegisterIdle | connection_create_function.impl.hpp:19-44 | What SQLite lets a call redefine is not in use by any callback on the stack or aggregate computation |
| Theorems.HooksNeverDangle | connection.cpp:430-804 | At every program point of every run a hook of SQLite that points to sqxx points to a live handler of its kind, owned by the matching slot or the running setter's local |
| Theorems.UserDataConserved | connection_create_function.impl.hpp:96-108 | At every program point of every run the live callables are exactly those in the table, in SQLite's registry and in flight, and all others ever allocated were deleted exactly once |
| Theorems.CallbacksStayAlive | connection_create_collation.impl.hpp:17-29 | No trampoline is entered through a dead object, and every callback on the stack stays alive and bound whatever its nested calls do |
| Theorems.NestedRegistrationsSafe | connection.cpp:762-798 | A collation-needed handler may register and remove collations any number of times, successfully or not: it stays alive and installed and the ledger stays exact |
| Theorems.AggregateOutlivesComputations | connection_create_aggregate.impl.hpp:100-144 | At every program point of every run, the aggregate_data of a computation in progress is live and still the one its calls find |
| Theorems.DestructorReleasesFirst | connection.cpp:87-91 | Destroying a connection after any run: when the table is freed, SQLite holds no alias any more |
| Theorems.DestructorFreesEverything | connection.hpp:63-75 | And then nothing is live, no handle is left, and every object ever allocated was deleted exactly once |
| Theorems.FailedOpenLeavesNoHandle | connection.cpp:216-226 | A failed open leaves no live handle on either side, whether SQLite returned one or not |
| Dispatch.CalleeIsLastSet | connection.cpp:451-812 | After every run, what SQLite calls at any hook, function or collation is what the most recent successful call for that place put there; no call disturbs another place |
| Dispatch.EventRunsLastSet | connection.cpp:439-798 | An event runs exactly that callee |
| Dispatch.TableKeepsLastSet | connection.cpp:430-467 | After every run, the table owns for each hook the handler set last, unless it was cleared, displaced by a busy timeout or autocheckpoint, or destroyed since; closing does not free it |
| Dispatch.SetHandlerTakesEffectIff | connection.cpp:667-677 | A handler that was set is called, except for the progress handler exactly when the interval is below one; the table owns it in any case |
| Dispatch.SetHandlerSafeIff | connection.cpp:430-461 | A setter leaves no dangling hook if and only if the table exists, can be allocated or is not reached, or SQLite did not install the hook |
| Dispatch.SetHandlerKeepsRunningIff | connection.cpp:451-457 | Setting a handler leaves all callbacks on the stack alive if and only if none of its kind is running |
| Dispatch.ClearKeepsRunningIff | connection.cpp:463-467 | The same for clearing a handler and for displacing the busy or WAL handler |
| Dispatch.DestructSafeIff | statement.hpp:48-50 | Destroying a connection leaves no dangling hook if and only if no statement is left or no sqxx handler is installed |
| Witnesses.ProgressHandlerIgnored | connection.cpp:667-677 | A run in which a progress handler that was set is never called |
| Witnesses.FailedTableAllocationDangles | connection.cpp:430-457 | A run in which a failing allocation leaves the commit hook dangling |
| Witnesses.OneStatementRun | connection.cpp:352-362 | A permitted run with a handler and a statement: the assumptions can be met |
| Witnesses.StatementOutlivesConnection | connection.cpp:240-253 | Destroying the connection in that state leaves the commit hook dangling |
| Witnesses.SelfReplacementKillsHandler | connection.cpp:451-467 | A run in which a commit handler that replaces or clears itself is deleted while it runs |
| Witnesses.FinishedComputationRun | connection_create_aggregate.impl.hpp:44-92 | A permitted run with a finished aggregate computation and its answer |
| Witnesses.FailedCopyRun | connection_create_aggregate.impl.hpp:18-23 | A permitted run with a computation whose zero state cannot be copied and whose final call uses a state that was never constructed |
| Witnesses.ThrowingHandlerLeaks | connection.cpp:304-309 | A handler that meets the condition of the leak in exec |
| Witnesses.LogHandlerDanglesAtExit | config.cpp:16 | A log handler that is never cleared dangles at exit |
| Witnesses.UnknownNameIsFirstColumn | statement.cpp:169-177 | An unknown name answered with the first column |
| Witnesses.StaleAnswerIsOtherColumn | statement.cpp:169-177 | A name that is still a column's answered with another column after the columns changed |
| Connections.Connection.SetupCallbacks | connection.cpp:430-433 | Makes the table on first use, or throws |
| Connections.Connection.SetHandler | connection.cpp:451-461 | Refines the setter's program, also when an allocation fails; keeps the invariant unless the table could not be allocated |
| Connections.Connection.MoveToSlot | connection.cpp:456 | unique_ptr move assignment: takes the pointer, then deletes the old object |
| Connections.Connection.ResetSlot | connection.cpp:465-466 | Deletes and forgets the slot's handler, if any |
| Connections.Connection.ClearHandler | connection.cpp:463-467 | Refines the clear program and keeps the invariant |
| Connections.Connection.BusyTimeout | connection.cpp:646-652 | Displaces the busy handler and frees it, only if SQLite accepts; otherwise throws and changes nothing |
| Connections.Connection.WalAutocheckpoint | connection.cpp:721-727 | The same for the WAL handler |
| Connections.Connection.CreateFunctionRegister | connection.cpp:39-58 | On refusal the user data is destroyed exactly once, by SQLite, and the call throws |
| Connections.Connection.CreateCollationRegister | connection.cpp:60-68 | On refusal the user data is destroyed exactly once, by the wrapper, and the call throws |
| Connections.Connection.CreateFunctionObject | connection_create_function.impl.hpp:96-108 | Refines the registration program for functions and aggregates and keeps the invariant |
| Connections.Connection.CreateFunctionPointer | connection_create_function.impl.hpp:83-94 | Registers a plain function without owning anything |
| Connections.Connection.CreateCollationObject | connection_create_collation.impl.hpp:64-74 | Refines the collation program and keeps the invariant |
| Connections.Connection.CreateCollationPointer | connection_create_collation.impl.hpp:52-62 | Registers a plain function without owning anything |
| Connections.Connection.RemoveFunction | connection.cpp:806-812 | Has SQLite destroy the registered user data, or throws and changes nothing |
| Connections.Connection.RemoveCollation | connection.cpp:340-346 | The same for collations |
| Connections.Connection.Open | connection.cpp:216-226 | Opens, or throws with no handle left on either side |
| Connections.Connection.Close | connection.cpp:240-253 | SQLite destroys all user data and forgets all hooks, the table keeps its handlers; with statements left, SQLite keeps the connection |
| Connections.Connection.CloseSync | connection.cpp:232-238 | The same, or throws and keeps the handle while statements are left |
| Connections.Connection.Destruct | connection.cpp:87-91 | Closes, then frees the table |
| Trampolines.ApplyPassesInOrder | connection_callbacks.impl.hpp:20-49 | The callable gets the base arguments followed by argv[0..N) in order |
| Trampolines.Apply | connection_callbacks.impl.hpp:20-49 | Run step by step, the callable is run exactly once, on those arguments |
| Trampolines.FunctionCall | connection_create_function.impl.hpp:19-44 | Runs the callable once on the arguments in order, not at all if their number is wrong; the reply is its value or the error of the kind of exception it throws |
| Trampolines.IntendedOrderSeenIff | connection_create_collation.impl.hpp:17-29 | For a comparison that throws for any pairs of strings: SQLite sees the order it stands for if and only if it throws only for strings equal in that order |
| Trampolines.ThrowingCollationOrdersIff | connection_create_collation.impl.hpp:17-29 | A comparison that throws for exactly the pairs with a string it cannot compare, and orders the others properly, gives SQLite a proper order on all strings if and only if there is no such string or it finds all the others equal |
| Trampolines.ThrowingOrderExists | connection_create_collation.impl.hpp:17-29 | A comparison that throws for some pairs and still gives SQLite a proper order |
| Configs.EveryPointSafe | config.cpp:88-150 | In every run of setting, failing to set and clearing, at every program point: SQLite's pointers are to live handlers of their kind and none leaks or is freed twice |
| Configs.CalleeIsLastSet | config.cpp:88-150 | A log event runs the handler of the last successful set that was not cleared since |
| Configs.TableKeepsLastSet | config.cpp:88-150 | After every run, the table owns the last handler successfully set, cleared since or not |
| Configs.RefusedSetKeepsHandler | config.cpp:90-93 | A refused set keeps the previous handler installed and alive and frees only the new one |
| Configs.ExitSafeIff | config.cpp:16 | Destroying the global table leaves no dangling pointer if and only if no handler was left installed |
| Configs.Configuration.SetLog | config.cpp:88-99 | Refines the setter and keeps the invariant; throws exactly on refusal |
| Configs.Configuration.ClearLog | config.cpp:101-105 | Uninstalls without freeing, or throws and changes nothing |
| Execs.ExecContext.Call | connection.cpp:272-281 | Aborts exactly if the handler stops or throws; the exception is kept, not passed to SQLite |
| Execs.Exec | connection.cpp:297-315 | Exactly the rows up to and including the first the handler does not continue after are delivered; the call ends without an error, with the handler's exception, with SQLite's or the abort code, or without memory, each exactly under its condition on handler and rows; the error message leaks if and only if the handler throws at that row, or the call fails with a code and the message cannot be copied |
| Execs.RethrownIff | connection.cpp:307-309 | exec rethrows if and only if the handler throws at the first row it does not continue after |
| Execs.FailedIff | connection.cpp:310-314 | exec fails with a code, SQLite's or the abort code, if and only if the handler stops it without throwing, or never stops it and SQLite fails |
| Execs.ExecPlain | connection.cpp:283-291 | Delivers no rows and throws exactly SQLite's code, or that the message cannot be copied, and leaks the message exactly then |
| Execs.ExecAny | connection.cpp:297-302 | An empty handler falls back to exec without a handler |
| Execs.EndingUnique | connection.cpp:297-315 | Rows delivered and ending are determined by the rows, SQLite's result code, the handler and the copy of the message |
| Execs.DeliveredIsPrefix | connection.cpp:265-281 | The handler sees a prefix; exec rethrows exactly if its last answer was a throw, and rethrows that exception |
| Blobs.RefinesIff | blob.cpp:15-57 | Read, write and seek agree with a stream over unbounded integers if and only if narrowing to int loses nothing, what it yields is refused too, or the write fails alike before storing anything new; a read always agrees |
| Blobs.RunRefines | blob.cpp:15-57 | Any run of calls, with failures anywhere, is a run of that abstract stream |
| Blobs.SeekLands | blob.cpp:37-57 | A seek whose target fits an int lands on off, pos+off or len+off-1 if that is a byte of the blob, and is refused otherwise, as is any other direction |
| Blobs.DoKeepsValid | blob.cpp:15-57 | 0 <= pos <= len holds after every call, the length never changes, and a failing call leaves the position |
| Blobs.ReadDelivers | blob.cpp:15-25 | A working read of any size n >= 0 delivers min(n, len - pos) bytes despite the clamp and the cast |
| Blobs.ChunksConcatenate | blob.cpp:15-25 | Successive reads of any sizes deliver the blob's bytes without gap or overlap |
| Blobs.EnoughReadsReachTheEnd | blob.cpp:15-25 | Reads that ask for no less than is left reach the end and deliver the whole suffix |
| Blobs.ReadsReachTheEnd | blob.cpp:15-25 | As many positive reads as bytes are left reach the end and deliver the whole suffix |
| Blobs.WriteSeekReadRoundTrip | blob.cpp:15-57 | Write k > 0 bytes, seek back by k, read k bytes in pieces: the bytes come back, the position is restored, all other bytes are unchanged |
| Blobs.TellIff | blob.cpp:37-57 | A relative seek by zero reports the position if and only if the cursor is not at the end |
| Blobs.EndSeekIsUsualIff | blob.cpp:45-47 | A seek relative to the end does what streams usually do if and only if both refuse it |
| Blobs.LongWriteIsShort | blob.cpp:27-35 | A write of 2^32+1 bytes stores one byte and succeeds |
| Blobs.FarSeekLandsAtStart | blob.cpp:37-57 | A seek to 2^32 lands at the first byte |
| BlobObjects.BlobSource.Read | blob.cpp:15-25 | Fills exactly the delivered part of the caller's buffer and refines the read |
| BlobObjects.BlobSource.Write | blob.cpp:27-35 | Refines the write on the blob's bytes |
| BlobObjects.BlobSource.Seek | blob.cpp:37-57 | Refines the seek |
| Rows.DoneTruthfulIff | statement.cpp:233-273 | After every run of steps and resets, done() tells whether there is a row if and only if the last call was a successful step or the last successful step found none |
| Rows.DoneTellsProcessedIff | statement.hpp:362-364 | After every run, done() says that all rows have been processed exactly when they have if and only if the last call was a successful step or done() is false |
| Rows.DoneWithoutProcessing | statement.cpp:262-273 | A fresh statement, and a finished one after a reset, are done() with nothing processed |
| Rows.ResetLeavesStaleFlag | statement.cpp:262-273 | A run after which done() is false without a row |
| Rows.ResetRunRestarts | statement.cpp:248-273 | After any history reset() and run() start at the first row with a truthful flag |
| Rows.StepsVisitRowsInOrder | statement.cpp:233-260 | After any history, a reset and k steps are on row k-1, and finished after the last one |
| Statements.Statement.Step | statement.cpp:233-246 | Refines SQLite's cursor with the flag; an error throws and leaves the flag |
| Statements.Statement.Reset | statement.cpp:262-273 | Resets the cursor and the column cache, not the flag |
| Statements.Statement.ColIndex | statement.cpp:169-177 | The building loop and the lookup refine the cache; a first lookup answers with the last column of that name or 0 |
| Statements.RowIterator.Increment | statement.cpp:293-298 | One step, the row number grows by one, the end is reached exactly when the statement is done; an exception leaves the iterator |
| Statements.VisitRows | statement.hpp:389-393 | A range-based for loop started on row j visits rows j to the last once each in order, numbered from 0, and ends with done() true without stepping past the end |
| Statements.RunAndVisit | test/sqxx_test.cpp:98-109 | After any history, reset(), run() and such a loop visit rows 0 to n-1 once each in order, each numbered with its own number, and end with done() true without stepping past the end |
| Columns.ScanFindsLast | statement.cpp:171-173 | The table built by the loop maps each name to its last column and knows no other name |
| Columns.LookupIsScan | statement.cpp:169-177 | After any hits, misses, resets and changes of the columns, a lookup answers with a linear scan of the columns at the first lookup since the last reset, or 0 |
| Columns.FixedColumnsAreSeen | statement.cpp:262-273 | If the columns do not change, those are the current ones |
| Columns.LookupNamesColumnIff | statement.hpp:259-270 | After any run, the lookup's answer is the index of a current column of that name if and only if the last such column seen at the first lookup since the last reset is still there, or the name was not seen and is the first column's |
| Columns.FixedLookupNamesColumnIff | statement.cpp:169-177 | While the columns stay the same: if and only if there is a column of that name |
| Backups.CopyAllCopiesAll | backup.hpp:58-62 | Stepping with any size but zero copies each page once in order, ends with destination equal to source, in max(1, ceil(P/s)) steps, one if the size is negative |
| Backups.SteppingAgreesWithRun | backup.hpp:30-32 | Stepping and a single run() leave the same |
| Backups.StepMovesIff | backup.cpp:22-31 | A step moves on or ends the backup if and only if its size is not zero or nothing is left |
| Backups.Backup.Step | backup.cpp:22-31 | True while pages are left; an error throws and changes nothing |
| Backups.Backup.Run | backup.hpp:30-32 | Copies everything, or throws and changes nothing |
| Backups.Backup.Destruct | backup.cpp:16-20 | Finishes an acquired handle once |
| Backups.ScopedBackup | backup.cpp:10-31 | Over the whole life of a backup object: what is copied is what the calls before the first failing one copy, all of it if their sizes cover the source; that failure is what is thrown; a handle SQLite gave out is finished exactly once, on every way out and after the last step; without one the constructor throws and nothing is stepped or finished |
| Backups.CopyStepsCompleteIff | backup.cpp:22-31 | Any calls of step keep the copied part faithful and in order; the copy is complete if and only if the sizes before the first failure cover what was left |
| Backups.StepIterator.Increment | backup.hpp:58-62 | One step; becomes the end exactly when nothing is left; an exception leaves the iterator |
| Backups.BackupInSteps | backup.hpp:76-82 | A loop over the steps of a fresh backup makes a faithful copy, each page once, in max(1, ceil(P/s)) steps |

## Left out

- SQLite itself: only the contract listed above is modelled.
- Forwarders without state of their own: `status_*`, `limit_*`, `column`, `value`, `parameter`, the `bind` and `val` specialisations, `context::result*`, global.cpp, the other `config_*` functions.
- What the hook trampolines answer to SQLite when a handler throws: each is one constant.
- Step callables with mutable state of their own: a step function is a function of the state and the row.
- User comparisons and functions with state of their own: each is a function of its arguments.
- Templates: argument and state types are one `Value` and one state type per machine; overload selection is not modelled.
- Moved-from objects: connections, statements, blobs and backups stay where they are.
- Callbacks run by the destructors of user callables while they are deleted.
- A connection closed while statements are left is modelled until the object is opened again or destroyed; SQLite's later clean-up is not.
- Integer overflow of 64-bit offsets in `seek`: the target is computed exactly before it is narrowed.
- `Blobs.Read`: negative sizes are covered by the function but not by the class, whose buffer has the size asked for.
- Backup errors: a failing step is modelled as copying nothing; a source that changes during the backup is not modelled.
- A null column name from SQLite in `col_index`, and a null error message in `exec`.
- `create_function_vararg`, `create_collation_stdstr` and `val<T>(const std::string&)`: unfinished in the source.
- Threads: the calls of a run happen one after the other.
