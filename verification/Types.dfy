/** Small datatypes shared by all parts of the model. */
module Types {

  datatype Option<+T> = None | Some(value: T)

  /** A value that crosses the SQL boundary (value.hpp, context.hpp). */
  datatype Value = Null | Integer(i: int) | Real(r: real) | Text(s: string) | Bytes(b: seq<bv8>)

  /** What a user callable can throw, as the catch clauses of the trampolines tell it apart. */
  datatype Exception = SqxxError(code: int) | BadAlloc | StdException(what: string) | Unknown

  /** What a call of a user callable ends in. */
  datatype Outcome<+T> = Returned(value: T) | Raised(exception: Exception)

  /** What a trampoline leaves in the sqlite3_context. */
  datatype Reply = NoReply | Result(v: Value) | ErrorCode(code: int) | ErrorNoMem | ErrorMessage(what: string)

  const SQLITE_OK := 0
  const SQLITE_ERROR := 1
  const SQLITE_ABORT := 4
  const SQLITE_MISUSE := 21

  /** The catch clauses shared by the function and the aggregate trampolines. */
  function Caught(e: Exception): Reply {
    match e
    case SqxxError(code) => ErrorCode(code)
    case BadAlloc => ErrorNoMem
    case StdException(what) => ErrorMessage(what)
    case Unknown => ErrorCode(SQLITE_MISUSE)
  }

  function ReplyOf(o: Outcome<Value>): Reply {
    match o
    case Returned(v) => Result(v)
    case Raised(e) => Caught(e)
  }
}
