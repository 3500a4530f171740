/** The trampoline behind create_function, and how arguments reach user callables. */
module Trampolines {
  import opened Types

  /**
   * apply_value_array_st: the argument list grows by one value of argv per
   * template instantiation until all `n` are there.
   */
  function ApplyFrom<R>(f: seq<Value> -> R, argv: seq<Value>, i: nat, n: nat, args: seq<Value>): R
    requires i <= n <= |argv|
    decreases n - i
  {
    if i == n then f(args) else ApplyFrom(f, argv, i + 1, n, args + [argv[i]])
  }

  /** The callable gets the base arguments followed by argv[0..n), in order. */
  lemma {:induction false} ApplyPassesInOrder<R>(f: seq<Value> -> R, argv: seq<Value>, i: nat, n: nat, args: seq<Value>)
    requires i <= n <= |argv|
    ensures ApplyFrom(f, argv, i, n, args) == f(args + argv[i..n])
    decreases n - i
  {
    if i == n {
      assert args + argv[i..n] == args;
    } else {
      ApplyPassesInOrder(f, argv, i + 1, n, args + [argv[i]]);
      assert args + [argv[i]] + argv[i + 1..n] == args + argv[i..n];
    }
  }

  /** What SQLite gives a SQL function: a place for the reply. */
  class SqliteContext {
    var reply: Reply
    ghost var calls: seq<seq<Value>>   // the argument lists the user's callable was run with

    constructor ()
      ensures reply == NoReply && calls == []
    {
      reply, calls := NoReply, [];
    }
  }

  /** The one place where a user callable is run, and recorded. */
  method Invoke(callable: seq<Value> -> Outcome<Value>, args: seq<Value>, ctx: SqliteContext)
    returns (o: Outcome<Value>)
    modifies ctx`calls
    ensures ctx.calls == old(ctx.calls) + [args] && o == callable(args)
  {
    ctx.calls := ctx.calls + [args];
    o := callable(args);
  }

  /** apply_value_array_st as it is run: one instantiation after the other, and the callable in the last one. */
  method Apply(callable: seq<Value> -> Outcome<Value>, ctx: SqliteContext,
               argv: seq<Value>, i: nat, n: nat, args: seq<Value>)
    returns (o: Outcome<Value>)
    requires i <= n <= |argv|
    modifies ctx`calls
    ensures ctx.calls == old(ctx.calls) + [args + argv[i..n]]
    ensures o == ApplyFrom(callable, argv, i, n, args)
    decreases n - i
  {
    if i == n {
      assert args + argv[i..n] == args;
      o := Invoke(callable, args, ctx);
    } else {
      assert args + [argv[i]] + argv[i + 1..n] == args + argv[i..n];
      o := Apply(callable, ctx, argv, i + 1, n, args + [argv[i]]);
    }
  }

  /**
   * function_call_ptr and function_call_staticfptr: a call with the wrong
   * number of arguments is refused without running the callable; otherwise the
   * callable runs once, on the arguments in order, and its value or its
   * exception becomes the reply. Nothing is thrown into SQLite.
   */
  method FunctionCall(callable: seq<Value> -> Outcome<Value>, nargs: nat, ctx: SqliteContext, argv: seq<Value>)
    modifies ctx
    ensures |argv| != nargs ==> ctx.calls == old(ctx.calls) && ctx.reply == ErrorCode(21)
    ensures |argv| == nargs ==> ctx.calls == old(ctx.calls) + [argv]
    ensures |argv| == nargs && callable(argv).Returned? ==> ctx.reply == Result(callable(argv).value)
    ensures |argv| == nargs && callable(argv).Raised? ==>
              match callable(argv).exception
              case SqxxError(code) => ctx.reply == ErrorCode(code)
              case BadAlloc => ctx.reply == ErrorNoMem
              case StdException(what) => ctx.reply == ErrorMessage(what)
              case Unknown => ctx.reply == ErrorCode(21)
  {
    if |argv| != nargs {
      ctx.reply := ErrorCode(SQLITE_MISUSE);
      return;
    }
    ApplyPassesInOrder(callable, argv, 0, nargs, []);
    assert [] + argv[0..nargs] == argv;
    var o := Apply(callable, ctx, argv, 0, nargs, []);
    match o {
      case Returned(v) => ctx.reply := Result(v);
      case Raised(e) => ctx.reply := Caught(e);
    }
  }

  // ----- collations -----------------------------------------------------------

  /** The user's comparison, which may throw. */
  type Comparison = (string, string) -> Outcome<int>

  /** The order SQLite sees: two strings whose comparison throws are equal to it. */
  function Order(callable: Comparison, left: string, right: string): int {
    match callable(left, right)
    case Returned(v) => v
    case Raised(_) => 0
  }

  /** collation_compare_ptr and collation_compare_staticfptr: nothing is thrown into SQLite. */
  method CollationCompare(callable: Comparison, left: string, right: string) returns (order: int)
    ensures order == Order(callable, left, right)
  {
    match callable(left, right) {
      case Returned(v) => order := v;
      case Raised(_) => order := 0;
    }
  }

  predicate SameSign(x: int, y: int) { (x < 0 <==> y < 0) && (x > 0 <==> y > 0) }

  /** What SQLite demands of a collation on the strings `on`: antisymmetric, and "not greater" is transitive. */
  ghost predicate OrdersBy(order: (string, string) -> int, on: string -> bool) {
    && (forall a, b :: on(a) && on(b) ==> SameSign(order(a, b), -order(b, a)))
    && (forall a, b, c :: on(a) && on(b) && on(c) && order(a, b) <= 0 && order(b, c) <= 0 ==> order(a, c) <= 0)
  }

  /** The comparison throws exactly when one of the strings is not comparable. */
  ghost predicate ThrowsOutside(callable: Comparison, comparable: string -> bool) {
    forall a, b :: callable(a, b).Raised? <==> !comparable(a) || !comparable(b)
  }

  /** The values a comparison returns agree with the order `intended`. */
  ghost predicate ReturnsBy(callable: Comparison, intended: (string, string) -> int) {
    forall a, b :: callable(a, b).Returned? ==> SameSign(callable(a, b).value, intended(a, b))
  }

  /**
   * Whatever pairs of strings it throws for: SQLite sees the order a comparison
   * stands for if and only if it throws only for strings equal in that order.
   */
  lemma IntendedOrderSeenIff(callable: Comparison, intended: (string, string) -> int)
    requires ReturnsBy(callable, intended)
    ensures (forall a, b :: SameSign(Order(callable, a, b), intended(a, b))) <==>
            (forall a, b :: callable(a, b).Raised? ==> intended(a, b) == 0)
  {
    forall a, b ensures SameSign(Order(callable, a, b), intended(a, b)) <==>
                        (callable(a, b).Raised? ==> intended(a, b) == 0)
    {
    }
    if forall a, b :: SameSign(Order(callable, a, b), intended(a, b)) {
      forall a, b | callable(a, b).Raised? ensures intended(a, b) == 0 {
        assert SameSign(Order(callable, a, b), intended(a, b));
      }
    }
  }

  /** Throwing alone is harmless: this comparison of lengths throws for equal ones, and orders all strings. */
  lemma ThrowingOrderExists()
    ensures var byLength := (a: string, b: string) =>
              if |a| == |b| then Raised(Unknown) else Returned(|a| - |b|);
            byLength("a", "b").Raised? && OrdersBy((a, b) => Order(byLength, a, b), s => true)
  {
  }

  /**
   * A comparison that is a proper order on the strings it can compare and
   * throws on the others gives SQLite a proper order on all strings if and only
   * if it never throws or cannot tell any strings apart.
   */
  lemma ThrowingCollationOrdersIff(callable: Comparison, comparable: string -> bool)
    requires ThrowsOutside(callable, comparable)
    requires OrdersBy((a, b) => Order(callable, a, b), comparable)
    ensures OrdersBy((a, b) => Order(callable, a, b), s => true) <==>
            (forall s :: comparable(s))
            || (forall a, b :: comparable(a) && comparable(b) ==> Order(callable, a, b) == 0)
  {
    var order := (a: string, b: string) => Order(callable, a, b);
    if x: string :| !comparable(x) {
      forall s ensures order(s, x) == 0 && order(x, s) == 0 {
        assert callable(s, x).Raised? && callable(x, s).Raised?;
      }
      if a, b :| comparable(a) && comparable(b) && order(a, b) != 0 {
        UncomparableBreaksOrder(order, a, b, x);
        assert Order(callable, a, b) != 0;
      } else {
        forall a, b ensures order(a, b) == 0 {
          assert !comparable(a) || !comparable(b) ==> callable(a, b).Raised?;
        }
        AllEqualIsOrder(order);
      }
    }
  }

  lemma AllEqualIsOrder(order: (string, string) -> int)
    requires forall a, b :: order(a, b) == 0
    ensures OrdersBy(order, s => true)
  {
  }

  /** A string equal to all others beside two that differ. */
  lemma UncomparableBreaksOrder(order: (string, string) -> int, a: string, b: string, x: string)
    requires order(a, b) != 0 && forall s :: order(s, x) == 0 && order(x, s) == 0
    ensures !OrdersBy(order, s => true)
  {
    assert order(a, x) <= 0 && order(x, b) <= 0;
    assert order(b, x) <= 0 && order(x, a) <= 0;
  }
}
