/**
 * The backup object: stepwise copying of pages, and the iterator over the steps.
 */
module Backups {
  import opened Types

  type Page = seq<bv8>

  datatype StepResult = More | AllDone | Error(rv: int)

  /** How many pages one step copies: at most `pages`, all that remain if negative. */
  function Taken(total: nat, next: nat, pages: int): nat
    requires next <= total
  {
    if pages < 0 || pages > total - next then total - next else pages
  }

  /** The number of steps of a positive size a whole backup takes. */
  function StepCount(total: nat, size: nat): nat
    requires size > 0
  {
    if total <= size then 1 else (total + size - 1) / size
  }

  // ----- the copy on values ---------------------------------------------------

  /** The page numbers from `from` up to but not including `to`. */
  function Numbers(from: nat, to: nat): (r: seq<nat>)
    requires from <= to
    ensures |r| == to - from && forall i :: 0 <= i < |r| ==> r[i] == from + i
  {
    seq(to - from, i => from + i)
  }

  /** Pages copied so far, and the page numbers in the order they were written. */
  datatype Progress = Progress(dest: seq<Page>, next: nat, copied: seq<nat>)

  ghost predicate Consistent(src: seq<Page>, p: Progress) {
    && p.next <= |src| && p.next <= |p.dest|
    && p.dest[..p.next] == src[..p.next]
    && p.copied == Numbers(0, p.next)
  }

  /** sqlite3_backup_step without an error. When all is copied the destination has the source's size. */
  function CopyStep(src: seq<Page>, p: Progress, pages: int): (r: (Progress, bool))
    requires p.next <= |src| && p.next <= |p.dest|
    ensures p.next <= r.0.next <= |src| && r.0.next <= |r.0.dest|
  {
    var to := p.next + Taken(|src|, p.next, pages);
    var tail := if to == |src| || to > |p.dest| then [] else p.dest[to..];
    (Progress(p.dest[..p.next] + src[p.next..to] + tail, to, p.copied + Numbers(p.next, to)), to < |src|)
  }

  lemma CopyStepConsistent(src: seq<Page>, p: Progress, pages: int)
    requires Consistent(src, p)
    ensures Consistent(src, CopyStep(src, p, pages).0)
    ensures CopyStep(src, p, pages).0.next == |src| ==> CopyStep(src, p, pages).0.dest == src
  {
    var q := CopyStep(src, p, pages).0;
    assert src[..q.next] == src[..p.next] + src[p.next..q.next];
    assert q.dest[..q.next] == src[..q.next];
    assert q.next == |src| ==> src[..q.next] == src && q.dest[..q.next] == q.dest;
  }

  /** Steps of one size until the copy says it is done. */
  function CopyAll(src: seq<Page>, p: Progress, size: int): (r: (Progress, nat))
    requires size != 0 && p.next <= |src| && p.next <= |p.dest|
    decreases |src| - p.next
  {
    var (q, more) := CopyStep(src, p, size);
    if !more then (q, 1)
    else
      var (end, k) := CopyAll(src, q, size);
      (end, k + 1)
  }

  /**
   * A backup in steps of any positive size, or in one step of all pages, copies
   * each page once, in order, ends with the destination equal to the source,
   * and takes max(1, ceil(P/s)) steps.
   */
  lemma {:induction false} CopyAllCopiesAll(src: seq<Page>, p: Progress, size: int)
    requires Consistent(src, p) && size != 0
    ensures var (end, k) := CopyAll(src, p, size);
            Consistent(src, end) && end.next == |src| && end.dest == src
            && k == if size > 0 then StepCount(|src| - p.next, size) else 1
    decreases |src| - p.next
  {
    var (q, more) := CopyStep(src, p, size);
    CopyStepConsistent(src, p, size);
    if more {
      CopyAllCopiesAll(src, q, size);
      OneStepLess(|src| - p.next, size);
    }
  }

  lemma OneStepLess(total: nat, size: nat)
    requires total > size > 0
    ensures StepCount(total, size) == StepCount(total - size, size) + 1
  {
    var rest := total - size;
    DivAddsOne(rest + size - 1, size);
    if rest <= size {
      DivIsOne(rest + size - 1, size);
    }
  }

  lemma DivAddsOne(x: nat, d: nat)
    requires d > 0
    ensures (x + d) / d == x / d + 1
  {
    var q, r := x / d, x % d;
    assert x + d == d * (q + 1) + r;
    QuotientUnique(x + d, d, q + 1, r);
  }

  lemma DivIsOne(x: nat, d: nat)
    requires d <= x < 2 * d
    ensures x / d == 1
  {
    QuotientUnique(x, d, 1, x - d);
  }

  lemma QuotientUnique(x: nat, d: nat, q: nat, r: nat)
    requires d > 0 && x == d * q + r && r < d
    ensures x / d == q
  {
    if x / d > q {
      LargerQuotientDiffers(d, x / d, x % d, q, r);
    } else if q > x / d {
      LargerQuotientDiffers(d, q, r, x / d, x % d);
    }
  }

  lemma LargerQuotientDiffers(d: nat, p: nat, s: nat, q: nat, r: nat)
    requires p > q && r < d
    ensures d * p + s != d * q + r
  {
    Distribute(d, q, p - q - 1);
    assert d * (p - q - 1) >= 0;
  }

  lemma Distribute(d: nat, q: nat, m: nat)
    ensures d * (q + m + 1) == d * q + d * m + d
  {
  }

  /** Stepping and a single run() agree. */
  lemma SteppingAgreesWithRun(src: seq<Page>, dest: seq<Page>, size: int)
    requires size != 0
    ensures CopyAll(src, Progress(dest, 0, []), size).0 == CopyAll(src, Progress(dest, 0, []), -1).0
    ensures CopyAll(src, Progress(dest, 0, []), -1).1 == 1
  {
    var p := Progress(dest, 0, []);
    CopyAllCopiesAll(src, p, size);
    CopyAllCopiesAll(src, p, -1);
    var a, b := CopyAll(src, p, size).0, CopyAll(src, p, -1).0;
  }

  /**
   * A step moves on or ends the backup exactly if its size is not zero or
   * nothing is left; with size zero a started backup stays where it is for
   * good, so an iteration with that step size never ends.
   */
  lemma StepMovesIff(src: seq<Page>, p: Progress, size: int)
    requires Consistent(src, p)
    ensures (CopyStep(src, p, size).0.next > p.next || !CopyStep(src, p, size).1) <==> (size != 0 || p.next == |src|)
    ensures size == 0 && p.next < |src| ==> CopyStep(src, p, size) == (p, true)
  {
    if size == 0 && p.next < |src| {
      assert p.dest == p.dest[..p.next] + src[p.next..p.next] + if p.next > |p.dest| then [] else p.dest[p.next..];
      assert p.copied + Numbers(p.next, p.next) == p.copied;
    }
  }

  // ----- the objects ----------------------------------------------------------

  /** A sqlite3_backup with an unchanged source. */
  class SqliteBackup {
    const src: seq<Page>
    var dest: seq<Page>
    var next: nat
    var finished: bool
    ghost var copied: seq<nat>
    ghost var finishes: nat

    constructor (src: seq<Page>, dest: seq<Page>)
      ensures this.src == src && View() == Progress(dest, 0, []) && !finished && finishes == 0
    {
      this.src, this.dest, next, finished := src, dest, 0, false;
      copied, finishes := [], 0;
    }

    ghost function View(): Progress
      reads this
    {
      Progress(dest, next, copied)
    }

    method Step(pages: int, err: Option<int>) returns (r: StepResult)
      requires Consistent(src, View()) && !finished
      modifies this`dest, this`next, this`copied
      ensures Consistent(src, View())
      ensures err.Some? ==> r == Error(err.value) && View() == old(View())
      ensures err.None? ==>
                (View(), r) ==
                (var (q, more) := CopyStep(src, old(View()), pages); (q, if more then More else AllDone))
    {
      if err.Some? {
        return Error(err.value);
      }
      CopyStepConsistent(src, View(), pages);
      var to := next + Taken(|src|, next, pages);
      var tail := if to == |src| || to > |dest| then [] else dest[to..];
      copied := copied + Numbers(next, to);
      dest := dest[..next] + src[next..to] + tail;
      next := to;
      return if to < |src| then More else AllDone;
    }

    method Finish()
      requires !finished
      modifies this`finished, this`finishes
      ensures finished && finishes == old(finishes) + 1
    {
      finished, finishes := true, finishes + 1;
    }
  }

  class Backup {
    const handle: SqliteBackup?

    /** The constructor's member initialiser; without a handle it throws. */
    constructor (handle: SqliteBackup?)
      ensures this.handle == handle
    {
      this.handle := handle;
    }

    /** backup::step: true while there is more to copy. */
    method Step(pages: int, err: Option<int>) returns (r: Outcome<bool>)
      requires handle != null && Consistent(handle.src, handle.View()) && !handle.finished
      modifies handle`dest, handle`next, handle`copied
      ensures Consistent(handle.src, handle.View())
      ensures err.Some? ==> r == Raised(SqxxError(err.value)) && handle.View() == old(handle.View())
      ensures err.None? ==>
                r == Returned(CopyStep(handle.src, old(handle.View()), pages).1)
                && handle.View() == CopyStep(handle.src, old(handle.View()), pages).0
    {
      var rv := handle.Step(pages, err);
      match rv {
        case More => return Returned(true);
        case AllDone => return Returned(false);
        case Error(e) => return Raised(SqxxError(e));
      }
    }

    /** run(): one step of all pages. */
    method Run(err: Option<int>) returns (thrown: Option<Exception>)
      requires handle != null && Consistent(handle.src, handle.View()) && !handle.finished
      modifies handle`dest, handle`next, handle`copied
      ensures Consistent(handle.src, handle.View())
      ensures err.None? ==> thrown == None && handle.next == |handle.src| && handle.dest == handle.src
      ensures err.Some? ==> thrown == Some(SqxxError(err.value)) && handle.View() == old(handle.View())
    {
      CopyStepConsistent(handle.src, handle.View(), -1);
      var r := Step(-1, err);
      return if r.Raised? then Some(r.exception) else None;
    }

    /** The destructor finishes what the constructor acquired, once. */
    method Destruct()
      requires handle != null ==> !handle.finished
      modifies if handle == null then {} else {handle}
      ensures handle != null ==>
                handle.finished && handle.finishes == old(handle.finishes) + 1 && handle.View() == old(handle.View())
    {
      if handle != null {
        handle.Finish();
      }
    }
  }

  /** Creates a backup, or throws without anything to finish. */
  method MakeBackup(handle: SqliteBackup?, recentError: int) returns (r: Outcome<Backup>)
    ensures handle == null ==> r == Raised(SqxxError(recentError))
    ensures handle != null ==> r.Returned? && r.value.handle == handle
  {
    if handle == null {
      return Raised(SqxxError(recentError));
    }
    var b := new Backup(handle);
    return Returned(b);
  }

  /** A call of step: its size, and SQLite's error if it fails. */
  datatype StepCall = StepCall(pages: int, err: Option<int>)

  /** The error of the first call that fails. */
  function FirstError(calls: seq<StepCall>): Option<int> {
    if calls == [] then None else if calls[0].err.Some? then calls[0].err else FirstError(calls[1..])
  }

  lemma {:induction false} FirstErrorAt(calls: seq<StepCall>, i: nat)
    requires i <= |calls| && forall j :: 0 <= j < i ==> calls[j].err.None?
    requires i < |calls| ==> calls[i].err.Some?
    ensures FirstError(calls) == if i < |calls| then calls[i].err else None
  {
    if i > 0 {
      FirstErrorAt(calls[1..], i - 1);
    }
  }

  /** The copy after the calls that come before the first failing one. */
  function CopySteps(src: seq<Page>, p: Progress, calls: seq<StepCall>): Progress
    requires p.next <= |src| && p.next <= |p.dest|
    decreases |calls|
  {
    if calls == [] || calls[0].err.Some? then p else CopySteps(src, CopyStep(src, p, calls[0].pages).0, calls[1..])
  }

  /** The sizes of those calls cover `left` pages, in at least one call. */
  predicate Covers(calls: seq<StepCall>, left: nat)
    decreases |calls|
  {
    calls != [] && calls[0].err.None?
    && (calls[0].pages < 0 || calls[0].pages >= left || Covers(calls[1..], left - calls[0].pages))
  }

  /** Any calls keep the copy consistent; it is complete if and only if their sizes cover what was left. */
  lemma {:induction false} CopyStepsCompleteIff(src: seq<Page>, p: Progress, calls: seq<StepCall>)
    requires Consistent(src, p)
    ensures Consistent(src, CopySteps(src, p, calls))
    ensures Covers(calls, |src| - p.next) ==> CopySteps(src, p, calls).dest == src
    ensures CopySteps(src, p, calls).next == |src| <==> Covers(calls, |src| - p.next) || p.next == |src|
    decreases |calls|
  {
    if calls != [] && calls[0].err.None? {
      var q := CopyStep(src, p, calls[0].pages).0;
      CopyStepConsistent(src, p, calls[0].pages);
      CopyStepsCompleteIff(src, q, calls[1..]);
      if q.next == |src| {
        CompleteStays(src, q, calls[1..]);
      }
    }
  }

  /** A complete copy stays what it is. */
  lemma {:induction false} CompleteStays(src: seq<Page>, p: Progress, calls: seq<StepCall>)
    requires Consistent(src, p) && p.next == |src| && p.dest == src
    ensures CopySteps(src, p, calls) == p
    decreases |calls|
  {
    if calls != [] && calls[0].err.None? {
      CopyStepConsistent(src, p, calls[0].pages);
      CompleteStays(src, CopyStep(src, p, calls[0].pages).0, calls[1..]);
    }
  }

  /**
   * The life of a backup object in a scope: constructed, stepped as the caller
   * likes, and left at the end or by the first exception. The calls before that
   * are what was copied. A handle SQLite gave out is finished exactly once,
   * after the last step and on every way out; without one there is nothing to
   * finish, and nothing is stepped.
   */
  method ScopedBackup(handle: SqliteBackup?, recentError: int, calls: seq<StepCall>)
    returns (thrown: Option<Exception>)
    requires handle != null ==> !handle.finished && handle.next == 0 && handle.copied == []
    modifies if handle == null then {} else {handle}
    ensures handle == null ==> thrown == Some(SqxxError(recentError))
    ensures handle != null ==> handle.finished && handle.finishes == old(handle.finishes) + 1
    ensures handle != null ==>
              handle.View() == CopySteps(handle.src, Progress(old(handle.dest), 0, []), calls)
              && (Covers(calls, |handle.src|) ==> handle.dest == handle.src)
    ensures handle != null ==>
              thrown == if FirstError(calls).Some? then Some(SqxxError(FirstError(calls).value)) else None
  {
    var made := MakeBackup(handle, recentError);
    if made.Raised? {
      return Some(made.exception);
    }
    var b := made.value;
    thrown := None;
    ghost var start := handle.View();
    CopyStepsCompleteIff(handle.src, start, calls);
    var i := 0;
    while i < |calls| && thrown.None?
      invariant 0 <= i <= |calls|
      invariant b.handle == handle && !handle.finished && handle.finishes == old(handle.finishes)
      invariant Consistent(handle.src, handle.View())
      invariant CopySteps(handle.src, start, calls) ==
                if thrown.None? then CopySteps(handle.src, handle.View(), calls[i..]) else handle.View()
      invariant if thrown.None? then FirstError(calls) == FirstError(calls[i..])
                else FirstError(calls).Some? && thrown == Some(SqxxError(FirstError(calls).value))
    {
      var r := b.Step(calls[i].pages, calls[i].err);
      if r.Raised? {
        thrown := Some(r.exception);
      }
      i := i + 1;
    }
    b.Destruct();
  }

  /** backup::step_iterator; a null backup is the end. */
  class StepIterator {
    var b: Backup?
    const stepsize: int

    constructor (b: Backup?, stepsize: int)
      ensures this.b == b && this.stepsize == stepsize
    {
      this.b, this.stepsize := b, stepsize;
    }

    method Increment(err: Option<int>) returns (thrown: Option<Exception>)
      requires b != null && b.handle != null && Consistent(b.handle.src, b.handle.View()) && !b.handle.finished
      modifies this, b.handle`dest, b.handle`next, b.handle`copied
      ensures Consistent(old(b).handle.src, old(b).handle.View())
      ensures err.Some? ==>
                thrown == Some(SqxxError(err.value)) && b == old(b) && old(b).handle.View() == old(b.handle.View())
      ensures err.None? ==>
                thrown == None
                && (old(b).handle.View(), b != null) == CopyStep(old(b).handle.src, old(b.handle.View()), stepsize)
                && (b == null || b == old(b))
    {
      var more := b.Step(stepsize, err);
      if more.Raised? {
        return Some(more.exception);
      }
      if !more.value {
        b := null;
      }
      return None;
    }
  }

  /**
   * A range-based for loop over the steps of a fresh backup, without errors:
   * max(1, ceil(P/s)) steps, each page copied once, and a faithful copy.
   */
  method BackupInSteps(b: Backup, stepsize: int) returns (steps: nat)
    requires b.handle != null && !b.handle.finished && b.handle.next == 0 && b.handle.copied == [] && stepsize != 0
    modifies b.handle`dest, b.handle`next, b.handle`copied
    ensures b.handle.dest == b.handle.src
    ensures b.handle.copied == Numbers(0, |b.handle.src|)
    ensures steps == if stepsize > 0 then StepCount(|b.handle.src|, stepsize) else 1
  {
    var it := new StepIterator(b, stepsize);
    ghost var src := b.handle.src;
    ghost var whole := CopyAll(src, b.handle.View(), stepsize);
    CopyAllCopiesAll(src, b.handle.View(), stepsize);
    steps := 0;
    while it.b != null
      invariant it.b == null || it.b == b
      invariant Consistent(src, b.handle.View())
      invariant if it.b != null
                then whole == (var (end, k) := CopyAll(src, b.handle.View(), stepsize); (end, steps + k))
                else whole == (b.handle.View(), steps)
      decreases |src| - b.handle.next, it.b != null
    {
      StepMovesIff(src, b.handle.View(), stepsize);
      var _ := it.Increment(None);
      steps := steps + 1;
    }
  }
}
