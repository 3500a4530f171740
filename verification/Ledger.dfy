/**
 * The C++ heap as a ledger: every object ever allocated, which ones are live,
 * and how often each address was deleted. Addresses are never reused, so an
 * address names one object for good. Deleting is total: a double delete or a
 * delete of a foreign pointer is recorded, not excluded.
 */
module Ledgers {

  type Addr = nat

  datatype Ledger<+O> = Ledger(objects: seq<O>, live: set<Addr>, deletions: multiset<Addr>)

  function Empty<O>(): Ledger<O> { Ledger([], {}, multiset{}) }

  function New<O>(l: Ledger<O>, o: O): Ledger<O> {
    l.(objects := l.objects + [o], live := l.live + {|l.objects|})
  }

  function Delete<O>(l: Ledger<O>, a: Addr): Ledger<O> {
    l.(live := l.live - {a}, deletions := l.deletions + multiset{a})
  }

  function DeleteAll<O>(l: Ledger<O>, s: set<Addr>): Ledger<O> {
    l.(live := l.live - s, deletions := l.deletions + multiset(s))
  }

  /** Every allocated object is either live and never deleted, or dead and deleted exactly once. */
  ghost predicate Exact<O>(l: Ledger<O>) {
    && (forall a :: a in l.live ==> a < |l.objects|)
    && (forall a: Addr :: l.deletions[a] == if a < |l.objects| && a !in l.live then 1 else 0)
  }

  /** Deleting a live object keeps the ledger exact. */
  lemma DeleteKeepsExact<O>(l: Ledger<O>, a: Addr)
    requires Exact(l) && a in l.live
    ensures Exact(Delete(l, a))
  {
  }
}
