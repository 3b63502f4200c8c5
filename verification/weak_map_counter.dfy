/** Per-instance counters kept out of the instances, in one shared side
    table keyed by instance identity (a JavaScript `WeakMap`). */
module WeakMapCounter {

  /** `table.set(k, v)`: the entry of `k` becomes `v`, every other entry stays. */
  function SetEntry(m: map<CounterModule, int>, k: CounterModule, v: int): (m': map<CounterModule, int>)
    ensures m'.Keys == m.Keys + {k}
    ensures m'[k] == v
    ensures forall o :: o in m && o != k ==> m'[o] == m[o]
  {
    m[k := v]
  }

  /** Every counter in the table is non-negative. */
  ghost predicate AllNonNegative(m: map<CounterModule, int>)
  {
    forall o :: o in m ==> m[o] >= 0
  }

  /** Setting an entry to a non-negative value keeps the table non-negative. */
  lemma SetEntryKeepsNonNegative(m: map<CounterModule, int>, k: CounterModule, v: int)
    requires AllNonNegative(m) && v >= 0
    ensures AllNonNegative(SetEntry(m, k, v))
  {
  }

  /** Setting the same entry twice keeps only the second value; so
      resetting twice is resetting once. */
  lemma SetEntryTwice(m: map<CounterModule, int>, k: CounterModule, v: int, w: int)
    ensures SetEntry(SetEntry(m, k, v), k, w) == SetEntry(m, k, w)
  {
  }

  /** The shared side table (the module-level `_counter`). */
  class CounterTable {
    var entries: map<CounterModule, int>

    ghost predicate Valid()
      reads this
    {
      AllNonNegative(entries)
    }

    constructor ()
      ensures Valid() && entries == map[]
    {
      entries := map[];
    }
  }

  /** An instance whose counter lives in `table`, not in a field of its own. */
  class CounterModule {
    const table: CounterTable

    /** `constructor`: registers the new instance with counter 0; every
        entry already in the table stays as it was. */
    constructor (table: CounterTable)
      requires table.Valid()
      modifies table
      ensures this.table == table && table.Valid()
      ensures table.entries == SetEntry(old(table.entries), this, 0)
    {
      this.table := table;
      new;
      SetEntryKeepsNonNegative(table.entries, this, 0);
      table.entries := SetEntry(table.entries, this, 0);
    }

    /** `increment`: reads this instance's entry and writes it back plus one;
        only this instance's entry changes. */
    method Increment()
      requires table.Valid() && this in table.entries
      modifies table
      ensures table.Valid()
      ensures table.entries == SetEntry(old(table.entries), this, old(table.entries[this]) + 1)
    {
      var counter := table.entries[this];
      counter := counter + 1;
      SetEntryKeepsNonNegative(table.entries, this, counter);
      table.entries := SetEntry(table.entries, this, counter);
    }

    /** `reset`: this instance's entry becomes 0; only it changes. */
    method Reset()
      requires table.Valid()
      modifies table
      ensures table.Valid()
      ensures table.entries == SetEntry(old(table.entries), this, 0)
    {
      SetEntryKeepsNonNegative(table.entries, this, 0);
      table.entries := SetEntry(table.entries, this, 0);
    }

    /** `getCounter`: this instance's stored value, read without change. */
    function GetCounter(): (value: int)
      reads this, table
      requires table.Valid() && this in table.entries
      ensures value == table.entries[this] && value >= 0
    {
      table.entries[this]
    }
  }

  /** Two counters on one table, incremented `n1` and `n2` times, report
      `n1` and `n2`; resetting the second leaves the first at `n1`. */
  method IndependentCounters(n1: nat, n2: nat) returns (first1: int, second1: int, first2: int, second2: int)
    ensures first1 == n1 && second1 == n2
    ensures first2 == n1 && second2 == 0
  {
    var table := new CounterTable();
    var first := new CounterModule(table);
    var second := new CounterModule(table);
    var i := 0;
    while i < n1
      invariant 0 <= i <= n1
      invariant table.Valid() && first in table.entries && second in table.entries
      invariant table.entries[first] == i && table.entries[second] == 0
    {
      first.Increment();
      i := i + 1;
    }
    i := 0;
    while i < n2
      invariant 0 <= i <= n2
      invariant table.Valid() && first in table.entries && second in table.entries
      invariant table.entries[first] == n1 && table.entries[second] == i
    {
      second.Increment();
      i := i + 1;
    }
    first1, second1 := first.GetCounter(), second.GetCounter();
    second.Reset();
    first2, second2 := first.GetCounter(), second.GetCounter();
  }
}
