/**
 * The numbered-item index: a dictionary whose default factory receives the
 * missing key and does not insert, the index built from named items with a
 * pluggable strategy for duplicate names, and the statistics collector
 * strategy that counts duplicates.
 */
module NumberedIndex {
  import opened Wrappers

  /** `NumberedItemNotFoundError` and `NumberedItemDuplicateError`. */
  datatype IndexError<K, V> = NotFound(key: K) | Duplicated(key: K, prev: V, curr: V)

  /** `Index`: a dictionary with an optional default factory that takes the key. */
  class Index<K(==), V> {
    var items: map<K, V>
    const factory: Option<K -> Option<V>>

    constructor (factory: Option<K -> Option<V>>)
      ensures items == map[] && this.factory == factory
    {
      items := map[];
      this.factory := factory;
    }

    /** `IgnoringIndex`: every missing key gives None. */
    constructor Ignoring()
      ensures items == map[]
      ensures factory.Some? && forall key :: factory.value(key) == None
    {
      items := map[];
      factory := Some((key: K) => None);
    }

    /**
     * `index[key]`: the stored item, or else what the factory gives for the
     * key, or else NotFound. The lookup changes nothing: a missing key is
     * not inserted.
     */
    method Lookup(key: K) returns (r: Result<Option<V>, IndexError<K, V>>)
      ensures key in items ==> r == Ok(Some(items[key]))
      ensures key !in items && factory.Some? ==> r == Ok(factory.value(key))
      ensures r.Err? <==> key !in items && factory.None?
      ensures r.Err? ==> r.error == NotFound(key)
    {
      if key in items {
        return Ok(Some(items[key]));
      }
      if factory.Some? {
        return Ok(factory.value(key));
      }
      return Err(NotFound(key));
    }

    /** `index[key] = item`. */
    method Put(key: K, item: V)
      modifies this
      ensures items == old(items)[key := item]
    {
      items := items[key := item];
    }
  }

  /** On an ignoring index every lookup succeeds, and a missing key gives None. */
  method IgnoringLookup<K(==), V>(index: Index<K, V>, key: K) returns (r: Result<Option<V>, IndexError<K, V>>)
    requires index.factory.Some? && forall k :: index.factory.value(k) == None
    ensures r.Ok?
    ensures key !in index.items ==> r == Ok(None)
    ensures key in index.items ==> r == Ok(Some(index.items[key]))
  {
    r := index.Lookup(key);
  }

  // ---------------------------------------------------------------------
  // Duplicate strategies
  // ---------------------------------------------------------------------

  /** `StatisticsCollector`: how many items carried each duplicated name. */
  class StatisticsCollector<K(==)> {
    var counts: map<K, nat>

    constructor ()
      ensures counts == map[]
    {
      counts := map[];
    }

    /** A duplicate of `key`: its count starts at 1 and goes up by one. */
    method Call(key: K)
      modifies this
      ensures counts == Bumped(old(counts), key)
    {
      var value := if key in counts then counts[key] else 1;
      counts := counts[key := value + 1];
    }
  }

  function Bumped<K(==)>(counts: map<K, nat>, key: K): map<K, nat>
  {
    counts[key := (if key in counts then counts[key] else 1) + 1]
  }

  /** The counts after a sequence of duplicate events. */
  function Collected<K(==)>(counts: map<K, nat>, events: seq<K>): map<K, nat>
  {
    if events == [] then counts
    else Bumped(Collected(counts, events[..|events| - 1]), events[|events| - 1])
  }

  /** From no counts, a key that had k duplicate events has count k + 1; others have none. */
  lemma {:induction false} CollectedCounts<K>(events: seq<K>, key: K)
    ensures key in Collected(map[], events) <==> key in events
    ensures key in events ==> Collected(map[], events)[key] == multiset(events)[key] + 1
  {
    if events != [] {
      var p := events[..|events| - 1];
      var e := events[|events| - 1];
      CollectedCounts(p, key);
      assert events == p + [e];
      assert multiset(events)[key] == multiset(p)[key] + (if e == key then 1 else 0);
      assert key in events <==> key in p || key == e;
    }
  }

  /** The strategy `from_iterable` calls on a duplicate name. */
  datatype OnDuplicate<K(==)> =
    | NoCheck
    | RaiseOnDuplicate
    | IgnoreEqualObjects
    | Collect(collector: StatisticsCollector<K>)

  // ---------------------------------------------------------------------
  // from_iterable
  // ---------------------------------------------------------------------

  /** Each name bound to the last item that carries it. */
  function LastWins<K(==), V>(items: seq<V>, name: V -> K): map<K, V>
  {
    if items == [] then map[]
    else LastWins(items[..|items| - 1], name)[name(items[|items| - 1]) := items[|items| - 1]]
  }

  /** The names bound are the names of the items, each to the last item with that name. */
  lemma {:induction false} LastWinsBinds<K, V>(items: seq<V>, name: V -> K, key: K)
    ensures key in LastWins(items, name) <==> exists j :: 0 <= j < |items| && name(items[j]) == key
    ensures key in LastWins(items, name) ==>
              exists j :: 0 <= j < |items| && name(items[j]) == key && LastWins(items, name)[key] == items[j]
                          && forall l :: j < l < |items| ==> name(items[l]) != key
  {
    if items != [] {
      var p := items[..|items| - 1];
      var n := |items| - 1;
      LastWinsBinds(p, name, key);
      if name(items[n]) == key {
        assert LastWins(items, name)[key] == items[n];
      } else {
        if key in LastWins(p, name) {
          var j :| 0 <= j < |p| && name(p[j]) == key && LastWins(p, name)[key] == p[j]
                   && forall l :: j < l < |p| ==> name(p[l]) != key;
          assert items[j] == p[j];
          assert forall l :: j < l < |items| ==> name(items[l]) != key by {
            forall l | j < l < |items|
              ensures name(items[l]) != key
            {
              if l < n {
                assert items[l] == p[l];
              }
            }
          }
        }
        assert forall j :: 0 <= j < |p| ==> p[j] == items[j];
      }
    }
  }

  /** The names of the items, from the second on, that repeat an earlier name: the calls of `on_duplicate`. */
  function DuplicateNames<K(==), V>(items: seq<V>, name: V -> K): seq<K>
  {
    if items == [] then []
    else
      var p := items[..|items| - 1];
      var key := name(items[|items| - 1]);
      DuplicateNames(p, name) + (if key in LastWins(p, name) then [key] else [])
  }

  /** A name occurs in the duplicate events one time less than it occurs among the items. */
  lemma {:induction false} DuplicateNamesCount<K, V>(items: seq<V>, name: V -> K, key: K)
    ensures multiset(DuplicateNames(items, name))[key] + (if key in LastWins(items, name) then 1 else 0)
            == NameCount(items, name, key)
  {
    if items != [] {
      var p := items[..|items| - 1];
      DuplicateNamesCount(p, name, key);
      var e := if name(items[|items| - 1]) in LastWins(p, name) then [name(items[|items| - 1])] else [];
      assert multiset(DuplicateNames(items, name)) == multiset(DuplicateNames(p, name)) + multiset(e);
    }
  }

  /** How many items carry `key`. */
  function NameCount<K(==), V>(items: seq<V>, name: V -> K, key: K): nat
  {
    if items == [] then 0
    else NameCount(items[..|items| - 1], name, key) + (if name(items[|items| - 1]) == key then 1 else 0)
  }

  /** With a fresh collector, every repeated name ends up counted once per item that carries it. */
  lemma CollectorCountsItems<K, V>(items: seq<V>, name: V -> K, key: K)
    requires key in DuplicateNames(items, name)
    ensures key in Collected(map[], DuplicateNames(items, name))
    ensures Collected(map[], DuplicateNames(items, name))[key] == NameCount(items, name, key)
  {
    CollectedCounts(DuplicateNames(items, name), key);
    DuplicateNamesCount(items, name, key);
    DuplicateNamesBound(items, name, key);
  }

  /** A name among the duplicate events is bound. */
  lemma {:induction false} DuplicateNamesBound<K, V>(items: seq<V>, name: V -> K, key: K)
    requires key in DuplicateNames(items, name)
    ensures key in LastWins(items, name)
  {
    var p := items[..|items| - 1];
    var last := name(items[|items| - 1]);
    if key in DuplicateNames(p, name) {
      DuplicateNamesBound(p, name, key);
    }
  }

  /** Two items share a name. */
  predicate HasDuplicateName<K(==), V>(items: seq<V>, name: V -> K)
  {
    exists i, j :: 0 <= i < j < |items| && name(items[i]) == name(items[j])
  }

  /** Two items share a name and are not equal. */
  predicate HasConflict<K(==), V(==)>(items: seq<V>, name: V -> K)
  {
    exists i, j :: 0 <= i < j < |items| && name(items[i]) == name(items[j]) && items[i] != items[j]
  }

  /**
   * The strategy was called at item `i` and raised `e`: the name of item `i`
   * was already bound, and `e` carries that name, the bound item and item `i`.
   */
  predicate RaisedAt<K(==), V(==)>(items: seq<V>, name: V -> K, i: int, e: IndexError<K, V>)
  {
    && 0 <= i < |items|
    && name(items[i]) in LastWins(items[..i], name)
    && e == Duplicated(name(items[i]), LastWins(items[..i], name)[name(items[i])], items[i])
  }

  /**
   * `IndexOfNamed.from_iterable`: a new index in which each name is bound to
   * the last item carrying it. On a repeated name the strategy is called
   * with the name, the bound item and the new one: `raise_on_duplicate_strategy`
   * always raises, `ignore_equal_objects_strategy` raises when the two are
   * not equal, and a statistics collector counts.
   */
  method FromIterable<K(==), V(==)>(items: seq<V>, name: V -> K, factory: Option<K -> Option<V>>,
                                     onDuplicate: OnDuplicate<K>)
    returns (r: Result<Index<K, V>, IndexError<K, V>>)
    modifies if onDuplicate.Collect? then {onDuplicate.collector} else {}
    ensures r.Ok? ==> fresh(r.value) && r.value.items == LastWins(items, name) && r.value.factory == factory
    ensures onDuplicate.NoCheck? || onDuplicate.Collect? ==> r.Ok?
    ensures onDuplicate.RaiseOnDuplicate? ==> (r.Err? <==> HasDuplicateName(items, name))
    ensures onDuplicate.IgnoreEqualObjects? ==> (r.Err? <==> HasConflict(items, name))
    ensures r.Err? ==> r.error.Duplicated?
    ensures onDuplicate.RaiseOnDuplicate? && r.Err? ==>
              exists i :: RaisedAt(items, name, i, r.error) && !HasDuplicateName(items[..i], name)
    ensures onDuplicate.IgnoreEqualObjects? && r.Err? ==>
              exists i :: RaisedAt(items, name, i, r.error) && r.error.prev != r.error.curr
                          && !HasConflict(items[..i], name)
    ensures onDuplicate.Collect? ==>
              onDuplicate.collector.counts == Collected(old(onDuplicate.collector.counts), DuplicateNames(items, name))
  {
    var index := new Index(factory);
    ghost var counts0 := if onDuplicate.Collect? then onDuplicate.collector.counts else map[];
    var i := 0;
    while i < |items|
      invariant 0 <= i <= |items|
      invariant fresh(index) && index.factory == factory
      invariant index.items == LastWins(items[..i], name)
      invariant onDuplicate.RaiseOnDuplicate? ==> !HasDuplicateName(items[..i], name)
      invariant onDuplicate.IgnoreEqualObjects? ==> !HasConflict(items[..i], name) && AllBound(items[..i], name)
      invariant onDuplicate.Collect? ==> onDuplicate.collector.counts == Collected(counts0, DuplicateNames(items[..i], name))
    {
      var b := items[i];
      var key := name(b);
      PrefixStep(items, name, i);
      if key in index.items {
        match onDuplicate
        case NoCheck =>
        case RaiseOnDuplicate =>
          RepeatedName(items, name, i);
          assert RaisedAt(items, name, i, Duplicated(key, index.items[key], b));
          return Err(Duplicated(key, index.items[key], b));
        case IgnoreEqualObjects =>
          if index.items[key] != b {
            ConflictFound(items, name, i);
            assert RaisedAt(items, name, i, Duplicated(key, index.items[key], b));
            return Err(Duplicated(key, index.items[key], b));
          }
          NoConflictStep(items, name, i);
        case Collect(c) =>
          c.Call(key);
          CollectedStep(counts0, DuplicateNames(items[..i], name), key);
      }
      else {
        if onDuplicate.RaiseOnDuplicate? {
          NoRepeatedName(items, name, i);
        } else if onDuplicate.IgnoreEqualObjects? {
          NoConflictStep(items, name, i);
        }
      }
      index.Put(key, b);
      i := i + 1;
    }
    assert items[..|items|] == items;
    return Ok(index);
  }

  /** One more item: its name is bound to it, and it is a duplicate event when its name was bound. */
  lemma PrefixStep<K, V>(items: seq<V>, name: V -> K, i: nat)
    requires i < |items|
    ensures LastWins(items[..i + 1], name) == LastWins(items[..i], name)[name(items[i]) := items[i]]
    ensures name(items[i]) in LastWins(items[..i], name) ==>
              DuplicateNames(items[..i + 1], name) == DuplicateNames(items[..i], name) + [name(items[i])]
    ensures name(items[i]) !in LastWins(items[..i], name) ==>
              DuplicateNames(items[..i + 1], name) == DuplicateNames(items[..i], name)
  {
    assert items[..i + 1][..i] == items[..i];
    assert DuplicateNames(items[..i], name) + [] == DuplicateNames(items[..i], name);
  }

  /** One more duplicate event bumps its count. */
  lemma CollectedStep<K>(counts: map<K, nat>, events: seq<K>, key: K)
    ensures Collected(counts, events + [key]) == Bumped(Collected(counts, events), key)
  {
    assert (events + [key])[..|events|] == events;
  }

  /** Every item of the prefix is the one bound to its name. */
  predicate AllBound<K(==), V(==)>(items: seq<V>, name: V -> K)
  {
    forall j :: 0 <= j < |items| ==>
      name(items[j]) in LastWins(items, name) && LastWins(items, name)[name(items[j])] == items[j]
  }

  /** A bound name at step i is a repeated name in the first i + 1 items. */
  lemma RepeatedName<K, V>(items: seq<V>, name: V -> K, i: nat)
    requires i < |items| && name(items[i]) in LastWins(items[..i], name)
    ensures HasDuplicateName(items, name)
  {
    LastWinsBinds(items[..i], name, name(items[i]));
    var j :| 0 <= j < i && name(items[..i][j]) == name(items[i]);
    assert items[..i + 1][j] == items[j] && items[..i + 1][i] == items[i];
  }

  /** A name not yet bound adds no repetition. */
  lemma NoRepeatedName<K, V>(items: seq<V>, name: V -> K, i: nat)
    requires i < |items| && !HasDuplicateName(items[..i], name)
    requires name(items[i]) !in LastWins(items[..i], name)
    ensures !HasDuplicateName(items[..i + 1], name)
  {
    var p := items[..i + 1];
    LastWinsBinds(items[..i], name, name(items[i]));
    forall a, b | 0 <= a < b < |p|
      ensures name(p[a]) != name(p[b])
    {
      assert items[..i][a] == p[a];
      if b < i {
        assert items[..i][b] == p[b];
      }
    }
  }

  /** An unequal item under a bound name is a conflict in the first i + 1 items. */
  lemma ConflictFound<K, V>(items: seq<V>, name: V -> K, i: nat)
    requires i < |items| && name(items[i]) in LastWins(items[..i], name)
    requires LastWins(items[..i], name)[name(items[i])] != items[i]
    ensures HasConflict(items, name)
  {
    LastWinsBinds(items[..i], name, name(items[i]));
    var j :| 0 <= j < i && name(items[..i][j]) == name(items[i])
             && LastWins(items[..i], name)[name(items[i])] == items[..i][j];
    assert items[..i][j] == items[j];
  }

  /** An item equal to the one bound to its name, or under a new name, adds no conflict. */
  lemma NoConflictStep<K, V>(items: seq<V>, name: V -> K, i: nat)
    requires i < |items| && !HasConflict(items[..i], name) && AllBound(items[..i], name)
    requires name(items[i]) in LastWins(items[..i], name) ==> LastWins(items[..i], name)[name(items[i])] == items[i]
    ensures !HasConflict(items[..i + 1], name) && AllBound(items[..i + 1], name)
  {
    var p := items[..i];
    var q := items[..i + 1];
    assert q[..i] == p && q[i] == items[i];
    assert LastWins(q, name) == LastWins(p, name)[name(items[i]) := items[i]];
    forall j | 0 <= j < i
      ensures q[j] == p[j]
    {
    }
    forall j | 0 <= j < |q|
      ensures name(q[j]) in LastWins(q, name) && LastWins(q, name)[name(q[j])] == q[j]
    {
      if j < i && name(q[j]) == name(items[i]) {
        assert LastWins(p, name)[name(p[j])] == p[j];
      }
    }
    forall a, b | 0 <= a < b < |q| && name(q[a]) == name(q[b])
      ensures q[a] == q[b]
    {
      if b == i {
        assert LastWins(p, name)[name(p[a])] == p[a];
      } else {
        assert p[a] == q[a] && p[b] == q[b];
      }
    }
  }
}
