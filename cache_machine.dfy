/**
 * The CacheMachine trait: a model class that uses it installs, per cache key,
 * a pair of "forget" handlers before every save or delete and a pair of
 * "rememberForever" handlers after it, and reads through the cache with
 * `withdraw` / `forceFetch`.
 *
 * The first half of the module is the specification: handler lists as values,
 * what running them does to the cache store, and lemmas about it. The second
 * half is the class `CachedModel`, whose methods change the store, the table
 * and the handler lists in place and are proved against that specification.
 */
module CacheMachine {
  import opened Wrappers

  type Key = string

  /** The closure bound to a key: it reads the table and yields a value, or null. */
  type Producer<!Row, V> = seq<Row> -> Option<V>

  /** A PHP associative array from keys to callables, in iteration order. */
  type Items<!Row, V> = seq<(Key, Producer<Row, V>)>

  /** A closure the trait appends to one of the model's event lists. */
  datatype Handler<!Row, V> =
    | Invalidate(key: Key)                                  // the closure that forgets `key`
    | Regenerate(key: Key, producer: Producer<Row, V>)      // the closure that remembers `key` forever from `producer`

  /** A call made on the Cache facade. */
  datatype Call = Get(key: Key) | Forget(key: Key) | RememberForever(key: Key)

  // ---------------------------------------------------------------------------
  // Keys and lookup in an array from keys to callables

  /** The keys an array binds. */
  function KeySet<Row, V>(items: Items<Row, V>): (ks: set<Key>)
    ensures forall i :: 0 <= i < |items| ==> items[i].0 in ks
    ensures forall k :: k in ks ==> exists i :: 0 <= i < |items| && items[i].0 == k
  {
    if items == [] then {} else {items[0].0} + KeySet(items[1..])
  }

  /** A PHP array never holds the same key twice. */
  ghost predicate DistinctKeys<Row, V>(items: Items<Row, V>)
  {
    forall i, j :: 0 <= i < j < |items| ==> items[i].0 != items[j].0
  }

  /** The producer an array binds to `key`, or null when the key is not in the array. */
  function Lookup<Row, V>(items: Items<Row, V>, key: Key): (r: Option<Producer<Row, V>>)
    ensures r.Some? <==> key in KeySet(items)
    ensures r.Some? ==> exists i :: 0 <= i < |items| && items[i].0 == key && items[i].1 == r.value
  {
    if items == [] then None
    else if items[0].0 == key then Some(items[0].1)
    else Lookup(items[1..], key)
  }

  // ---------------------------------------------------------------------------
  // The handler lists that registration produces

  /** The handlers `modelSavingOrDeleting` appends to `saving` (and `deleting`), one per item. */
  function Befores<Row, V>(items: Items<Row, V>): seq<Handler<Row, V>>
  {
    if items == [] then [] else [Invalidate(items[0].0)] + Befores(items[1..])
  }

  /** The handlers `modelSavedOrDeleted` appends to `saved` (and `deleted`), one per item. */
  function Afters<Row, V>(items: Items<Row, V>): seq<Handler<Row, V>>
  {
    if items == [] then [] else [Regenerate(items[0].0, items[0].1)] + Afters(items[1..])
  }

  /** Registering n items yields exactly n handlers per list, in the items' order. */
  lemma {:induction false} HandlersShape<Row, V>(items: Items<Row, V>)
    ensures |Befores(items)| == |items| && |Afters(items)| == |items|
    ensures forall i :: 0 <= i < |items| ==> Befores(items)[i] == Invalidate(items[i].0)
    ensures forall i :: 0 <= i < |items| ==> Afters(items)[i] == Regenerate(items[i].0, items[i].1)
  {
    if items != [] {
      HandlersShape(items[1..]);
      forall i | 0 < i < |items| ensures items[1..][i - 1] == items[i] { }
    }
  }

  /** Registering `a` and then `b` appends both, with no deduplication. */
  lemma {:induction false} HandlersAppend<Row, V>(a: Items<Row, V>, b: Items<Row, V>)
    ensures Befores(a + b) == Befores(a) + Befores(b)
    ensures Afters(a + b) == Afters(a) + Afters(b)
  {
    if a != [] {
      assert (a + b)[1..] == a[1..] + b;
      HandlersAppend(a[1..], b);
    } else {
      assert a + b == b;
    }
  }

  // ---------------------------------------------------------------------------
  // The cache store and what running handlers does to it

  /** What reading `key` from the cache gives: the entry, or null. */
  function Cached<V>(store: map<Key, V>, key: Key): Option<V>
  {
    if key in store then Some(store[key]) else None
  }

  /** The store after `value` is stored forever under `key`; a null value leaves the slot empty. */
  function Put<V>(store: map<Key, V>, key: Key, value: Option<V>): map<Key, V>
  {
    if value.Some? then store[key := value.value] else store
  }

  /** The store after one handler runs, with the table in state `rows`. */
  function Apply<Row, V>(store: map<Key, V>, rows: seq<Row>, h: Handler<Row, V>): map<Key, V>
  {
    match h
    case Invalidate(k) => store - {k}
    case Regenerate(k, p) => if k in store then store else Put(store, k, p(rows))
  }

  /** The store after a list of handlers runs in order. */
  function RunStore<Row, V>(store: map<Key, V>, rows: seq<Row>, hs: seq<Handler<Row, V>>): map<Key, V>
    decreases |hs|
  {
    if hs == [] then store else RunStore(Apply(store, rows, hs[0]), rows, hs[1..])
  }

  /** The facade call one handler makes. */
  function CallOf<Row, V>(h: Handler<Row, V>): Call
  {
    match h
    case Invalidate(k) => Forget(k)
    case Regenerate(k, _) => RememberForever(k)
  }

  /** The facade calls a list of handlers makes, in order. */
  function CallsOf<Row, V>(hs: seq<Handler<Row, V>>): (cs: seq<Call>)
    ensures |cs| == |hs|
    ensures forall i :: 0 <= i < |hs| ==> cs[i] == CallOf(hs[i])
  {
    if hs == [] then [] else [CallOf(hs[0])] + CallsOf(hs[1..])
  }

  /** The first non-null value the producers bound to `key` yield, in registration order. */
  function FirstValue<Row, V>(items: Items<Row, V>, key: Key, rows: seq<Row>): Option<V>
  {
    if items == [] then None
    else if items[0].0 == key && items[0].1(rows).Some? then items[0].1(rows)
    else FirstValue(items[1..], key, rows)
  }

  /** A key bound by no item has no value. */
  lemma {:induction false} FirstValueUnbound<Row, V>(items: Items<Row, V>, key: Key, rows: seq<Row>)
    requires key !in KeySet(items)
    ensures FirstValue(items, key, rows) == None
  {
    if items != [] {
      FirstValueUnbound(items[1..], key, rows);
    }
  }

  /** With each key bound once, that key's first value is simply its producer's output. */
  lemma {:induction false} FirstValueDistinct<Row, V>(items: Items<Row, V>, i: nat, rows: seq<Row>)
    requires DistinctKeys(items) && i < |items|
    ensures FirstValue(items, items[i].0, rows) == items[i].1(rows)
  {
    if i > 0 {
      assert items[0].0 != items[i].0;
      assert DistinctKeys(items[1..]) by {
        forall a, b | 0 <= a < b < |items[1..]| ensures items[1..][a].0 != items[1..][b].0 {
          assert items[1..][a] == items[a + 1] && items[1..][b] == items[b + 1];
        }
      }
      FirstValueDistinct(items[1..], i - 1, rows);
    } else if items[0].1(rows).None? {
      FirstValueUnbound(items[1..], items[0].0, rows);
    }
  }

  /** The before-hooks only remove entries: exactly the registered keys go. */
  lemma {:induction false} RunBefores<Row, V>(store: map<Key, V>, rows: seq<Row>, items: Items<Row, V>)
    ensures RunStore(store, rows, Befores(items)) == store - KeySet(items)
  {
    if items == [] {
      assert store - {} == store;
    } else {
      var k := items[0].0;
      RunBefores(store - {k}, rows, items[1..]);
      assert (store - {k}) - KeySet(items[1..]) == store - KeySet(items);
    }
  }

  /**
   * The after-hooks never clobber a live entry and only fill registered keys:
   * an entry already present stays, an empty registered slot receives the first
   * non-null value of its producers, every other slot stays empty.
   */
  lemma {:induction false} RunAfters<Row, V>(store: map<Key, V>, rows: seq<Row>, items: Items<Row, V>)
    ensures forall k :: Cached(RunStore(store, rows, Afters(items)), k)
                          == if k in store then Cached(store, k) else FirstValue(items, k, rows)
    decreases |items|
  {
    if items != [] {
      var s1 := Apply(store, rows, Regenerate(items[0].0, items[0].1));
      RunAfters(s1, rows, items[1..]);
    }
  }

  /**
   * A save or delete: the before-hooks run on the old table, then the after-hooks
   * on the new one. Every registered slot then holds the first non-null value its
   * producers give on the new table (empty if all are null); every other slot is
   * as it was.
   */
  lemma MutationRegenerates<Row, V>(store: map<Key, V>, oldRows: seq<Row>, newRows: seq<Row>, items: Items<Row, V>)
    ensures forall k :: k in KeySet(items) ==>
      Cached(RunStore(RunStore(store, oldRows, Befores(items)), newRows, Afters(items)), k) == FirstValue(items, k, newRows)
    ensures forall k :: k !in KeySet(items) ==>
      Cached(RunStore(RunStore(store, oldRows, Befores(items)), newRows, Afters(items)), k) == Cached(store, k)
  {
    var cleared := RunStore(store, oldRows, Befores(items));
    RunBefores(store, oldRows, items);
    assert cleared == store - KeySet(items);
    RunAfters(cleared, newRows, items);
    forall k | k !in KeySet(items)
      ensures Cached(RunStore(cleared, newRows, Afters(items)), k) == Cached(store, k)
    {
      assert (k in cleared) == (k in store);
      FirstValueUnbound(items, k, newRows);
    }
  }

  /** A mutation makes one forget per binding, then one rememberForever per binding, in registration order. */
  lemma MutationCalls<Row, V>(items: Items<Row, V>)
    ensures |CallsOf(Befores(items)) + CallsOf(Afters(items))| == 2 * |items|
    ensures forall i :: 0 <= i < |items| ==> (CallsOf(Befores(items)) + CallsOf(Afters(items)))[i] == Forget(items[i].0)
    ensures forall i :: 0 <= i < |items| ==>
      (CallsOf(Befores(items)) + CallsOf(Afters(items)))[|items| + i] == RememberForever(items[i].0)
  {
    HandlersShape(items);
  }

  // ---------------------------------------------------------------------------
  // A model class that uses the trait

  /**
   * One model class using the trait, together with what its static methods act
   * on: the cache store behind the facade, the model's table, and the model's
   * four event lists.
   */
  class CachedModel<!Row, V> {
    /** The entries of the cache store; an absent key reads as null. */
    var store: map<Key, V>
    /** Every call made on the Cache facade, oldest first. */
    var log: seq<Call>
    /** The model's table, in the order a plain `get()` returns it. */
    var rows: seq<Row>
    /** The model's registry of cache keys and their producers. */
    const registry: Items<Row, V>
    var saving: seq<Handler<Row, V>>
    var deleting: seq<Handler<Row, V>>
    var saved: seq<Handler<Row, V>>
    var deleted: seq<Handler<Row, V>>
    /** Every pair passed to `cacheMachine` so far, in order. */
    ghost var bindings: Items<Row, V>

    /** The event lists hold exactly what registration has put there. */
    ghost predicate Valid()
      reads this
    {
      && DistinctKeys(registry)
      && saving == Befores(bindings) && deleting == Befores(bindings)
      && saved == Afters(bindings) && deleted == Afters(bindings)
    }

    constructor (registry: Items<Row, V>, rows: seq<Row>, store: map<Key, V>)
      requires DistinctKeys(registry)
      ensures Valid() && bindings == []
      ensures this.registry == registry && this.rows == rows && this.store == store && log == []
    {
      this.registry := registry;
      this.rows := rows;
      this.store := store;
      log := [];
      saving, deleting, saved, deleted := [], [], [], [];
      bindings := [];
    }

    // --- the Cache facade, by its visible contract

    method CacheGet(key: Key) returns (v: Option<V>)
      modifies this`log
      ensures v == Cached(store, key)
      ensures log == old(log) + [Get(key)]
    {
      v := if key in store then Some(store[key]) else None;
      log := log + [Get(key)];
    }

    method CacheForget(key: Key)
      modifies this`store, this`log
      ensures store == old(store) - {key}
      ensures log == old(log) + [Forget(key)]
    {
      store := store - {key};
      log := log + [Forget(key)];
    }

    /** A present entry is returned as is; otherwise the producer runs and its value is stored and returned. */
    method CacheRememberForever(key: Key, callback: Producer<Row, V>) returns (v: Option<V>)
      modifies this`store, this`log
      ensures key in old(store) ==> v == Some(old(store)[key]) && store == old(store)
      ensures key !in old(store) ==> v == callback(rows) && store == Put(old(store), key, v)
      ensures log == old(log) + [RememberForever(key)]
    {
      if key in store {
        v := Some(store[key]);
      } else {
        v := callback(rows);
        store := Put(store, key, v);
      }
      log := log + [RememberForever(key)];
    }

    // --- registration

    /** Appends one forget handler per key to `saving` and `deleting`, in the items' order. */
    method CacheMachine(items: Items<Row, V>)
      requires Valid()
      modifies this`saving, this`deleting, this`saved, this`deleted, this`bindings
      ensures Valid() && bindings == old(bindings) + items
      ensures saving == old(saving) + Befores(items) && deleting == old(deleting) + Befores(items)
      ensures saved == old(saved) + Afters(items) && deleted == old(deleted) + Afters(items)
    {
      var i := 0;
      while i < |items|
        invariant 0 <= i <= |items|
        invariant Valid() && bindings == old(bindings) + items[..i]
      {
        GenerateCache(items[i].0, items[i].1);
        assert old(bindings) + items[..i + 1] == old(bindings) + items[..i] + [items[i]];
        i := i + 1;
      }
      assert items[..i] == items;
      HandlersAppend(old(bindings), items);
    }

    /** Binds one key: a forget before every save or delete, a rememberForever after it. */
    method GenerateCache(key: Key, callback: Producer<Row, V>)
      requires Valid()
      modifies this`saving, this`deleting, this`saved, this`deleted, this`bindings
      ensures Valid() && bindings == old(bindings) + [(key, callback)]
    {
      ModelSavingOrDeleting(key);
      ModelSavedOrDeleted(key, callback);
      HandlersAppend(bindings, [(key, callback)]);
      bindings := bindings + [(key, callback)];
    }

    method ModelSavingOrDeleting(key: Key)
      modifies this`saving, this`deleting
      ensures saving == old(saving) + [Invalidate(key)]
      ensures deleting == old(deleting) + [Invalidate(key)]
    {
      saving := saving + [Invalidate(key)];
      deleting := deleting + [Invalidate(key)];
    }

    method ModelSavedOrDeleted(key: Key, callback: Producer<Row, V>)
      modifies this`saved, this`deleted
      ensures saved == old(saved) + [Regenerate(key, callback)]
      ensures deleted == old(deleted) + [Regenerate(key, callback)]
    {
      saved := saved + [Regenerate(key, callback)];
      deleted := deleted + [Regenerate(key, callback)];
    }

    // --- mutations, bracketed by the event lists

    /** Runs a list of handlers in order, as the event dispatcher does. */
    method Fire(hs: seq<Handler<Row, V>>)
      modifies this`store, this`log
      ensures store == RunStore(old(store), rows, hs)
      ensures log == old(log) + CallsOf(hs)
    {
      var i := 0;
      while i < |hs|
        invariant 0 <= i <= |hs|
        invariant RunStore(store, rows, hs[i..]) == RunStore(old(store), rows, hs)
        invariant log == old(log) + CallsOf(hs[..i])
      {
        assert hs[i..][1..] == hs[i + 1..];
        match hs[i] {
          case Invalidate(k) =>
            CacheForget(k);
          case Regenerate(k, p) =>
            var _ := CacheRememberForever(k, p);
        }
        assert CallsOf(hs[..i + 1]) == CallsOf(hs[..i]) + [CallOf(hs[i])];
        i := i + 1;
      }
      assert hs[..i] == hs;
    }

    /**
     * A save (create or update): the `saving` handlers, the change to the table,
     * then the `saved` handlers. Afterwards every registered key holds its
     * producers' value on the new table and no other slot has changed.
     */
    method Save(newRows: seq<Row>)
      requires Valid()
      modifies this`store, this`log, this`rows
      ensures Valid() && rows == newRows
      ensures store == RunStore(RunStore(old(store), old(rows), saving), newRows, saved)
      ensures forall k :: k in KeySet(bindings) ==> Cached(store, k) == FirstValue(bindings, k, newRows)
      ensures forall k :: k !in KeySet(bindings) ==> Cached(store, k) == Cached(old(store), k)
      ensures log == old(log) + CallsOf(Befores(bindings)) + CallsOf(Afters(bindings))
    {
      Fire(saving);
      rows := newRows;
      Fire(saved);
      MutationRegenerates(old(store), old(rows), newRows, bindings);
    }

    /** A delete: the `deleting` handlers, the change to the table, then the `deleted` handlers. */
    method Delete(newRows: seq<Row>)
      requires Valid()
      modifies this`store, this`log, this`rows
      ensures Valid() && rows == newRows
      ensures store == RunStore(RunStore(old(store), old(rows), deleting), newRows, deleted)
      ensures forall k :: k in KeySet(bindings) ==> Cached(store, k) == FirstValue(bindings, k, newRows)
      ensures forall k :: k !in KeySet(bindings) ==> Cached(store, k) == Cached(old(store), k)
      ensures log == old(log) + CallsOf(Befores(bindings)) + CallsOf(Afters(bindings))
    {
      Fire(deleting);
      rows := newRows;
      Fire(deleted);
      MutationRegenerates(old(store), old(rows), newRows, bindings);
    }

    // --- the read path

    /**
     * The cached entry, or else `forceFetch`. A hit changes nothing; a miss on a
     * registered key stores and returns the producer's value; a miss on any
     * other key returns null and writes nothing.
     */
    method Withdraw(key: Key) returns (r: Option<V>)
      requires Valid()
      modifies this`store, this`log
      ensures Valid()
      ensures key in old(store) ==> r == Some(old(store)[key]) && store == old(store) && log == old(log) + [Get(key)]
      ensures key !in old(store) && key in KeySet(registry) ==>
        && r == Lookup(registry, key).value(rows)
        && store == Put(old(store), key, r)
        && log == old(log) + [Get(key), Get(key), RememberForever(key)]
      ensures key !in old(store) && key !in KeySet(registry) ==>
        r == None && store == old(store) && log == old(log) + [Get(key)]
      ensures r.None? <==> key !in old(store) && (key !in KeySet(registry) || Lookup(registry, key).value(rows).None?)
      ensures r.Some? ==> Cached(store, key) == r
      ensures forall k :: k != key ==> Cached(store, k) == Cached(old(store), k)
    {
      r := CacheGet(key);
      if r.None? {
        r := ForceFetch(key);
      }
    }

    /**
     * Fills the slot of a registered key when it is empty. It returns null for an
     * unregistered key and also for a registered key whose entry is present:
     * a live entry is never overwritten.
     */
    method ForceFetch(key: Key) returns (r: Option<V>)
      requires Valid()
      modifies this`store, this`log
      ensures Valid()
      ensures key !in KeySet(registry) ==> r == None && store == old(store) && log == old(log)
      ensures key in KeySet(registry) && key in old(store) ==>
        r == None && store == old(store) && log == old(log) + [Get(key)]
      ensures key in KeySet(registry) && key !in old(store) ==>
        && r == Lookup(registry, key).value(rows)
        && store == Put(old(store), key, r)
        && log == old(log) + [Get(key), RememberForever(key)]
      ensures r.Some? ==> Cached(store, key) == r
    {
      var callback := Lookup(registry, key);
      if callback.Some? {
        r := ForceSave(key, callback.value);
      } else {
        r := None;
      }
    }

    /**
     * On an empty slot, stores `callback`'s value and returns a second, direct
     * call of the registry's producer for `key`; on a present entry it returns null.
     */
    method ForceSave(key: Key, callback: Producer<Row, V>) returns (r: Option<V>)
      requires key in KeySet(registry)
      modifies this`store, this`log
      ensures key in old(store) ==> r == None && store == old(store) && log == old(log) + [Get(key)]
      ensures key !in old(store) ==>
        && store == Put(old(store), key, callback(rows))
        && r == Lookup(registry, key).value(rows)
        && log == old(log) + [Get(key), RememberForever(key)]
    {
      var current := CacheGet(key);
      if current.None? {
        var _ := CacheRememberForever(key, callback);
        r := Lookup(registry, key).value(rows);
      } else {
        r := None;
      }
    }
  }
}
