/** `HashMaps`: the `put` loops of the Java entity model.  A loop walks a
    list (or the key set of a map, in the map's iteration order) and for
    each item either throws, skips the item, or `put`s one entry; a later
    `put` of a key replaces the earlier value.
 */
module HashMaps {
  import opened Wrappers
  import Seqs

  /** The iteration order of a `HashMap` key set or a `HashSet`: every key
      exactly once, in some order the program does not choose. */
  ghost predicate Enumerates<K(!new)>(order: seq<K>, keys: set<K>) {
    Seqs.NoDuplicates(order) && (forall k :: k in order <==> k in keys)
  }

  /** An enumeration is as long as the set it enumerates. */
  lemma {:induction false} EnumeratesCard<K(!new)>(order: seq<K>, keys: set<K>)
    requires Enumerates(order, keys)
    ensures |order| == |keys|
    decreases |order|
  {
    if |order| > 0 {
      var n := |order| - 1;
      var init := order[..n];
      assert order[n] !in init by {
        forall j | 0 <= j < n ensures init[j] != order[n] {
          assert init[j] == order[j];
        }
      }
      forall k | k in init ensures k in keys - {order[n]} {
        var j :| 0 <= j < n && init[j] == k;
        assert order[j] == k;
      }
      forall k | k in keys - {order[n]} ensures k in init {
        var j :| 0 <= j < |order| && order[j] == k;
        assert j < n && init[j] == k;
      }
      EnumeratesCard(init, keys - {order[n]});
    }
  }

  /** One loop turn: a thrown exception ends the loop, `None` skips the item,
      `Some((k, v))` is `put(k, v)`. */
  function PutEntry<V>(m: map<string, V>, entry: Result<Option<(string, V)>>): Result<map<string, V>> {
    if entry.Err? then Err(entry.error)
    else if entry.value.None? then Ok(m)
    else Ok(m[entry.value.value.0 := entry.value.value.1])
  }

  /** The map the loop over `items` builds, starting from an empty map. */
  function PutEach<T, V>(items: seq<T>, entry: T -> Result<Option<(string, V)>>): Result<map<string, V>>
    decreases |items|
  {
    if |items| == 0 then Ok(map[])
    else
      var m :- PutEach(items[..|items| - 1], entry);
      PutEntry(m, entry(items[|items| - 1]))
  }

  /** The entry puts key `k`. */
  predicate Puts<V>(entry: Result<Option<(string, V)>>, k: string) {
    entry.Ok? && entry.value.Some? && entry.value.value.0 == k
  }

  /** One more loop turn. */
  lemma PutEachStep<T, V>(items: seq<T>, i: nat, entry: T -> Result<Option<(string, V)>>)
    requires i < |items| && PutEach(items[..i], entry).Ok?
    ensures PutEach(items[..i + 1], entry) == PutEntry(PutEach(items[..i], entry).value, entry(items[i]))
  {
    assert items[..i + 1][..i] == items[..i];
  }

  /** Once the loop has thrown, the later items change nothing. */
  lemma {:induction false} PutEachPrefixErr<T, V>(items: seq<T>, n: nat, entry: T -> Result<Option<(string, V)>>)
    requires n <= |items| && PutEach(items[..n], entry).Err?
    ensures PutEach(items, entry) == PutEach(items[..n], entry)
    decreases |items|
  {
    if n < |items| {
      var front := items[..|items| - 1];
      assert front[..n] == items[..n];
      PutEachPrefixErr(front, n, entry);
    } else {
      assert items[..n] == items;
    }
  }

  /** The loop completes iff no item throws. */
  lemma {:induction false} PutEachOk<T, V>(items: seq<T>, entry: T -> Result<Option<(string, V)>>)
    ensures PutEach(items, entry).Ok? <==> forall i :: 0 <= i < |items| ==> entry(items[i]).Ok?
    decreases |items|
  {
    if |items| > 0 {
      var n := |items| - 1;
      var front := items[..n];
      PutEachOk(front, entry);
      assert forall i :: 0 <= i < n ==> front[i] == items[i];
    }
  }

  /** Every key the loop ends with was put by some item, and every key put
      is there. */
  lemma {:induction false} PutEachKeys<T, V>(items: seq<T>, entry: T -> Result<Option<(string, V)>>)
    requires PutEach(items, entry).Ok?
    ensures forall k :: k in PutEach(items, entry).value <==> exists i :: 0 <= i < |items| && Puts(entry(items[i]), k)
    decreases |items|
  {
    if |items| > 0 {
      var n := |items| - 1;
      var front := items[..n];
      PutEachKeys(front, entry);
      assert forall i :: 0 <= i < n ==> front[i] == items[i];
    }
  }

  /** A key holds the value of its last put. */
  lemma {:induction false} PutEachLast<T, V>(items: seq<T>, entry: T -> Result<Option<(string, V)>>)
    requires PutEach(items, entry).Ok?
    ensures forall i :: 0 <= i < |items| && entry(items[i]).Ok? && entry(items[i]).value.Some?
                        && (forall j :: i < j < |items| ==> !Puts(entry(items[j]), entry(items[i]).value.value.0))
                        ==> entry(items[i]).value.value.0 in PutEach(items, entry).value
                            && PutEach(items, entry).value[entry(items[i]).value.value.0] == entry(items[i]).value.value.1
    decreases |items|
  {
    if |items| > 0 {
      var n := |items| - 1;
      var front := items[..n];
      PutEachOk(items, entry);
      PutEachLast(front, entry);
      assert forall i :: 0 <= i < n ==> front[i] == items[i];
    }
  }

  /** The loop throws the exception of the first item that throws. */
  lemma {:induction false} PutEachErr<T, V>(items: seq<T>, entry: T -> Result<Option<(string, V)>>)
    requires PutEach(items, entry).Err?
    ensures exists i :: 0 <= i < |items| && entry(items[i]) == Err(PutEach(items, entry).error)
                        && forall j :: 0 <= j < i ==> entry(items[j]).Ok?
    decreases |items|
  {
    var n := |items| - 1;
    var front := items[..n];
    assert forall i :: 0 <= i < n ==> front[i] == items[i];
    if PutEach(front, entry).Err? {
      PutEachErr(front, entry);
    } else {
      PutEachOk(front, entry);
    }
  }

  /** A loop over distinct keys in which each key's turn puts that key or
      skips it: the result holds exactly the keys put, each with its own
      value, whatever the order. */
  lemma PutEachByKey<V>(order: seq<string>, entry: string -> Result<Option<(string, V)>>)
    requires Seqs.NoDuplicates(order)
    requires forall k :: k in order && entry(k).Ok? && entry(k).value.Some? ==> entry(k).value.value.0 == k
    requires PutEach(order, entry).Ok?
    ensures forall k :: k in order ==> entry(k).Ok?
    ensures forall k :: k in PutEach(order, entry).value <==> k in order && entry(k).value.Some?
    ensures forall k :: k in PutEach(order, entry).value ==> PutEach(order, entry).value[k] == entry(k).value.value.1
  {
    PutEachOk(order, entry);
    PutEachKeys(order, entry);
    PutEachLast(order, entry);
    var m := PutEach(order, entry).value;
    forall k | k in m ensures k in order && entry(k).value.Some? && m[k] == entry(k).value.value.1 {
      var i :| 0 <= i < |order| && Puts(entry(order[i]), k);
      assert order[i] == k;
      forall j | i < j < |order| ensures !Puts(entry(order[j]), k) {
        assert order[j] != order[i];
      }
    }
    forall k | k in order && entry(k).value.Some? ensures k in m {
      var i :| 0 <= i < |order| && order[i] == k;
      assert Puts(entry(order[i]), k);
    }
  }

  /** Every value the loop ends with was put under its key by some item. */
  lemma {:induction false} PutEachValueFrom<T, V>(items: seq<T>, entry: T -> Result<Option<(string, V)>>)
    requires PutEach(items, entry).Ok?
    ensures forall k :: k in PutEach(items, entry).value ==>
              exists i :: 0 <= i < |items| && Puts(entry(items[i]), k)
                          && PutEach(items, entry).value[k] == entry(items[i]).value.value.1
    decreases |items|
  {
    if |items| > 0 {
      var n := |items| - 1;
      var front := items[..n];
      PutEachValueFrom(front, entry);
      var m := PutEach(items, entry).value;
      forall k | k in m
        ensures exists i :: 0 <= i < |items| && Puts(entry(items[i]), k) && m[k] == entry(items[i]).value.value.1
      {
        if !Puts(entry(items[n]), k) {
          var i :| 0 <= i < |front| && Puts(entry(front[i]), k)
                   && PutEach(front, entry).value[k] == entry(front[i]).value.value.1;
          assert front[i] == items[i];
        }
      }
    }
  }

  /** The loop completes iff every item satisfies `accepted`, when that is
      exactly the condition for an item not to throw. */
  lemma PutEachAccepts<T, V>(items: seq<T>, entry: T -> Result<Option<(string, V)>>, accepted: T -> bool)
    requires forall x :: x in items ==> (entry(x).Ok? <==> accepted(x))
    ensures PutEach(items, entry).Ok? <==> forall x :: x in items ==> accepted(x)
  {
    PutEachOk(items, entry);
    if !PutEach(items, entry).Ok? {
      var i :| 0 <= i < |items| && entry(items[i]).Err?;
      assert items[i] in items;
    }
  }

  /** Whatever every put satisfies holds of each final entry and the item
      that put it. */
  lemma PutEachWitness<T, V>(items: seq<T>, entry: T -> Result<Option<(string, V)>>, put: (T, string, V) -> bool)
    requires PutEach(items, entry).Ok?
    requires forall x :: x in items && entry(x).Ok? && entry(x).value.Some? ==>
               put(x, entry(x).value.value.0, entry(x).value.value.1)
    ensures forall k :: k in PutEach(items, entry).value ==>
              exists x :: x in items && put(x, k, PutEach(items, entry).value[k])
  {
    PutEachValueFrom(items, entry);
    forall k | k in PutEach(items, entry).value
      ensures exists x :: x in items && put(x, k, PutEach(items, entry).value[k])
    {
      var i :| 0 <= i < |items| && Puts(entry(items[i]), k)
               && PutEach(items, entry).value[k] == entry(items[i]).value.value.1;
      assert items[i] in items;
    }
  }

  /** Every key some item puts is in the final map. */
  lemma PutEachCovers<T, V>(items: seq<T>, entry: T -> Result<Option<(string, V)>>, puts: (T, string) -> bool)
    requires PutEach(items, entry).Ok?
    requires forall x, k :: x in items && puts(x, k) && entry(x).Ok? ==> Puts(entry(x), k)
    ensures forall x, k :: x in items && puts(x, k) ==> k in PutEach(items, entry).value
  {
    PutEachOk(items, entry);
    PutEachKeys(items, entry);
    forall x, k | x in items && puts(x, k) ensures k in PutEach(items, entry).value {
      var i :| 0 <= i < |items| && items[i] == x;
    }
  }

  /** Two loops whose turns agree on every item build the same map. */
  lemma {:induction false} PutEachSame<T, V>(items: seq<T>, entry: T -> Result<Option<(string, V)>>,
                                             other: T -> Result<Option<(string, V)>>)
    requires forall x :: x in items ==> entry(x) == other(x)
    ensures PutEach(items, entry) == PutEach(items, other)
    decreases |items|
  {
    if |items| > 0 {
      var front := items[..|items| - 1];
      assert forall x :: x in front ==> x in items;
      PutEachSame(front, entry, other);
      assert items[|items| - 1] in items;
    }
  }

  /** The loop itself: `put` after `put` into a new map, ending at the first
      item that throws. */
  method PutLoop<T, V>(items: seq<T>, entry: T -> Result<Option<(string, V)>>) returns (r: Result<map<string, V>>)
    ensures r == PutEach(items, entry)
  {
    var m: map<string, V> := map[];
    for i := 0 to |items|
      invariant PutEach(items[..i], entry) == Ok(m)
    {
      PutEachStep(items, i, entry);
      var e := entry(items[i]);
      if e.Err? {
        PutEachPrefixErr(items, i + 1, entry);
        return Err(e.error);
      }
      if e.value.Some? {
        m := m[e.value.value.0 := e.value.value.1];
      }
    }
    assert items[..|items|] == items;
    r := Ok(m);
  }

  /** A loop over an enumeration of `keys` in which every turn puts its own
      key or skips it, and none throws, builds the map of the keys put. */
  lemma PutEachByKeyMap<V>(order: seq<string>, keys: set<string>, entry: string -> Result<Option<(string, V)>>)
    requires Enumerates(order, keys)
    requires forall k :: k in keys ==> entry(k).Ok? && (entry(k).value.Some? ==> entry(k).value.value.0 == k)
    ensures PutEach(order, entry) == Ok(map k | k in keys && entry(k).value.Some? :: entry(k).value.value.1)
  {
    PutEachOk(order, entry);
    PutEachByKey(order, entry);
    var m := PutEach(order, entry).value;
    var expected := map k | k in keys && entry(k).value.Some? :: entry(k).value.value.1;
    assert m.Keys == expected.Keys;
    assert forall k :: k in m ==> m[k] == expected[k];
    assert m == expected;
  }
}
