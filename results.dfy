/** `Results`: Kotlin's `map` over a list when the mapping function may
    throw.  The elements are mapped left to right and the first exception
    ends the whole map.
 */
module Results {
  import opened Wrappers

  function MapOrFail<T, U>(items: seq<T>, f: T -> Result<U>): (r: Result<seq<U>>)
    ensures r.Ok? ==> |r.value| == |items|
  {
    if |items| == 0 then Ok([])
    else
      var head :- f(items[0]);
      var rest :- MapOrFail(items[1..], f);
      Ok([head] + rest)
  }

  /** The map succeeds iff every item maps, and then maps each item in place. */
  lemma {:induction false} MapOrFailOk<T, U>(items: seq<T>, f: T -> Result<U>)
    ensures MapOrFail(items, f).Ok? <==> forall i :: 0 <= i < |items| ==> f(items[i]).Ok?
    ensures MapOrFail(items, f).Ok? ==>
              forall i :: 0 <= i < |items| ==> MapOrFail(items, f).value[i] == f(items[i]).value
  {
    if |items| > 0 {
      MapOrFailOk(items[1..], f);
      if MapOrFail(items, f).Ok? {
        var r := MapOrFail(items, f).value;
        assert forall i :: 1 <= i < |items| ==> items[i] == items[1..][i - 1] && r[i] == r[1..][i - 1];
      } else if f(items[0]).Ok? {
        var j :| 0 <= j < |items[1..]| && f(items[1..][j]).Err?;
        assert f(items[j + 1]).Err?;
      }
    }
  }

  /** A failing map reports the failure of the first item that failed. */
  lemma {:induction false} MapOrFailErr<T, U>(items: seq<T>, f: T -> Result<U>)
    requires MapOrFail(items, f).Err?
    ensures exists i :: 0 <= i < |items| && f(items[i]) == Err(MapOrFail(items, f).error)
              && forall j :: 0 <= j < i ==> f(items[j]).Ok?
  {
    if f(items[0]).Ok? {
      MapOrFailErr(items[1..], f);
      var i :| 0 <= i < |items[1..]| && f(items[1..][i]) == Err(MapOrFail(items[1..], f).error)
              && forall j :: 0 <= j < i ==> f(items[1..][j]).Ok?;
      assert f(items[i + 1]) == Err(MapOrFail(items, f).error);
      assert forall j :: 0 <= j < i + 1 ==> f(items[j]).Ok? by {
        forall j | 0 <= j < i + 1 ensures f(items[j]).Ok? {
          if j > 0 { assert items[j] == items[1..][j - 1]; }
        }
      }
    } else {
      assert f(items[0]) == Err(MapOrFail(items, f).error);
    }
  }

  /** Extending a successful map by one item. */
  lemma {:induction false} MapOrFailSnoc<T, U>(items: seq<T>, x: T, f: T -> Result<U>)
    requires MapOrFail(items, f).Ok?
    ensures MapOrFail(items + [x], f)
         == if f(x).Err? then Err(f(x).error) else Ok(MapOrFail(items, f).value + [f(x).value])
  {
    var t := items + [x];
    if |items| == 0 {
      assert t == [x];
      assert t[1..] == [];
      assert MapOrFail(t[1..], f) == Ok([]);
      assert MapOrFail(items, f).value == [];
      if f(x).Ok? {
        assert MapOrFail(t, f) == Ok([f(x).value] + []);
        assert [f(x).value] + [] == [] + [f(x).value];
      }
    } else {
      MapOrFailSnoc(items[1..], x, f);
      assert t[0] == items[0] && t[1..] == items[1..] + [x];
      if f(x).Ok? {
        var h := f(items[0]).value;
        var rest := MapOrFail(items[1..], f).value;
        assert MapOrFail(t, f) == Ok([h] + (rest + [f(x).value]));
        assert [h] + (rest + [f(x).value]) == ([h] + rest) + [f(x).value];
      }
    }
  }

  /** Extending a successful prefix of `items` by its next item. */
  lemma MapOrFailStep<T, U>(items: seq<T>, i: nat, f: T -> Result<U>)
    requires i < |items| && MapOrFail(items[..i], f).Ok?
    ensures MapOrFail(items[..i + 1], f)
         == if f(items[i]).Err? then Err(f(items[i]).error) else Ok(MapOrFail(items[..i], f).value + [f(items[i]).value])
  {
    assert items[..i + 1] == items[..i] + [items[i]];
    MapOrFailSnoc(items[..i], items[i], f);
  }

  /** Once a prefix fails, the whole map fails the same way. */
  lemma {:induction false} MapOrFailPrefixErr<T, U>(items: seq<T>, n: nat, f: T -> Result<U>)
    requires n <= |items| && MapOrFail(items[..n], f).Err?
    ensures MapOrFail(items, f) == MapOrFail(items[..n], f)
  {
    if n > 0 && |items| > 0 {
      assert items[..n][0] == items[0];
      assert items[..n][1..] == items[1..][..n - 1];
      if f(items[0]).Ok? {
        MapOrFailPrefixErr(items[1..], n - 1, f);
      }
    }
  }

  /** The map of a concatenation. */
  lemma {:induction false} MapOrFailAppend<T, U>(a: seq<T>, b: seq<T>, f: T -> Result<U>)
    requires MapOrFail(a, f).Ok? && MapOrFail(b, f).Ok?
    ensures MapOrFail(a + b, f) == Ok(MapOrFail(a, f).value + MapOrFail(b, f).value)
  {
    if |a| == 0 {
      assert a + b == b;
      assert MapOrFail(a, f).value == [];
      assert [] + MapOrFail(b, f).value == MapOrFail(b, f).value;
    } else {
      assert (a + b)[0] == a[0] && (a + b)[1..] == a[1..] + b;
      MapOrFailAppend(a[1..], b, f);
      var h := f(a[0]).value;
      assert [h] + (MapOrFail(a[1..], f).value + MapOrFail(b, f).value)
          == ([h] + MapOrFail(a[1..], f).value) + MapOrFail(b, f).value;
    }
  }

  /** The map succeeds iff every item satisfies `accepted`, when that is
      exactly the condition for an item to map. */
  lemma MapOrFailAccepts<T, U>(items: seq<T>, f: T -> Result<U>, accepted: T -> bool)
    requires forall x :: x in items ==> (f(x).Ok? <==> accepted(x))
    ensures MapOrFail(items, f).Ok? <==> forall x :: x in items ==> accepted(x)
  {
    MapOrFailOk(items, f);
    if !MapOrFail(items, f).Ok? {
      var i :| 0 <= i < |items| && f(items[i]).Err?;
      assert items[i] in items;
    }
  }

  /** The loop itself: each item's result appended in turn, ending at the
      first item that fails. */
  method MapLoop<T, U>(items: seq<T>, f: T -> Result<U>) returns (r: Result<seq<U>>)
    ensures r == MapOrFail(items, f)
  {
    var done: seq<U> := [];
    for i := 0 to |items|
      invariant MapOrFail(items[..i], f) == Ok(done)
    {
      MapOrFailStep(items, i, f);
      var x := f(items[i]);
      if x.Err? {
        MapOrFailPrefixErr(items, i + 1, f);
        return Err(x.error);
      }
      done := done + [x.value];
    }
    assert items[..|items|] == items;
    r := Ok(done);
  }
}
