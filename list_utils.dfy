/** `ListUtils`: the Java generation's hand-written `mapItems`, `filter` and
    `firstOrDefault`.  The predicate given to `filter` may itself throw an
    InvalidElementException, which then aborts the whole filter.
 */
module ListUtils {
  import opened Wrappers
  import Seqs

  /** `mapItems`: applies the mapper to every item, keeping length and order. */
  method MapItems<T, E>(items: seq<E>, mapper: E -> T) returns (mappedItems: seq<T>)
    ensures |mappedItems| == |items|
    ensures forall i :: 0 <= i < |items| ==> mappedItems[i] == mapper(items[i])
  {
    mappedItems := [];
    for i := 0 to |items|
      invariant |mappedItems| == i
      invariant forall k :: 0 <= k < i ==> mappedItems[k] == mapper(items[k])
    {
      mappedItems := mappedItems + [mapper(items[i])];
    }
  }

  /** What `filter` computes: the first failure of the predicate, if any,
      otherwise the items it accepted, in order. */
  function FilterOrFail<T>(items: seq<T>, pred: T -> Result<bool>): Result<seq<T>> {
    if |items| == 0 then Ok([])
    else
      var head := pred(items[0]);
      if head.Err? then Err(head.error)
      else
        var rest :- FilterOrFail(items[1..], pred);
        Ok((if head.value then [items[0]] else []) + rest)
  }

  lemma {:induction false} FilterOrFailSnoc<T>(items: seq<T>, x: T, pred: T -> Result<bool>)
    requires FilterOrFail(items, pred).Ok?
    ensures FilterOrFail(items + [x], pred)
         == if pred(x).Err? then Err(pred(x).error)
            else Ok(FilterOrFail(items, pred).value + (if pred(x).value then [x] else []))
  {
    if |items| == 0 {
      assert items + [x] == [x];
      assert [x][1..] == [];
      assert FilterOrFail([x][1..], pred) == Ok([]);
      var last := if pred(x).Ok? && pred(x).value then [x] else [];
      assert last + [] == last;
    } else {
      var head := pred(items[0]);
      assert head.Ok? && FilterOrFail(items[1..], pred).Ok?;
      FilterOrFailSnoc(items[1..], x, pred);
      var t := items + [x];
      assert t[0] == items[0] && t[1..] == items[1..] + [x];
      if pred(x).Ok? {
        var front := if head.value then [items[0]] else [];
        var last := if pred(x).value then [x] else [];
        assert FilterOrFail(t[1..], pred) == Ok(FilterOrFail(items[1..], pred).value + last);
        assert FilterOrFail(t, pred) == Ok(front + FilterOrFail(t[1..], pred).value);
        assert FilterOrFail(items, pred) == Ok(front + FilterOrFail(items[1..], pred).value);
        assert front + (FilterOrFail(items[1..], pred).value + last)
            == (front + FilterOrFail(items[1..], pred).value) + last;
      }
    }
  }

  /** `filter`. */
  method Filter<T>(items: seq<T>, pred: T -> Result<bool>) returns (r: Result<seq<T>>)
    ensures r == FilterOrFail(items, pred)
  {
    var filteredItems := [];
    for i := 0 to |items|
      invariant FilterOrFail(items[..i], pred) == Ok(filteredItems)
    {
      var item := items[i];
      assert items[..i + 1] == items[..i] + [item];
      ghost var before := filteredItems;
      FilterOrFailSnoc(items[..i], item, pred);
      assert FilterOrFail(items[..i], pred).value == before;
      var accepted := pred(item);
      if accepted.Err? {
        assert FilterOrFail(items[..i + 1], pred).Err?;
        FilterOrFailPrefixErr(items, i + 1, pred);
        return Err(accepted.error);
      }
      if accepted.value {
        filteredItems := filteredItems + [item];
      }
      assert accepted.Ok?;
      assert filteredItems == before + (if accepted.value then [item] else []);
      assert FilterOrFail(items[..i] + [item], pred) == Ok(before + (if pred(item).value then [item] else []));
    }
    assert items[..|items|] == items;
    return Ok(filteredItems);
  }

  /** Once a prefix fails, the whole list fails the same way. */
  lemma {:induction false} FilterOrFailPrefixErr<T>(items: seq<T>, n: nat, pred: T -> Result<bool>)
    requires n <= |items| && FilterOrFail(items[..n], pred).Err?
    ensures FilterOrFail(items, pred) == FilterOrFail(items[..n], pred)
  {
    if n > 0 && |items| > 0 {
      assert items[..n][0] == items[0];
      assert items[..n][1..] == items[1..][..n - 1];
      if pred(items[0]).Ok? {
        FilterOrFailPrefixErr(items[1..], n - 1, pred);
      }
    }
  }

  /** The filter succeeds iff the predicate succeeds on every item, and then
      keeps exactly the accepted items, in order. */
  lemma {:induction false} FilterOrFailOk<T>(items: seq<T>, pred: T -> Result<bool>)
    ensures FilterOrFail(items, pred).Ok? <==> forall x :: x in items ==> pred(x).Ok?
    ensures FilterOrFail(items, pred).Ok? ==>
              (forall x :: x in FilterOrFail(items, pred).value <==> x in items && pred(x) == Ok(true))
              && Seqs.IsSubsequence(FilterOrFail(items, pred).value, items)
  {
    if |items| > 0 {
      FilterOrFailOk(items[1..], pred);
      assert items == [items[0]] + items[1..];
      var r := FilterOrFail(items, pred);
      if r.Ok? && pred(items[0]).value {
        assert r.value[0] == items[0] && r.value[1..] == FilterOrFail(items[1..], pred).value;
      } else if r.Ok? {
        assert r.value == FilterOrFail(items[1..], pred).value;
        Seqs.SubsequenceSkip(r.value, items);
      }
    }
  }

  /** A failing filter reports the failure of the first item the predicate
      failed on. */
  lemma {:induction false} FilterOrFailErr<T>(items: seq<T>, pred: T -> Result<bool>)
    requires FilterOrFail(items, pred).Err?
    ensures exists i :: 0 <= i < |items| && pred(items[i]) == Err(FilterOrFail(items, pred).error)
              && forall j :: 0 <= j < i ==> pred(items[j]).Ok?
  {
    if pred(items[0]).Ok? {
      FilterOrFailErr(items[1..], pred);
      var i :| 0 <= i < |items[1..]| && pred(items[1..][i]) == Err(FilterOrFail(items[1..], pred).error)
              && forall j :: 0 <= j < i ==> pred(items[1..][j]).Ok?;
      assert pred(items[i + 1]) == Err(FilterOrFail(items, pred).error);
      assert forall j :: 0 <= j < i + 1 ==> pred(items[j]).Ok? by {
        forall j | 0 <= j < i + 1 ensures pred(items[j]).Ok? {
          if j > 0 { assert items[j] == items[1..][j - 1]; }
        }
      }
    } else {
      assert pred(items[0]) == Err(FilterOrFail(items, pred).error);
    }
  }

  /** A predicate that never fails gives the plain filter. */
  lemma {:induction false} FilterOrFailTotal<T>(items: seq<T>, pred: T -> Result<bool>, p: T -> bool)
    requires forall x :: pred(x) == Ok(p(x))
    ensures FilterOrFail(items, pred) == Ok(Seqs.Filter(items, p))
  {
    if |items| > 0 {
      FilterOrFailTotal(items[1..], pred, p);
    }
  }

  /** `firstOrDefault`: null for an empty list, otherwise its first item. */
  function FirstOrDefault<T>(items: seq<T>): (r: Option<T>)
    ensures r.None? <==> |items| == 0
    ensures r.Some? ==> r.value == items[0]
  {
    if |items| < 1 then None else Some(items[0])
  }
}
