/** Sequence helpers that stand for the Kotlin and Java collection operations
    the compiler uses: `filter`, `joinToString`, `distinct`/`toSet`.
 */
module Seqs {

  /** The elements of `s` that satisfy `p`, in their original order. */
  function Filter<T>(s: seq<T>, p: T -> bool): (r: seq<T>)
    ensures |r| <= |s|
  {
    if |s| == 0 then []
    else (if p(s[0]) then [s[0]] else []) + Filter(s[1..], p)
  }

  /** `r` is obtained from `s` by deleting elements, keeping the order. */
  predicate IsSubsequence<T(==)>(r: seq<T>, s: seq<T>)
    decreases |s|
  {
    if |r| == 0 then true
    else if |s| == 0 then false
    else (r[0] == s[0] && IsSubsequence(r[1..], s[1..])) || IsSubsequence(r, s[1..])
  }

  /** The middle part of a three-part concatenation sits after the first. */
  lemma MiddleIndex<T>(a: seq<T>, b: seq<T>, c: seq<T>)
    ensures forall i :: 0 <= i < |b| ==> (a + b + c)[|a| + i] == b[i]
  {
  }

  lemma SubsequenceSkip<T>(r: seq<T>, s: seq<T>)
    requires |s| > 0 && IsSubsequence(r, s[1..])
    ensures IsSubsequence(r, s)
  {
  }

  lemma {:induction false} FilterSnoc<T>(s: seq<T>, x: T, p: T -> bool)
    ensures Filter(s + [x], p) == Filter(s, p) + (if p(x) then [x] else [])
  {
    if |s| == 0 {
      assert s + [x] == [x];
      assert [x][1..] == [];
    } else {
      var t := s + [x];
      assert t[0] == s[0];
      assert t[1..] == s[1..] + [x];
      FilterSnoc(s[1..], x, p);
      calc {
        Filter(t, p);
        (if p(s[0]) then [s[0]] else []) + Filter(s[1..] + [x], p);
        (if p(s[0]) then [s[0]] else []) + (Filter(s[1..], p) + (if p(x) then [x] else []));
        ((if p(s[0]) then [s[0]] else []) + Filter(s[1..], p)) + (if p(x) then [x] else []);
      }
    }
  }

  lemma {:induction false} FilterAppend<T>(a: seq<T>, b: seq<T>, p: T -> bool)
    ensures Filter(a + b, p) == Filter(a, p) + Filter(b, p)
  {
    if |a| > 0 {
      FilterAppend(a[1..], b, p);
      assert (a + b)[1..] == a[1..] + b;
    } else {
      assert a + b == b;
    }
  }

  lemma {:induction false} FilterMembers<T>(s: seq<T>, p: T -> bool, x: T)
    ensures x in Filter(s, p) <==> x in s && p(x)
  {
    if |s| > 0 {
      FilterMembers(s[1..], p, x);
      assert s == [s[0]] + s[1..];
    }
  }

  lemma {:induction false} FilterIsSubsequence<T>(s: seq<T>, p: T -> bool)
    ensures IsSubsequence(Filter(s, p), s)
  {
    if |s| > 0 {
      FilterIsSubsequence(s[1..], p);
      var r := Filter(s, p);
      if p(s[0]) {
        assert r[0] == s[0] && r[1..] == Filter(s[1..], p);
      } else {
        assert r == Filter(s[1..], p);
        SubsequenceSkip(r, s);
      }
    }
  }

  /** Every element of `s` followed by `sep`. */
  function Terminated(parts: seq<string>, sep: string): string {
    if |parts| == 0 then "" else Terminated(parts[..|parts| - 1], sep) + parts[|parts| - 1] + sep
  }

  /** `joinToString(sep)`: the parts with `sep` between neighbours, "" for none. */
  function Join(parts: seq<string>, sep: string): string {
    if |parts| == 0 then ""
    else Terminated(parts[..|parts| - 1], sep) + parts[|parts| - 1]
  }

  lemma JoinOne(x: string, sep: string)
    ensures Join([x], sep) == x
  {
    assert [x][..0] == [];
  }

  lemma {:induction false} JoinCons(x: string, rest: seq<string>, sep: string)
    requires |rest| > 0
    ensures Join([x] + rest, sep) == x + sep + Join(rest, sep)
  {
    var all := [x] + rest;
    var init := rest[..|rest| - 1];
    var last := rest[|rest| - 1];
    assert all[..|all| - 1] == [x] + init;
    assert all[|all| - 1] == last;
    TerminatedCons(x, init, sep);
    calc {
      Join(all, sep);
      Terminated([x] + init, sep) + last;
      (x + sep + Terminated(init, sep)) + last;
      x + sep + (Terminated(init, sep) + last);
    }
  }

  lemma {:induction false} TerminatedCons(x: string, rest: seq<string>, sep: string)
    ensures Terminated([x] + rest, sep) == x + sep + Terminated(rest, sep)
  {
    var all := [x] + rest;
    if |rest| == 0 {
      assert all[..0] == [];
      assert Terminated(all, sep) == "" + x + sep;
    } else {
      var init := rest[..|rest| - 1];
      var last := rest[|rest| - 1];
      TerminatedCons(x, init, sep);
      assert all[..|all| - 1] == [x] + init;
      assert all[|all| - 1] == last;
      calc {
        Terminated(all, sep);
        Terminated([x] + init, sep) + last + sep;
        (x + sep + Terminated(init, sep)) + last + sep;
        x + sep + (Terminated(init, sep) + last + sep);
      }
    }
  }

  /** Appending one part: it is terminated after the others, or joined
      after them. */
  lemma TerminatedSnoc(parts: seq<string>, x: string, sep: string)
    ensures Terminated(parts + [x], sep) == Terminated(parts, sep) + x + sep
    ensures Join(parts + [x], sep) == Terminated(parts, sep) + x
  {
    assert (parts + [x])[..|parts|] == parts;
  }

  /** All elements pairwise different. */
  predicate NoDuplicates<T(==)>(s: seq<T>) {
    forall i, j :: 0 <= i < j < |s| ==> s[i] != s[j]
  }

  /** Filtering a list without duplicates leaves one without duplicates. */
  lemma {:induction false} FilterNoDuplicates<T>(s: seq<T>, p: T -> bool)
    requires NoDuplicates(s)
    ensures NoDuplicates(Filter(s, p))
  {
    if |s| > 0 {
      FilterNoDuplicates(s[1..], p);
      FilterMembers(s[1..], p, s[0]);
      assert s[0] !in s[1..] by {
        forall j | 0 <= j < |s[1..]| ensures s[1..][j] != s[0] {
          assert s[1..][j] == s[j + 1];
        }
      }
    }
  }

  /** `distinct()` / `toSet()` on a list: first occurrences, in order. */
  function Distinct<T(==)>(s: seq<T>): seq<T> {
    if |s| == 0 then []
    else
      var init := Distinct(s[..|s| - 1]);
      if s[|s| - 1] in init then init else init + [s[|s| - 1]]
  }

  lemma {:induction false} DistinctProperties<T>(s: seq<T>)
    ensures NoDuplicates(Distinct(s))
    ensures forall x :: x in Distinct(s) <==> x in s
    ensures |Distinct(s)| <= |s|
  {
    if |s| > 0 {
      DistinctProperties(s[..|s| - 1]);
      assert s == s[..|s| - 1] + [s[|s| - 1]];
    }
  }

  /** A `HashMap` after `put(k, v)` for every pair, in order. */
  function MapOfPairs<K, V>(pairs: seq<(K, V)>): map<K, V> {
    if |pairs| == 0 then map[]
    else MapOfPairs(pairs[..|pairs| - 1])[pairs[|pairs| - 1].0 := pairs[|pairs| - 1].1]
  }

  /** The keys are those of the pairs. */
  lemma {:induction false} MapOfPairsKeys<K, V>(pairs: seq<(K, V)>, k: K)
    ensures k in MapOfPairs(pairs) <==> exists i :: 0 <= i < |pairs| && pairs[i].0 == k
  {
    if |pairs| > 0 {
      var front := pairs[..|pairs| - 1];
      MapOfPairsKeys(front, k);
      assert forall i :: 0 <= i < |front| ==> front[i] == pairs[i];
    }
  }

  /** Adding one pair puts its value under its key. */
  lemma MapOfPairsSnoc<K, V>(pairs: seq<(K, V)>, p: (K, V))
    ensures MapOfPairs(pairs + [p]) == MapOfPairs(pairs)[p.0 := p.1]
  {
    assert (pairs + [p])[..|pairs|] == pairs;
  }

  /** A later `put` of the same key replaces an earlier one. */
  lemma {:induction false} MapOfPairsLastWins<K, V>(pairs: seq<(K, V)>, i: nat)
    requires i < |pairs|
    requires forall j :: i < j < |pairs| ==> pairs[j].0 != pairs[i].0
    ensures pairs[i].0 in MapOfPairs(pairs) && MapOfPairs(pairs)[pairs[i].0] == pairs[i].1
  {
    if i < |pairs| - 1 {
      var front := pairs[..|pairs| - 1];
      assert forall j :: i <= j < |front| ==> front[j] == pairs[j];
      MapOfPairsLastWins(front, i);
    }
  }

  /** Some element of `s` has key `k`. */
  predicate HasKey<T, K(==)>(s: seq<T>, key: T -> K, k: K) {
    exists i :: 0 <= i < |s| && key(s[i]) == k
  }

  /** `distinctBy(key)`: the first element of each key, in order. */
  function DistinctBy<T, K(==)>(s: seq<T>, key: T -> K): seq<T> {
    if |s| == 0 then []
    else
      var init := DistinctBy(s[..|s| - 1], key);
      if HasKey(init, key, key(s[|s| - 1])) then init else init + [s[|s| - 1]]
  }

  /** No two kept elements share a key, every key of the input is kept,
      and the kept elements come from the input in input order. */
  lemma {:induction false} DistinctByProperties<T, K>(s: seq<T>, key: T -> K)
    ensures var r := DistinctBy(s, key);
            && (forall i, j :: 0 <= i < j < |r| ==> key(r[i]) != key(r[j]))
            && (forall x :: x in s ==> HasKey(r, key, key(x)))
            && IsSubsequence(r, s)
  {
    if |s| > 0 {
      var init := s[..|s| - 1];
      var last := s[|s| - 1];
      DistinctByProperties(init, key);
      var d := DistinctBy(init, key);
      assert s == init + [last];
      forall x | x in s ensures HasKey(DistinctBy(s, key), key, key(x)) {
        if x == last {
          if !HasKey(d, key, key(last)) {
            assert DistinctBy(s, key)[|d|] == last;
          }
        } else {
          assert x in init;
          var i :| 0 <= i < |d| && key(d[i]) == key(x);
          assert DistinctBy(s, key)[i] == d[i];
        }
      }
      SubsequenceAppend(d, init, last, !HasKey(d, key, key(last)));
    }
  }

  /** Extending the input by one element keeps a subsequence one, whether
      or not the element is kept. */
  lemma SubsequenceAppend<T>(r: seq<T>, s: seq<T>, x: T, keep: bool)
    requires IsSubsequence(r, s)
    ensures IsSubsequence(if keep then r + [x] else r, s + [x])
  {
    SubsequenceSnoc(r, s, x);
  }

  lemma {:induction false} SubsequenceSnoc<T>(r: seq<T>, s: seq<T>, x: T)
    requires IsSubsequence(r, s)
    ensures IsSubsequence(r, s + [x]) && IsSubsequence(r + [x], s + [x])
    decreases |s|
  {
    assert |s| > 0 ==> (s + [x])[1..] == s[1..] + [x];
    if |r| == 0 {
      assert r + [x] == [x];
      if |s| > 0 {
        SubsequenceSnoc(r, s[1..], x);
      }
    } else if r[0] == s[0] && IsSubsequence(r[1..], s[1..]) {
      SubsequenceSnoc(r[1..], s[1..], x);
      assert (r + [x])[1..] == r[1..] + [x];
    } else {
      SubsequenceSnoc(r, s[1..], x);
    }
  }
}
