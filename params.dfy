/**
 * Request parameters of utils/coingecko_client.py and their canonical form.
 *
 * A parameter dict is its item sequence in insertion order, in which no key
 * occurs twice. The cache key holds `sorted(params.items())`: Python compares
 * the `(key, value)` tuples, and because a dict's keys are distinct only the
 * keys are ever compared, by Python's string order (code point by code point,
 * a proper prefix first).
 */
module Params {
  import opened Wrappers

  /** A parameter value: a string, an integer, a boolean or a list of strings. */
  datatype ParamValue = PStr(s: string) | PInt(i: int) | PBool(b: bool) | PList(elems: seq<string>)

  type Param = (string, ParamValue)

  /** The items of a Python dict: no key occurs twice. */
  predicate DistinctKeys(items: seq<Param>) {
    forall i, j :: 0 <= i < j < |items| ==> items[i].0 != items[j].0
  }

  function Keys(items: seq<Param>): set<string> {
    set p | p in items :: p.0
  }

  /** `params.get(key)` on the dict whose items are `items`. */
  function ValueOf(items: seq<Param>, key: string): Option<ParamValue> {
    if items == [] then None
    else if items[0].0 == key then Some(items[0].1)
    else ValueOf(items[1..], key)
  }

  /** In a dict, looking a stored key up gives the value stored with it. */
  lemma {:induction false} ValueOfAt(items: seq<Param>, k: nat)
    requires k < |items| && DistinctKeys(items)
    ensures ValueOf(items, items[k].0) == Some(items[k].1)
  {
    if k > 0 {
      assert items[0].0 != items[k].0;
      assert DistinctKeys(items[1..]) by {
        forall i, j | 0 <= i < j < |items| - 1 ensures items[1..][i].0 != items[1..][j].0 {
          assert items[1..][i] == items[i + 1] && items[1..][j] == items[j + 1];
        }
      }
      ValueOfAt(items[1..], k - 1);
    }
  }

  /** Python's `a < b` on `str`. */
  predicate Below(a: string, b: string) {
    if a == [] then b != []
    else b != [] && (a[0] < b[0] || (a[0] == b[0] && Below(a[1..], b[1..])))
  }

  lemma {:induction false} BelowIrreflexive(a: string)
    ensures !Below(a, a)
  {
    if a != [] {
      BelowIrreflexive(a[1..]);
    }
  }

  lemma {:induction false} BelowTransitive(a: string, b: string, c: string)
    requires Below(a, b) && Below(b, c)
    ensures Below(a, c)
  {
    if a != [] && a[0] == b[0] && b[0] == c[0] {
      BelowTransitive(a[1..], b[1..], c[1..]);
    }
  }

  lemma BelowAsymmetric(a: string, b: string)
    requires Below(a, b)
    ensures !Below(b, a)
  {
    if Below(b, a) {
      BelowTransitive(a, b, a);
      BelowIrreflexive(a);
    }
  }

  /** Any two different strings are ordered one way or the other. */
  lemma {:induction false} BelowTotal(a: string, b: string)
    requires a != b
    ensures Below(a, b) || Below(b, a)
  {
    if a != [] && b != [] && a[0] == b[0] {
      assert a == [a[0]] + a[1..] && b == [b[0]] + b[1..];
      BelowTotal(a[1..], b[1..]);
    }
  }

  /** Items in strictly increasing key order. */
  predicate SortedByKey(items: seq<Param>) {
    forall i, j :: 0 <= i < j < |items| ==> Below(items[i].0, items[j].0)
  }

  /** An item whose key is below every key of a sorted sequence can go in front of it. */
  lemma ConsSorted(x: Param, items: seq<Param>)
    requires SortedByKey(items)
    requires forall q | q in items :: Below(x.0, q.0)
    ensures SortedByKey([x] + items)
  {
    forall i, j | 0 <= i < j < |items| + 1 ensures Below(([x] + items)[i].0, ([x] + items)[j].0) {
      if i == 0 {
        assert ([x] + items)[j] == items[j - 1];
      } else {
        assert ([x] + items)[i] == items[i - 1] && ([x] + items)[j] == items[j - 1];
      }
    }
  }

  /** An item whose key is below the first key of a sorted sequence is below all of them. */
  lemma BelowFirstBelowAll(x: Param, items: seq<Param>)
    requires SortedByKey(items) && items != [] && Below(x.0, items[0].0)
    ensures forall q | q in items :: Below(x.0, q.0)
  {
    forall q | q in items ensures Below(x.0, q.0) {
      var j :| 0 <= j < |items| && items[j] == q;
      if j > 0 {
        BelowTransitive(x.0, items[0].0, q.0);
      }
    }
  }

  /** Dropping the first item keeps a sequence sorted and its keys apart from `p`'s. */
  lemma TailSorted(p: Param, items: seq<Param>)
    requires items != [] && SortedByKey(items)
    requires forall q | q in items :: q.0 != p.0
    ensures SortedByKey(items[1..])
    ensures forall q | q in items[1..] :: q.0 != p.0
    ensures forall q | q in items[1..] :: Below(items[0].0, q.0)
  {
    forall i, j | 0 <= i < j < |items| - 1 ensures Below(items[1..][i].0, items[1..][j].0) {
      assert items[1..][i] == items[i + 1] && items[1..][j] == items[j + 1];
    }
    forall q | q in items[1..] ensures q.0 != p.0 && Below(items[0].0, q.0) {
      var j :| 0 <= j < |items| - 1 && items[1..][j] == q;
      assert items[j + 1] == q;
    }
  }

  /** Inserts `p` before the first item whose key is above its own. */
  function Insert(p: Param, items: seq<Param>): (r: seq<Param>)
    ensures multiset(r) == multiset(items) + multiset{p}
    ensures SortedByKey(items) && (forall q | q in items :: q.0 != p.0) ==> SortedByKey(r)
  {
    if items == [] then [p]
    else if Below(p.0, items[0].0) then
      assert SortedByKey(items) ==> SortedByKey([p] + items) by {
        if SortedByKey(items) {
          BelowFirstBelowAll(p, items);
          ConsSorted(p, items);
        }
      }
      [p] + items
    else
      var rest := Insert(p, items[1..]);
      assert items == [items[0]] + items[1..];
      assert SortedByKey(items) && (forall q | q in items :: q.0 != p.0) ==> SortedByKey([items[0]] + rest) by {
        if SortedByKey(items) && (forall q | q in items :: q.0 != p.0) {
          TailSorted(p, items);
          assert items[0] in items;
          BelowTotal(p.0, items[0].0);
          forall q | q in rest ensures Below(items[0].0, q.0) {
            assert q in multiset(rest);
          }
          ConsSorted(items[0], rest);
        }
      }
      [items[0]] + rest
  }

  /** In a dict's items, no later item has the first item's key. */
  lemma TailKeysDiffer(items: seq<Param>)
    requires items != [] && DistinctKeys(items)
    ensures DistinctKeys(items[1..])
    ensures forall q | q in items[1..] :: q.0 != items[0].0
  {
    forall q | q in items[1..] ensures q.0 != items[0].0 {
      var j :| 0 <= j < |items[1..]| && items[1..][j] == q;
      assert items[j + 1] == q;
    }
  }

  /** `sorted(items)`: the same entries, in increasing key order. */
  function SortItems(items: seq<Param>): (r: seq<Param>)
    ensures multiset(r) == multiset(items)
    ensures DistinctKeys(items) ==> SortedByKey(r)
  {
    if items == [] then []
    else
      var rest := SortItems(items[1..]);
      assert items == [items[0]] + items[1..];
      assert DistinctKeys(items) ==> SortedByKey(rest) && forall q | q in rest :: q.0 != items[0].0 by {
        if DistinctKeys(items) {
          TailKeysDiffer(items);
          forall q | q in rest ensures q.0 != items[0].0 {
            assert q in multiset(items[1..]);
          }
        }
      }
      Insert(items[0], rest)
  }

  /** Key-sorted sequences with the same entries have the same first entry. */
  lemma SortedSameHead(a: seq<Param>, b: seq<Param>)
    requires SortedByKey(a) && SortedByKey(b)
    requires a != [] && b != []
    requires a[0] in multiset(b) && b[0] in multiset(a)
    ensures a[0] == b[0]
  {
    var i :| 0 <= i < |a| && a[i] == b[0];
    var j :| 0 <= j < |b| && b[j] == a[0];
    if i > 0 && j > 0 {
      BelowAsymmetric(a[0].0, b[0].0);
    }
  }

  /** Removing the first entry removes one occurrence of it from the multiset. */
  lemma TailMultiset(a: seq<Param>)
    requires a != []
    ensures multiset(a[1..]) == multiset(a) - multiset{a[0]}
  {
    assert a == [a[0]] + a[1..];
  }

  /** Two key-sorted sequences holding the same entries are the same sequence. */
  lemma {:induction false} SortedUnique(a: seq<Param>, b: seq<Param>)
    requires SortedByKey(a) && SortedByKey(b)
    requires multiset(a) == multiset(b)
    ensures a == b
  {
    if a == [] {
      assert |b| == |multiset(b)| == 0;
    } else {
      assert |b| == |multiset(b)| == |multiset(a)| == |a| > 0;
      assert a[0] in multiset(a) && b[0] in multiset(b);
      SortedSameHead(a, b);
      TailMultiset(a);
      TailMultiset(b);
      SortedUnique(a[1..], b[1..]);
      assert a == [a[0]] + a[1..] && b == [b[0]] + b[1..];
    }
  }

  /** Two dicts with the same entries, in whatever insertion order, sort to the same items. */
  lemma SortIgnoresInsertionOrder(p: seq<Param>, q: seq<Param>)
    requires DistinctKeys(p) && DistinctKeys(q)
    requires multiset(p) == multiset(q)
    ensures SortItems(p) == SortItems(q)
  {
    SortedUnique(SortItems(p), SortItems(q));
  }

  /** Sorting leaves already sorted items as they are. */
  lemma SortKeepsSorted(items: seq<Param>)
    requires SortedByKey(items)
    ensures SortItems(items) == items
  {
    assert DistinctKeys(items) by {
      forall i, j | 0 <= i < j < |items| ensures items[i].0 != items[j].0 {
        BelowIrreflexive(items[i].0);
      }
    }
    SortedUnique(SortItems(items), items);
  }
}
