/** The folds behind every figure the tracker shows: `groupSum`, the totals,
    per-key sums kept in an object, and "sort the entries by value, descending,
    and take the first". Keys are generic so that moods, categories, dates and
    weekdays share one definition. */
module Aggregate {

  import opened Wrappers
  import opened Expenses

  // ---------------------------------------------------------------- projections

  /** Each record as a (key, amount) pair, in order. */
  function Pairs<K>(items: seq<Expense>, key: Expense -> K): (r: seq<(K, int)>)
    ensures |r| == |items|
    ensures forall i :: 0 <= i < |items| ==> r[i] == (key(items[i]), items[i].amount)
  {
    seq(|items|, i requires 0 <= i < |items| => (key(items[i]), items[i].amount))
  }

  function KeysOf<K>(s: seq<(K, int)>): (r: seq<K>)
    ensures |r| == |s|
    ensures forall i :: 0 <= i < |s| ==> r[i] == s[i].0
  {
    seq(|s|, i requires 0 <= i < |s| => s[i].0)
  }

  predicate DistinctKeys<K(==)>(s: seq<(K, int)>)
  {
    forall i, j :: 0 <= i < j < |s| ==> s[i].0 != s[j].0
  }

  /** Sum of all values. */
  function SumValues<K>(s: seq<(K, int)>): int
  {
    if s == [] then 0 else s[0].1 + SumValues(s[1..])
  }

  /** Sum of the values whose key is `k`: the independent reference for every grouping. */
  function SumFor<K(==)>(s: seq<(K, int)>, k: K): int
  {
    if s == [] then 0
    else SumFor(s[..|s| - 1], k) + (if s[|s| - 1].0 == k then s[|s| - 1].1 else 0)
  }

  lemma {:induction false} SumValuesAppend<K>(a: seq<(K, int)>, b: seq<(K, int)>)
    ensures SumValues(a + b) == SumValues(a) + SumValues(b)
  {
    if a != [] {
      assert (a + b)[1..] == a[1..] + b;
      SumValuesAppend(a[1..], b);
    } else {
      assert a + b == b;
    }
  }

  /** The projected amounts sum to the same total as `Total`. */
  lemma {:induction false} PairsTotal<K>(items: seq<Expense>, key: Expense -> K)
    ensures SumValues(Pairs(items, key)) == Total(items)
  {
    if items != [] {
      var n := |items| - 1;
      PairsTotal(items[..n], key);
      assert Pairs(items, key) == Pairs(items[..n], key) + [(key(items[n]), items[n].amount)];
      SumValuesAppend(Pairs(items[..n], key), [(key(items[n]), items[n].amount)]);
    }
  }

  /** The records whose key is `k`, in their order. */
  function Where<K(==)>(items: seq<Expense>, key: Expense -> K, k: K): (r: seq<Expense>)
    ensures forall x :: x in r ==> x in items && key(x) == k
  {
    if items == [] then []
    else
      var n := |items| - 1;
      Where(items[..n], key, k) + (if key(items[n]) == k then [items[n]] else [])
  }

  /** Filtering a list with one more record in front: that record, when it has
      the key, comes first, then the filtered rest. */
  lemma {:induction false} WhereCons<K>(x: Expense, s: seq<Expense>, key: Expense -> K, k: K)
    ensures Where([x] + s, key, k) == (if key(x) == k then [x] else []) + Where(s, key, k)
  {
    var t := [x] + s;
    if s == [] {
      assert t[..0] == [];
    } else {
      var n := |s| - 1;
      WhereCons(x, s[..n], key, k);
      assert t[..n + 1] == [x] + s[..n] && t[n + 1] == s[n];
      var last := if key(s[n]) == k then [s[n]] else [];
      assert Where(t, key, k) == Where([x] + s[..n], key, k) + last;
      assert Where(s, key, k) == Where(s[..n], key, k) + last;
    }
  }

  /** Summing the pairs under one key is summing the amounts of the records with that key. */
  lemma {:induction false} SumForPairs<K>(items: seq<Expense>, key: Expense -> K, k: K)
    ensures SumFor(Pairs(items, key), k) == Total(Where(items, key, k))
  {
    if items != [] {
      var n := |items| - 1;
      SumForPairs(items[..n], key, k);
      assert Pairs(items, key)[..n] == Pairs(items[..n], key);
      var last := if key(items[n]) == k then [items[n]] else [];
      TotalAppend(Where(items[..n], key, k), last);
      assert last == [] || Total(last) == items[n].amount by {
        if last != [] { assert last[..0] == []; }
      }
    }
  }

  // ---------------------------------------------------------------- first occurrence

  /** Index of the first occurrence of `k` in `ks`. */
  function FirstIndex<K(==)>(ks: seq<K>, k: K): (i: nat)
    requires k in ks
    ensures i < |ks| && ks[i] == k && k !in ks[..i]
  {
    if ks[0] == k then 0
    else
      var i := FirstIndex(ks[1..], k);
      assert ks[..i + 1] == [ks[0]] + ks[1..][..i];
      i + 1
  }

  lemma FirstIndexUnique<K>(ks: seq<K>, k: K, i: nat)
    requires i < |ks| && ks[i] == k && k !in ks[..i]
    ensures FirstIndex(ks, k) == i
  {
    var j := FirstIndex(ks, k);
  }

  // ---------------------------------------------------------------- groupSum

  /** `acc[k] || 0`: the running sum stored under `k`, zero when absent. */
  function Lookup<K(==)>(acc: seq<(K, int)>, k: K): int
  {
    if acc == [] then 0 else if acc[0].0 == k then acc[0].1 else Lookup(acc[1..], k)
  }

  /** One step of the `reduce` in `groupSum`: `acc[k] = (acc[k] || 0) + amount`,
      where a new key goes after the keys already present. */
  function Accumulate<K(==, !new)>(acc: seq<(K, int)>, e: (K, int)): (r: seq<(K, int)>)
    ensures KeysOf(r) == if e.0 in KeysOf(acc) then KeysOf(acc) else KeysOf(acc) + [e.0]
    ensures SumValues(r) == SumValues(acc) + e.1
  {
    if acc == [] then [e]
    else if acc[0].0 == e.0 then
      var r := [(e.0, acc[0].1 + e.1)] + acc[1..];
      assert KeysOf(r) == KeysOf(acc);
      assert e.0 in KeysOf(acc) by { assert KeysOf(acc)[0] == e.0; }
      r
    else
      var t := Accumulate(acc[1..], e);
      var r := [acc[0]] + t;
      assert KeysOf(acc) == [acc[0].0] + KeysOf(acc[1..]);
      assert KeysOf(r) == [acc[0].0] + KeysOf(t);
      assert e.0 in KeysOf(acc) <==> e.0 in KeysOf(acc[1..]);
      r
  }

  /** After the step, the sum under `e.0` has grown by `e.1` and every other sum is unchanged. */
  lemma {:induction false} AccumulateLookup<K(!new)>(acc: seq<(K, int)>, e: (K, int), k: K)
    ensures Lookup(Accumulate(acc, e), k) == Lookup(acc, k) + (if k == e.0 then e.1 else 0)
  {
    if acc != [] && acc[0].0 != e.0 {
      AccumulateLookup(acc[1..], e, k);
    }
  }

  /** `items.reduce((acc, x) => ..., {})` over (key, amount) pairs: an
      insertion-ordered list of keys with their running sums. */
  function Tally<K(==, !new)>(s: seq<(K, int)>): (r: seq<(K, int)>)
    ensures DistinctKeys(r)
    ensures forall k :: k in KeysOf(r) <==> k in KeysOf(s)
  {
    if s == [] then []
    else
      var p := s[..|s| - 1];
      var t := Tally(p);
      AccumulateDistinct(t, s[|s| - 1]);
      KeysOfLast(s);
      Accumulate(t, s[|s| - 1])
  }

  lemma KeysOfLast<K>(s: seq<(K, int)>)
    requires s != []
    ensures KeysOf(s) == KeysOf(s[..|s| - 1]) + [s[|s| - 1].0]
  {
  }

  /** Adding into a table with distinct keys keeps its keys distinct. */
  lemma AccumulateDistinct<K(!new)>(acc: seq<(K, int)>, e: (K, int))
    requires DistinctKeys(acc)
    ensures DistinctKeys(Accumulate(acc, e))
  {
    var r := Accumulate(acc, e);
    var ka, kr := KeysOf(acc), KeysOf(r);
    forall i, j | 0 <= i < j < |r| ensures r[i].0 != r[j].0 {
      assert r[i].0 == kr[i] && r[j].0 == kr[j];
      if j < |ka| {
        assert kr[i] == ka[i] && kr[j] == ka[j];
      } else {
        assert kr[j] == e.0 && kr[i] == ka[i];
      }
    }
  }

  lemma {:induction false} TallyLookup<K(!new)>(s: seq<(K, int)>, k: K)
    ensures Lookup(Tally(s), k) == SumFor(s, k)
  {
    if s != [] {
      TallyLookup(s[..|s| - 1], k);
      AccumulateLookup(Tally(s[..|s| - 1]), s[|s| - 1], k);
    }
  }

  lemma {:induction false} LookupDistinct<K>(s: seq<(K, int)>, j: nat)
    requires DistinctKeys(s) && j < |s|
    ensures Lookup(s, s[j].0) == s[j].1
  {
    if j > 0 {
      LookupDistinct(s[1..], j - 1);
    }
  }

  /** Every entry of the tally holds the sum of exactly the pairs with its key. */
  lemma TallyEntries<K(!new)>(s: seq<(K, int)>)
    ensures forall j :: 0 <= j < |Tally(s)| ==> Tally(s)[j].1 == SumFor(s, Tally(s)[j].0)
  {
    var r := Tally(s);
    forall j | 0 <= j < |r| ensures r[j].1 == SumFor(s, r[j].0) {
      LookupDistinct(r, j);
      TallyLookup(s, r[j].0);
    }
  }

  /** The tally's values add up to the sum of all values. */
  lemma {:induction false} TallyTotal<K(!new)>(s: seq<(K, int)>)
    ensures SumValues(Tally(s)) == SumValues(s)
  {
    if s != [] {
      var p := s[..|s| - 1];
      TallyTotal(p);
      assert s == p + [s[|s| - 1]];
      SumValuesAppend(p, [s[|s| - 1]]);
    }
  }

  lemma {:induction false} FirstIndexExtend<K>(ks: seq<K>, x: K, k: K)
    requires k in ks
    ensures FirstIndex(ks + [x], k) == FirstIndex(ks, k)
  {
    var i := FirstIndex(ks, k);
    assert (ks + [x])[..i] == ks[..i];
    FirstIndexUnique(ks + [x], k, i);
  }

  lemma {:induction false} FirstIndexNew<K>(ks: seq<K>, x: K)
    requires x !in ks
    ensures FirstIndex(ks + [x], x) == |ks|
  {
    assert (ks + [x])[..|ks|] == ks;
    FirstIndexUnique(ks + [x], x, |ks|);
  }

  /** `ks` lists keys of `src`, each one earlier than the next in `src`. */
  predicate InFirstOrder<K(==)>(ks: seq<K>, src: seq<K>)
  {
    && (forall k :: k in ks ==> k in src)
    && forall a, b :: 0 <= a < b < |ks| ==> FirstIndex(src, ks[a]) < FirstIndex(src, ks[b])
  }

  /** Keys appear in the order of their first occurrence in the input. */
  lemma {:induction false} TallyFirstOccurrence<K(!new)>(s: seq<(K, int)>)
    ensures InFirstOrder(KeysOf(Tally(s)), KeysOf(s))
  {
    if s != [] {
      var p := s[..|s| - 1];
      var e := s[|s| - 1];
      TallyFirstOccurrence(p);
      var kp, kt := KeysOf(p), KeysOf(Tally(p));
      KeysOfLast(s);
      KeyOrderStep(kp, kt, e.0);
    }
  }

  /** The step of `TallyFirstOccurrence` on the key lists alone: appending `x`
      to the input either leaves the table's keys alone or adds `x` at the end,
      and either way they stay in first-occurrence order. */
  lemma KeyOrderStep<K>(kp: seq<K>, kt: seq<K>, x: K)
    requires forall k :: k in kt <==> k in kp
    requires InFirstOrder(kt, kp)
    ensures InFirstOrder(if x in kt then kt else kt + [x], kp + [x])
  {
    var kr := if x in kt then kt else kt + [x];
    forall a, b | 0 <= a < b < |kr| ensures FirstIndex(kp + [x], kr[a]) < FirstIndex(kp + [x], kr[b]) {
      assert kr[a] == kt[a];
      FirstIndexExtend(kp, x, kt[a]);
      if b < |kt| {
        assert kr[b] == kt[b];
        FirstIndexExtend(kp, x, kt[b]);
      } else {
        assert kr[b] == x && x !in kp;
        FirstIndexNew(kp, x);
      }
    }
  }

  // ---------------------------------------------------------------- sums kept in an object

  /** `obj[k] = (obj[k] || 0) + +x.amount` for each record `x` in turn, with
      `k` the record's key, as in the `forEach` loops that fill `byDow` and `byDate`. */
  function SumsBy<K(==)>(items: seq<Expense>, key: Expense -> K): map<K, int>
  {
    if items == [] then map[]
    else
      var n := |items| - 1;
      var m := SumsBy(items[..n], key);
      var k := key(items[n]);
      m[k := (if k in m then m[k] else 0) + items[n].amount]
  }

  /** The object has a key exactly for each key some record has. */
  lemma {:induction false} SumsByKeys<K>(items: seq<Expense>, key: Expense -> K, k: K)
    ensures k in SumsBy(items, key) <==> exists i :: 0 <= i < |items| && key(items[i]) == k
  {
    if items != [] {
      var n := |items| - 1;
      var p := items[..n];
      SumsByKeys(p, key, k);
      if exists i :: 0 <= i < |p| && key(p[i]) == k {
        var i :| 0 <= i < |p| && key(p[i]) == k;
        assert key(items[i]) == k;
      }
      if exists i :: 0 <= i < |items| && key(items[i]) == k {
        var i :| 0 <= i < |items| && key(items[i]) == k;
        if i < n {
          assert key(p[i]) == k;
        }
      }
    }
  }

  /** Every key of the object holds the total of exactly the records with that key. */
  lemma {:induction false} SumsByValues<K>(items: seq<Expense>, key: Expense -> K, k: K)
    requires k in SumsBy(items, key)
    ensures SumsBy(items, key)[k] == Total(Where(items, key, k))
  {
    var n := |items| - 1;
    var p := items[..n];
    var last := if key(items[n]) == k then [items[n]] else [];
    TotalAppend(Where(p, key, k), last);
    assert last == [] || Total(last) == items[n].amount by {
      if last != [] { assert last[..0] == []; }
    }
    if k in SumsBy(p, key) {
      SumsByValues(p, key, k);
    } else {
      var w := Where(p, key, k);
      if w != [] {
        assert w[0] in p && key(w[0]) == k;
        var i :| 0 <= i < |p| && p[i] == w[0];
        SumsByKeys(p, key, k);
      }
    }
  }

  // ---------------------------------------------------------------- top entry

  /** Stable insertion of `e` into a list sorted by value, descending: `e`
      goes before the first entry whose value is not larger. */
  function InsertByValue<K(==)>(e: (K, int), t: seq<(K, int)>): (r: seq<(K, int)>)
    ensures multiset(r) == multiset(t) + multiset{e}
  {
    if t == [] || t[0].1 <= e.1 then [e] + t
    else
      assert t == [t[0]] + t[1..];
      [t[0]] + InsertByValue(e, t[1..])
  }

  /** `entries.sort((a, b) => b[1] - a[1])`: a stable sort by value, largest first. */
  function SortByValue<K(==)>(s: seq<(K, int)>): (r: seq<(K, int)>)
    ensures multiset(r) == multiset(s) && |r| == |s|
  {
    if s == [] then []
    else
      assert s == [s[0]] + s[1..];
      InsertByValue(s[0], SortByValue(s[1..]))
  }

  predicate DescendingByValue<K>(s: seq<(K, int)>)
  {
    forall i, j :: 0 <= i < j < |s| ==> s[i].1 >= s[j].1
  }

  lemma {:induction false} InsertByValueDescending<K>(e: (K, int), t: seq<(K, int)>)
    requires DescendingByValue(t)
    ensures DescendingByValue(InsertByValue(e, t))
  {
    if t != [] && t[0].1 > e.1 {
      InsertByValueDescending(e, t[1..]);
      var u := InsertByValue(e, t[1..]);
      forall j | 0 <= j < |u| ensures t[0].1 >= u[j].1 {
        assert u[j] in multiset(u);
        if u[j] != e {
          assert u[j] in t[1..];
        }
      }
    }
  }

  /** The sorted entries are in descending order of value. */
  lemma {:induction false} SortByValueDescending<K>(s: seq<(K, int)>)
    ensures DescendingByValue(SortByValue(s))
  {
    if s != [] {
      SortByValueDescending(s[1..]);
      InsertByValueDescending(s[0], SortByValue(s[1..]));
    }
  }

  /** `sorted[0]` (or `undefined` for no entries). */
  function TopEntry<K(==)>(s: seq<(K, int)>): Option<(K, int)>
  {
    if s == [] then None else Some(SortByValue(s)[0])
  }

  /** Index `i` holds a largest value and every entry before it is strictly smaller. */
  predicate IsFirstMax<K>(s: seq<(K, int)>, i: int)
  {
    && 0 <= i < |s|
    && (forall j :: 0 <= j < |s| ==> s[j].1 <= s[i].1)
    && (forall j :: 0 <= j < i ==> s[j].1 < s[i].1)
  }

  function FirstMaxIndex<K>(s: seq<(K, int)>): (i: nat)
    requires s != []
    ensures IsFirstMax(s, i)
  {
    if |s| == 1 then 0
    else
      var j := FirstMaxIndex(s[1..]);
      assert s[1..][j] == s[j + 1];
      if s[0].1 >= s[j + 1].1 then 0 else j + 1
  }

  /** The first entry after the stable descending sort is the first entry with
      the largest value: ties go to the key that came first. */
  lemma {:induction false} TopEntryIsFirstMax<K>(s: seq<(K, int)>)
    ensures TopEntry(s).None? <==> s == []
    ensures s != [] ==> TopEntry(s) == Some(s[FirstMaxIndex(s)])
  {
    if |s| > 1 {
      TopEntryIsFirstMax(s[1..]);
      var j := FirstMaxIndex(s[1..]);
      assert s[1..][j] == s[j + 1];
    }
  }

  // ---------------------------------------------------------------- groupSum(items, key)

  /** The two record fields the tracker groups by. */
  datatype Field = ByMood | ByCategory

  const Uncategorized: string := "Uncategorized"

  function FieldValue(x: Expense, f: Field): string
  {
    match f
    case ByMood => x.mood
    case ByCategory => x.category
  }

  /** `x[key] || "Uncategorized"`: an empty field value falls back to the literal. */
  function GroupKey(x: Expense, f: Field): string
  {
    if FieldValue(x, f) == "" then Uncategorized else FieldValue(x, f)
  }

  function KeyBy(f: Field): Expense -> string
  {
    x => GroupKey(x, f)
  }

  /** `groupSum(items, key)`: each key with the sum of its records' amounts,
      keys in order of first occurrence. */
  function GroupSum(items: seq<Expense>, f: Field): seq<(string, int)>
  {
    Tally(Pairs(items, KeyBy(f)))
  }

  /** Each key occurs once, is never empty, and is the (defaulted) field value of some record;
      each record's key is present. */
  lemma GroupSumKeys(items: seq<Expense>, f: Field)
    ensures DistinctKeys(GroupSum(items, f))
    ensures forall j :: 0 <= j < |GroupSum(items, f)| ==> GroupSum(items, f)[j].0 != ""
    ensures forall k :: k in KeysOf(GroupSum(items, f)) <==>
      exists i :: 0 <= i < |items| && GroupKey(items[i], f) == k
  {
    var g := GroupSum(items, f);
    forall k ensures k in KeysOf(g) <==> exists i :: 0 <= i < |items| && GroupKey(items[i], f) == k {
      GroupSumHasKey(items, f, k);
    }
    forall j | 0 <= j < |g| ensures g[j].0 != "" {
      assert KeysOf(g)[j] == g[j].0;
      GroupSumHasKey(items, f, g[j].0);
      var i :| 0 <= i < |items| && GroupKey(items[i], f) == g[j].0;
    }
  }

  lemma GroupSumHasKey(items: seq<Expense>, f: Field, k: string)
    ensures k in KeysOf(GroupSum(items, f)) <==> exists i :: 0 <= i < |items| && GroupKey(items[i], f) == k
  {
    var p := Pairs(items, KeyBy(f));
    if k in KeysOf(GroupSum(items, f)) {
      assert k in KeysOf(p);
      var i :| 0 <= i < |p| && KeysOf(p)[i] == k;
      assert GroupKey(items[i], f) == k;
    }
    if exists i :: 0 <= i < |items| && GroupKey(items[i], f) == k {
      var i :| 0 <= i < |items| && GroupKey(items[i], f) == k;
      assert KeysOf(p)[i] == k;
    }
  }

  /** Every group holds the sum of the amounts of exactly the records with its key. */
  lemma GroupSumValues(items: seq<Expense>, f: Field)
    ensures forall j :: 0 <= j < |GroupSum(items, f)| ==>
      GroupSum(items, f)[j].1 == Total(Where(items, KeyBy(f), GroupSum(items, f)[j].0))
  {
    var g := GroupSum(items, f);
    TallyEntries(Pairs(items, KeyBy(f)));
    forall j | 0 <= j < |g| ensures g[j].1 == Total(Where(items, KeyBy(f), g[j].0)) {
      SumForPairs(items, KeyBy(f), g[j].0);
    }
  }

  /** The group sums add up to the total that `renderStats` shows. */
  lemma GroupSumTotal(items: seq<Expense>, f: Field)
    ensures SumValues(GroupSum(items, f)) == Total(items)
  {
    TallyTotal(Pairs(items, KeyBy(f)));
    PairsTotal(items, KeyBy(f));
  }

  /** Groups are listed in the order in which their keys first occur among the records. */
  lemma GroupSumFirstOccurrence(items: seq<Expense>, f: Field)
    ensures forall a, b :: 0 <= a < b < |GroupSum(items, f)| ==>
      FirstIndex(KeysOf(Pairs(items, KeyBy(f))), GroupSum(items, f)[a].0) <
      FirstIndex(KeysOf(Pairs(items, KeyBy(f))), GroupSum(items, f)[b].0)
  {
    TallyFirstOccurrence(Pairs(items, KeyBy(f)));
  }
}
