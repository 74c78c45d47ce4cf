/** The data behind the three charts of `renderCharts` (script.js:143-183):
    spend per mood, spend per category, and spend per calendar day. */
module Charts {

  import opened Expenses
  import opened Aggregate
  import opened Text

  /** `Object.keys(byX)` and `Object.values(byX)` of a group sum. */
  function Series(items: seq<Expense>, f: Field): (seq<string>, seq<int>)
  {
    var g := GroupSum(items, f);
    (KeysOf(g), seq(|g|, j requires 0 <= j < |g| => g[j].1))
  }

  /** The bar and doughnut charts: one distinct label per group, each paired
      with the sum of its records. */
  lemma SeriesSpec(items: seq<Expense>, f: Field)
    ensures var (labels, values) := Series(items, f);
      && |labels| == |values|
      && (forall i, j :: 0 <= i < j < |labels| ==> labels[i] != labels[j])
      && (forall j :: 0 <= j < |labels| ==> values[j] == Total(Where(items, KeyBy(f), labels[j])))
      && (forall k :: k in labels <==> exists i :: 0 <= i < |items| && GroupKey(items[i], f) == k)
  {
    var g := GroupSum(items, f);
    GroupSumKeys(items, f);
    GroupSumValues(items, f);
    var series := Series(items, f);
    var labels, values := series.0, series.1;
    forall i, j | 0 <= i < j < |labels| ensures labels[i] != labels[j] {
      assert labels[i] == g[i].0 && labels[j] == g[j].0;
    }
    forall j | 0 <= j < |labels| ensures values[j] == Total(Where(items, KeyBy(f), labels[j])) {
      assert labels[j] == g[j].0 && values[j] == g[j].1;
    }
  }

  /** `new Date(x.date).toISOString().slice(0, 10)` for an ISO date string. */
  function DayKey(x: Expense): string
  {
    Prefix(x.date, 10)
  }

  function DayKeyOf(): Expense -> string
  {
    (x: Expense) => DayKey(x)
  }

  /** `byDate`: the summed amount per day on which some record falls. */
  function ByDate(items: seq<Expense>): map<string, int>
  {
    SumsBy(items, DayKeyOf())
  }

  /** The days of `byDate` are exactly the days on which some record falls. */
  lemma ByDateKeys(items: seq<Expense>, d: string)
    ensures d in ByDate(items) <==> exists i :: 0 <= i < |items| && DayKey(items[i]) == d
  {
    SumsByKeys(items, DayKeyOf(), d);
  }

  /** Each day of `byDate` holds the sum of the amounts of the records on that day. */
  lemma ByDateValues(items: seq<Expense>, d: string)
    requires d in ByDate(items)
    ensures ByDate(items)[d] == Total(Where(items, DayKeyOf(), d))
  {
    SumsByValues(items, DayKeyOf(), d);
  }

  /** The day of each record, in record order. */
  function Days(items: seq<Expense>): seq<string>
  {
    seq(|items|, i requires 0 <= i < |items| => DayKey(items[i]))
  }

  /** `Object.keys(byDate)`: each record day once, in the order the keys were first set. */
  function DayOrder(items: seq<Expense>): seq<string>
  {
    if items == [] then []
    else
      var n := |items| - 1;
      var ks := DayOrder(items[..n]);
      var d := DayKey(items[n]);
      if d in ks then ks else ks + [d]
  }

  /** The key order lists every record day, each once, in order of first occurrence. */
  lemma {:induction false} DayOrderSpec(items: seq<Expense>)
    ensures forall d :: d in DayOrder(items) <==> d in Days(items)
    ensures forall a, b :: 0 <= a < b < |DayOrder(items)| ==> DayOrder(items)[a] != DayOrder(items)[b]
    ensures InFirstOrder(DayOrder(items), Days(items))
  {
    if items != [] {
      var n := |items| - 1;
      DayOrderSpec(items[..n]);
      var ks, ds, d := DayOrder(items[..n]), Days(items[..n]), DayKey(items[n]);
      assert Days(items) == ds + [d];
      KeyOrderStep(ds, ks, d);
      if d !in ks {
        var r := ks + [d];
        forall a, b | 0 <= a < b < |r| ensures r[a] != r[b] {
          if b == |ks| {
            assert r[a] == ks[a];
          } else {
            assert r[a] == ks[a] && r[b] == ks[b];
          }
        }
      }
    }
  }

  /** The `forEach` that fills `byDate`, together with the order in which its
      keys were first set, which `Object.keys` reports. */
  method SumByDay(items: seq<Expense>) returns (byDate: map<string, int>, keys: seq<string>)
    ensures byDate == ByDate(items)
    ensures keys == DayOrder(items)
    ensures forall d :: d in byDate <==> d in keys
    ensures forall a, b :: 0 <= a < b < |keys| ==> keys[a] != keys[b]
    ensures InFirstOrder(keys, Days(items))
  {
    byDate := map[];
    keys := [];
    var i := 0;
    while i < |items|
      invariant 0 <= i <= |items|
      invariant byDate == SumsBy(items[..i], DayKeyOf())
      invariant keys == DayOrder(items[..i])
      invariant forall d :: d in byDate <==> d in keys
    {
      var d := DayKey(items[i]);
      if d !in byDate {
        keys := keys + [d];
      }
      byDate := byDate[d := (if d in byDate then byDate[d] else 0) + items[i].amount];
      assert items[..i + 1][..i] == items[..i];
      i := i + 1;
    }
    assert items[..i] == items;
    DayOrderSpec(items);
  }

  /** The line chart: `datesSorted = Object.keys(byDate).sort()` and
      `timeValues = datesSorted.map((d) => byDate[d])`. */
  method BucketByDate(items: seq<Expense>) returns (labels: seq<string>, values: seq<int>)
    ensures StrictlyAscending(labels)
    ensures forall d :: d in labels <==> exists i :: 0 <= i < |items| && DayKey(items[i]) == d
    ensures |values| == |labels|
    ensures forall j :: 0 <= j < |labels| ==> values[j] == Total(Where(items, DayKeyOf(), labels[j]))
  {
    var byDate, keys := SumByDay(items);
    labels := SortStrings(keys);
    SortStringsAscending(keys);
    forall d ensures d in labels <==> exists i :: 0 <= i < |items| && DayKey(items[i]) == d {
      assert d in labels <==> d in multiset(keys);
      ByDateKeys(items, d);
    }
    forall j | 0 <= j < |labels| ensures labels[j] in byDate {
      assert labels[j] in multiset(labels);
    }
    values := seq(|labels|, j requires 0 <= j < |labels| => byDate[labels[j]]);
    forall j | 0 <= j < |labels| ensures values[j] == Total(Where(items, DayKeyOf(), labels[j])) {
      ByDateValues(items, labels[j]);
    }
  }
}
