/** `renderStats` (script.js:98-106): total, count and the mood with the highest spend. */
module Summary {

  import opened Wrappers
  import opened Expenses
  import opened Aggregate
  import opened Text

  datatype Stats = Stats(total: int, count: nat, topMood: Option<(string, int)>)

  /** The figures behind the three stat tiles. */
  function ComputeStats(items: seq<Expense>): Stats
  {
    Stats(Total(items), |items|, TopEntry(GroupSum(items, ByMood)))
  }

  /** The top-mood tile: `mood · ₹sum`, or a dash when there is no record. */
  function TopMoodText(s: Stats): (t: string)
    ensures t == "\U{2013}" <==> s.topMood.None?
  {
    match s.topMood
    case None => "\U{2013}"
    case Some(e) => e.0 + " \U{00B7} \U{20B9}" + IntToString(e.1)
  }

  /** The count is the number of records; the total equals the sum over the mood
      groups and over the category groups; the top mood is absent exactly when
      there is no record, and otherwise is a group with the largest sum, ties
      going to the mood seen first. */
  lemma StatsSpec(items: seq<Expense>)
    ensures ComputeStats(items).count == |items|
    ensures ComputeStats(items).total == SumValues(GroupSum(items, ByMood))
    ensures ComputeStats(items).total == SumValues(GroupSum(items, ByCategory))
    ensures ComputeStats(items).topMood.None? <==> items == []
    ensures items != [] ==>
      var g := GroupSum(items, ByMood);
      g != [] && ComputeStats(items).topMood == Some(g[FirstMaxIndex(g)])
  {
    var g := GroupSum(items, ByMood);
    GroupSumTotal(items, ByMood);
    GroupSumTotal(items, ByCategory);
    TopEntryIsFirstMax(g);
    if items != [] {
      GroupSumKeys(items, ByMood);
      assert GroupKey(items[0], ByMood) in KeysOf(g);
    }
  }
}
