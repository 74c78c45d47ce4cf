/** `renderInsights` (script.js:108-141): the threshold rules that turn the
    filtered records into a few sentences. */
module InsightRules {

  import opened Wrappers
  import opened Expenses
  import opened Aggregate
  import opened Text

  /** One sentence of the insight box. */
  datatype Insight =
    | NotEnoughData
    | SpendMostWhen(mood: string)
    | StressedAverageHigher(average: real)
    | PeakSpendDay(day: Weekday)

  const DayNames: seq<string> := ["Sun", "Mon", "Tue", "Wed", "Thu", "Fri", "Sat"]

  const NotEnoughDataText: string := "Add a few expenses to unlock insights."

  function Message(i: Insight): string
  {
    match i
    case NotEnoughData => NotEnoughDataText
    case SpendMostWhen(m) => "You spend the most when you feel **" + m + "**."
    case StressedAverageHigher(a) =>
      "Average purchase size is higher when **Stressed** (\U{20B9}" + FixedZero(a) + ")."
    case PeakSpendDay(d) => "Peak spend day: **" + DayNames[d] + "**."
  }

  /** `parts.join(" ")`. */
  function Render(parts: seq<Insight>): string
  {
    Join(seq(|parts|, i requires 0 <= i < |parts| => Message(parts[i])), " ")
  }

  // ---------------------------------------------------------------- averages

  /** The mood of a record, as a key to group or filter by. */
  function MoodOf(): Expense -> string
  {
    (x: Expense) => x.mood
  }

  /** `items.filter((x) => x.mood === mood)`: the records with that mood, each
      as often as in the input and in input order, as `Where` keeps them. */
  function WithMood(items: seq<Expense>, mood: string): (r: seq<Expense>)
    ensures forall x :: x in r <==> x in items && x.mood == mood
    ensures r == Where(items, MoodOf(), mood)
  {
    if items == [] then []
    else
      assert items == [items[0]] + items[1..];
      WhereCons(items[0], items[1..], MoodOf(), mood);
      (if items[0].mood == mood then [items[0]] else []) + WithMood(items[1..], mood)
  }

  /** `avg`: the sum divided by `arr.length || 1`, so an empty group averages 0. */
  function Average(xs: seq<Expense>): real
  {
    (Total(xs) as real) / ((if |xs| == 0 then 1 else |xs|) as real)
  }

  // ---------------------------------------------------------------- day of week

  /** The weekday of a record, given the weekday of each date string. */
  function WeekdayKey(weekday: string -> Weekday): Expense -> Weekday
  {
    (x: Expense) => weekday(x.date)
  }

  /** `byDow`: summed amount per weekday that occurs among the records. */
  function DaySums(items: seq<Expense>, weekday: string -> Weekday): map<Weekday, int>
  {
    SumsBy(items, WeekdayKey(weekday))
  }

  /** `Object.entries` of an object with integer keys: ascending by key. */
  function WeekdayEntries(m: map<Weekday, int>, from: nat): seq<(Weekday, int)>
    decreases 7 - from
  {
    if from >= 7 then []
    else (if from in m then [(from as Weekday, m[from])] else []) + WeekdayEntries(m, from + 1)
  }

  /** Each entry is a weekday of the object, from `from` on, with its sum. */
  lemma {:induction false} WeekdayEntriesSound(m: map<Weekday, int>, from: nat)
    ensures forall i :: 0 <= i < |WeekdayEntries(m, from)| ==>
      var e := WeekdayEntries(m, from)[i]; from <= e.0 && e.0 in m && e.1 == m[e.0]
    decreases 7 - from
  {
    if from < 7 {
      WeekdayEntriesSound(m, from + 1);
    }
  }

  predicate AscendingDays(es: seq<(Weekday, int)>)
  {
    forall i, j :: 0 <= i < j < |es| ==> es[i].0 < es[j].0
  }

  /** The entries are in ascending order of weekday. */
  lemma {:induction false} WeekdayEntriesAscending(m: map<Weekday, int>, from: nat)
    ensures AscendingDays(WeekdayEntries(m, from))
    decreases 7 - from
  {
    if from < 7 {
      WeekdayEntriesSound(m, from + 1);
      WeekdayEntriesAscending(m, from + 1);
      if from in m {
        PrependAscending((from as Weekday, m[from]), WeekdayEntries(m, from + 1));
      }
    }
  }

  lemma PrependAscending(e: (Weekday, int), rest: seq<(Weekday, int)>)
    requires forall i :: 0 <= i < |rest| ==> e.0 < rest[i].0
    requires AscendingDays(rest)
    ensures AscendingDays([e] + rest)
  {
    var r := [e] + rest;
    forall i, j | 0 <= i < j < |r| ensures r[i].0 < r[j].0 {
      assert r[j] == rest[j - 1];
      if i > 0 {
        assert r[i] == rest[i - 1];
      }
    }
  }

  /** Every weekday of the object, from `from` on, has an entry. */
  lemma {:induction false} WeekdayEntriesComplete(m: map<Weekday, int>, from: nat, d: Weekday)
    requires d in m && from <= d
    ensures exists i :: 0 <= i < |WeekdayEntries(m, from)| && WeekdayEntries(m, from)[i].0 == d
    decreases 7 - from
  {
    var r := WeekdayEntries(m, from);
    if d == from {
      assert r[0].0 == d;
    } else {
      WeekdayEntriesComplete(m, from + 1, d);
      var rest := WeekdayEntries(m, from + 1);
      var k :| 0 <= k < |rest| && rest[k].0 == d;
      var h := if from in m then 1 else 0;
      assert r[k + h] == rest[k];
    }
  }

  /** `+maxDow || 0`: the first weekday after sorting the entries by sum, or Sunday. */
  function PeakWeekday(m: map<Weekday, int>): Weekday
  {
    match TopEntry(WeekdayEntries(m, 0))
    case None => 0
    case Some(e) => e.0
  }

  /** For any weekday sums that are not empty, the peak day is one of them with
      the largest sum, and every lower weekday has a strictly smaller sum. */
  lemma PeakWeekdayIsFirstMax(m: map<Weekday, int>)
    requires m != map[]
    ensures PeakWeekday(m) in m
    ensures forall d :: d in m ==> m[d] <= m[PeakWeekday(m)]
    ensures forall d :: d in m && d < PeakWeekday(m) ==> m[d] < m[PeakWeekday(m)]
  {
    var es := WeekdayEntries(m, 0);
    WeekdayEntriesSound(m, 0);
    WeekdayEntriesAscending(m, 0);
    var d0 :| d0 in m;
    WeekdayEntriesComplete(m, 0, d0);
    TopEntryIsFirstMax(es);
    var i := FirstMaxIndex(es);
    var peak := es[i].0;
    assert PeakWeekday(m) == peak;
    forall d | d in m ensures m[d] <= m[peak] && (d < peak ==> m[d] < m[peak]) {
      WeekdayEntriesComplete(m, 0, d);
      var j :| 0 <= j < |es| && es[j].0 == d;
      assert es[j].1 == m[d] && es[i].1 == m[peak];
      if d < peak {
        assert j != i;
        assert j < i;
      }
    }
  }

  // ---------------------------------------------------------------- the rules

  /** The figures `renderInsights` computes before it writes any sentence. */
  datatype Figures = Figures(
    count: nat,
    top: Option<(string, int)>,
    stressedAvg: real,
    calmAvg: real,
    happyAvg: real,
    peakDay: Weekday)

  function Gather(items: seq<Expense>, weekday: string -> Weekday): Figures
  {
    Figures(
      |items|,
      TopEntry(GroupSum(items, ByMood)),
      Average(WithMood(items, "Stressed")),
      Average(WithMood(items, "Calm")),
      Average(WithMood(items, "Happy")),
      PeakWeekday(DaySums(items, weekday)))
  }

  /** `stressedAvg > calmAvg && stressedAvg > happyAvg`. */
  predicate StressedStandsOut(f: Figures)
  {
    f.stressedAvg > f.calmAvg && f.stressedAvg > f.happyAvg
  }

  /** The sentences for the given figures: the notice below three records,
      otherwise the top mood, the optional Stressed sentence and the peak day. */
  function Sentences(f: Figures): seq<Insight>
  {
    if f.count < 3 then [NotEnoughData]
    else
      (if f.top.Some? then [SpendMostWhen(f.top.value.0)] else [])
      + (if StressedStandsOut(f) then [StressedAverageHigher(f.stressedAvg)] else [])
      + [PeakSpendDay(f.peakDay)]
  }

  /** What `renderInsights` shows for the records. */
  function Insights(items: seq<Expense>, weekday: string -> Weekday): seq<Insight>
  {
    Sentences(Gather(items, weekday))
  }

  /** The `forEach` that fills `byDow` (script.js:125-129). */
  method CountByWeekday(items: seq<Expense>, weekday: string -> Weekday) returns (byDow: map<Weekday, int>)
    ensures byDow == DaySums(items, weekday)
  {
    byDow := map[];
    var i := 0;
    while i < |items|
      invariant 0 <= i <= |items|
      invariant byDow == SumsBy(items[..i], WeekdayKey(weekday))
    {
      var d := weekday(items[i].date);
      byDow := byDow[d := (if d in byDow then byDow[d] else 0) + items[i].amount];
      assert items[..i + 1][..i] == items[..i];
      i := i + 1;
    }
    assert items[..i] == items;
  }

  /** The `parts` array that grows with `push`, for figures already computed. */
  method WriteSentences(f: Figures) returns (parts: seq<Insight>)
    ensures parts == Sentences(f)
  {
    if f.count < 3 {
      return [NotEnoughData];
    }
    ghost var topPart := if f.top.Some? then [SpendMostWhen(f.top.value.0)] else [];
    ghost var stressedPart := if StressedStandsOut(f) then [StressedAverageHigher(f.stressedAvg)] else [];
    parts := [];
    if f.top.Some? {
      parts := parts + [SpendMostWhen(f.top.value.0)];
    }
    assert parts == topPart;
    if f.stressedAvg > f.calmAvg && f.stressedAvg > f.happyAvg {
      parts := parts + [StressedAverageHigher(f.stressedAvg)];
    }
    assert parts == topPart + stressedPart;
    parts := parts + [PeakSpendDay(f.peakDay)];
  }

  /** `renderInsights` step by step: the early return, the sorted mood groups,
      the three averages, `byDow`, `maxDow`, then the sentences. */
  method DeriveInsights(items: seq<Expense>, weekday: string -> Weekday) returns (parts: seq<Insight>)
    ensures parts == Insights(items, weekday)
  {
    if |items| < 3 {
      return [NotEnoughData];
    }
    var sorted := TopEntry(GroupSum(items, ByMood));
    var stressedAvg := Average(WithMood(items, "Stressed"));
    var calmAvg := Average(WithMood(items, "Calm"));
    var happyAvg := Average(WithMood(items, "Happy"));
    var byDow := CountByWeekday(items, weekday);
    var maxDow := PeakWeekday(byDow);
    parts := WriteSentences(Figures(|items|, sorted, stressedAvg, calmAvg, happyAvg, maxDow));
  }

  // ---------------------------------------------------------------- properties

  /** With fewer than three records the box shows exactly the fixed notice,
      whatever the records hold. */
  lemma FewRecordsGiveNotice(items: seq<Expense>, weekday: string -> Weekday)
    requires |items| < 3
    ensures Render(Insights(items, weekday)) == "Add a few expenses to unlock insights."
  {
  }

  /** With three or more records and some mood group: the top-mood sentence
      first, then the Stressed sentence exactly when the Stressed average stands
      out, then the peak-day sentence. */
  lemma SentenceOrder(f: Figures)
    requires f.count >= 3 && f.top.Some?
    ensures var parts := Sentences(f);
      && |parts| == (if StressedStandsOut(f) then 3 else 2)
      && parts[0] == SpendMostWhen(f.top.value.0)
      && (StressedStandsOut(f) ==> parts[1] == StressedAverageHigher(f.stressedAvg))
      && parts[|parts| - 1] == PeakSpendDay(f.peakDay)
  {
  }

  /** Some sentence of the list is the Stressed one. */
  predicate HasStressedSentence(parts: seq<Insight>)
  {
    exists i :: 0 <= i < |parts| && parts[i].StressedAverageHigher?
  }

  /** The Stressed sentence is present if and only if there are at least three
      records and the Stressed average beats both the Calm and the Happy average. */
  lemma StressedSentenceIff(f: Figures)
    ensures HasStressedSentence(Sentences(f)) <==> f.count >= 3 && StressedStandsOut(f)
  {
    var parts := Sentences(f);
    if f.count >= 3 && StressedStandsOut(f) {
      var i := if f.top.Some? then 1 else 0;
      assert parts[i].StressedAverageHigher?;
    }
  }

  /** For three or more records the mood named first is a mood group with the
      largest spend, ties going to the mood seen first. */
  lemma InsightOrder(items: seq<Expense>, weekday: string -> Weekday)
    requires |items| >= 3
    ensures var f := Gather(items, weekday);
      var g := GroupSum(items, ByMood);
      && g != []
      && f.top == Some(g[FirstMaxIndex(g)])
      && Sentences(f)[0] == SpendMostWhen(g[FirstMaxIndex(g)].0)
  {
    var g := GroupSum(items, ByMood);
    GroupSumKeys(items, ByMood);
    assert GroupKey(items[0], ByMood) in KeysOf(g);
    TopEntryIsFirstMax(g);
    SentenceOrder(Gather(items, weekday));
  }

  /** An empty group averages 0, and a group of records averages their total
      over their number. */
  lemma AverageSpec(xs: seq<Expense>)
    ensures xs == [] ==> Average(xs) == 0.0
    ensures xs != [] ==> Average(xs) * (|xs| as real) == Total(xs) as real
  {
  }

  /** Each weekday's sum is the sum of the amounts of the records on that day. */
  lemma DaySumsValues(items: seq<Expense>, weekday: string -> Weekday, d: Weekday)
    requires d in DaySums(items, weekday)
    ensures DaySums(items, weekday)[d] == Total(Where(items, WeekdayKey(weekday), d))
  {
    SumsByValues(items, WeekdayKey(weekday), d);
  }

  /** The peak day is a weekday on which some record falls, its sum is the
      largest of all weekdays, and every earlier weekday has a strictly smaller sum. */
  lemma PeakDaySpec(items: seq<Expense>, weekday: string -> Weekday)
    requires items != []
    ensures PeakWeekday(DaySums(items, weekday)) in DaySums(items, weekday)
    ensures exists i :: 0 <= i < |items| && weekday(items[i].date) == PeakWeekday(DaySums(items, weekday))
    ensures var m := DaySums(items, weekday);
      forall d :: d in m ==> m[d] <= m[PeakWeekday(m)]
    ensures var m := DaySums(items, weekday);
      forall d :: d in m && d < PeakWeekday(m) ==> m[d] < m[PeakWeekday(m)]
  {
    var key := WeekdayKey(weekday);
    var m := DaySums(items, weekday);
    SumsByKeys(items, key, key(items[0]));
    PeakWeekdayIsFirstMax(m);
    var peak := PeakWeekday(m);
    SumsByKeys(items, key, peak);
    var i :| 0 <= i < |items| && key(items[i]) == peak;
  }
}
