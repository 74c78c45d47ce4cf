/** `applyFilters` (script.js:51-67): the search box, the mood selector and the
    month picker, applied together to the stored records. */
module Filters {

  import opened Expenses
  import opened Text

  /** The three filter inputs as the user left them; an empty field filters nothing. */
  datatype Criteria = Criteria(search: string, mood: string, month: string)

  const NoCriteria := Criteria("", "", "")

  /** The search text, lower-cased, occurs in the description or in the category. */
  predicate MatchesText(x: Expense, c: Criteria)
  {
    var q := ToLower(c.search);
    q == [] || Contains(ToLower(x.description), q) || Contains(ToLower(x.category), q)
  }

  predicate MatchesMood(x: Expense, c: Criteria)
  {
    c.mood == [] || x.mood == c.mood
  }

  /** The "YYYY-MM" part of the date equals the chosen month. */
  predicate MatchesMonth(x: Expense, c: Criteria)
  {
    c.month == [] || Prefix(x.date, 7) == c.month
  }

  predicate Matches(x: Expense, c: Criteria)
  {
    MatchesText(x, c) && MatchesMood(x, c) && MatchesMonth(x, c)
  }

  /** `data.filter(x => matchesText && matchesMood && matchesMonth)`. */
  function ApplyFilters(data: seq<Expense>, c: Criteria): (r: seq<Expense>)
    ensures |r| <= |data|
  {
    if data == [] then []
    else (if Matches(data[0], c) then [data[0]] else []) + ApplyFilters(data[1..], c)
  }

  /** `r` is `s` with some elements taken out and the rest in their order. */
  predicate IsSubsequence<T(==)>(r: seq<T>, s: seq<T>)
    decreases |s|
  {
    r == [] || (s != [] && ((r[0] == s[0] && IsSubsequence(r[1..], s[1..])) || IsSubsequence(r, s[1..])))
  }

  /** The kept records are an order-preserving subsequence of the input. */
  lemma {:induction false} FilterIsSubsequence(data: seq<Expense>, c: Criteria)
    ensures IsSubsequence(ApplyFilters(data, c), data)
  {
    if data != [] {
      FilterIsSubsequence(data[1..], c);
      var r := ApplyFilters(data, c);
      if Matches(data[0], c) {
        assert r[0] == data[0] && r[1..] == ApplyFilters(data[1..], c);
      } else {
        assert r == ApplyFilters(data[1..], c);
      }
    }
  }

  /** Every kept record meets all three criteria, every record meeting them is
      kept, and every dropped record fails at least one of them. */
  lemma {:induction false} FilterKeepsExactlyMatches(data: seq<Expense>, c: Criteria)
    ensures forall x :: x in ApplyFilters(data, c) <==> x in data && Matches(x, c)
  {
    if data != [] {
      FilterKeepsExactlyMatches(data[1..], c);
      assert data == [data[0]] + data[1..];
    }
  }

  /** Every copy of a matching record is kept and every copy of another one
      dropped: the result holds each record exactly as often as the input
      does when it matches, and not at all otherwise. */
  lemma {:induction false} FilterKeepsEveryCopy(data: seq<Expense>, c: Criteria)
    ensures forall y :: multiset(ApplyFilters(data, c))[y] == if Matches(y, c) then multiset(data)[y] else 0
  {
    if data != [] {
      FilterKeepsEveryCopy(data[1..], c);
      assert data == [data[0]] + data[1..];
    }
  }

  /** With every criterion empty the records come back unchanged. */
  lemma {:induction false} EmptyCriteriaKeepAll(data: seq<Expense>)
    ensures ApplyFilters(data, NoCriteria) == data
  {
    if data != [] {
      EmptyCriteriaKeepAll(data[1..]);
      assert Matches(data[0], NoCriteria);
    }
  }

  /** Filtering an already filtered list with the same criteria changes nothing. */
  lemma {:induction false} FilterIdempotent(data: seq<Expense>, c: Criteria)
    ensures ApplyFilters(ApplyFilters(data, c), c) == ApplyFilters(data, c)
  {
    if data != [] {
      FilterIdempotent(data[1..], c);
      var r := ApplyFilters(data, c);
      if Matches(data[0], c) {
        assert r == [data[0]] + ApplyFilters(data[1..], c);
        assert r[1..] == ApplyFilters(data[1..], c);
      } else {
        assert r == ApplyFilters(data[1..], c);
      }
    }
  }
}
