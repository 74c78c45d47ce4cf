/** The expense record and the small value types shared by every other module. */
module Expenses {

  /** One stored expense. A text field the record does not carry is the empty
      string; the amount is a whole number of rupees. */
  datatype Expense = Expense(
    id: string,
    amount: int,
    date: string,
    category: string,
    description: string,
    payment: string,
    mood: string)

  /** A day of the week as `Date.getDay` numbers it: 0 is Sunday, 6 is Saturday. */
  type Weekday = d: int | 0 <= d < 7

  /** Sum of the amounts, folded left to right like `items.reduce((s, x) => s + +x.amount, 0)`. */
  function Total(items: seq<Expense>): int
  {
    if items == [] then 0 else Total(items[..|items| - 1]) + items[|items| - 1].amount
  }

  lemma {:induction false} TotalAppend(a: seq<Expense>, b: seq<Expense>)
    ensures Total(a + b) == Total(a) + Total(b)
    decreases |b|
  {
    if b == [] {
      assert a + b == a;
    } else {
      var b' := b[..|b| - 1];
      assert (a + b)[..|a + b| - 1] == a + b';
      TotalAppend(a, b');
    }
  }
}
