/** The stored record list and the handlers that change it: submit
    (script.js:199-219), delete (script.js:88-95), reset (script.js:221-226),
    import (script.js:247-262) and export (script.js:236-244). The list that
    `getData`/`setData` keep in `localStorage` is the `records` field. */
module Store {

  import opened Wrappers
  import opened Expenses
  import opened Text
  import opened Filters
  import opened Csv

  /** The form inputs at the moment of submission. `amount` is None when the
      number field is empty. */
  datatype Form = Form(
    amount: Option<int>,
    date: string,
    category: string,
    description: string,
    payment: string,
    mood: string)

  /** `!amount.value || !mood.value || !dateEl.value` is false. */
  predicate FormComplete(form: Form)
  {
    form.amount.Some? && form.mood != [] && form.date != []
  }

  /** The record the submit handler builds; `id` is the freshly generated identifier. */
  function MakeItem(id: string, form: Form): (x: Expense)
    requires FormComplete(form)
    ensures x.id == id && x.amount == form.amount.value && x.date == form.date
    ensures x.payment == form.payment && x.mood == form.mood
    ensures x.category == Trim(form.category) && x.description == Trim(form.description)
  {
    Expense(id, form.amount.value, form.date, Trim(form.category), Trim(form.description), form.payment, form.mood)
  }

  /** `arr.filter((x) => x.id !== id)`. */
  function WithoutId(records: seq<Expense>, id: string): (r: seq<Expense>)
    ensures |r| <= |records|
  {
    if records == [] then []
    else (if records[0].id != id then [records[0]] else []) + WithoutId(records[1..], id)
  }

  /** How many records carry `id`. */
  function CountId(records: seq<Expense>, id: string): nat
  {
    if records == [] then 0
    else (if records[0].id == id then 1 else 0) + CountId(records[1..], id)
  }

  /** What the file picker and `JSON.parse` delivered. */
  datatype ImportPayload =
    | NoFile
    | ParseError(message: string)
    | NotAnArray
    | RecordArray(items: seq<Expense>)

  const InvalidFormat: string := "Invalid JSON format"

  class ExpenseStore {
    var records: seq<Expense>

    /** `getData()` before anything was saved: the empty list. */
    constructor()
      ensures records == []
    {
      records := [];
    }

    /** The submit handler: a complete form appends one record at the end; an
        incomplete one changes nothing. */
    method Submit(id: string, form: Form) returns (added: bool)
      modifies this
      ensures added <==> FormComplete(form)
      ensures added ==> records == old(records) + [MakeItem(id, form)]
      ensures !added ==> records == old(records)
    {
      if form.amount.None? || form.mood == [] || form.date == [] {
        return false;
      }
      var item := MakeItem(id, form);
      var arr := records;
      arr := arr + [item];
      records := arr;
      added := true;
    }

    /** A delete button: every record with that id goes, the rest stay in order. */
    method DeleteById(id: string)
      modifies this
      ensures records == WithoutId(old(records), id)
    {
      records := WithoutId(records, id);
    }

    /** The reset button: `localStorage.removeItem` once the user confirms. */
    method Reset(confirmed: bool)
      modifies this
      ensures records == if confirmed then [] else old(records)
    {
      if confirmed {
        records := [];
      }
    }

    /** The import handler: an array replaces the whole list; anything else
        leaves it alone. The result is the alert text, None when no file was
        chosen. */
    method Import(payload: ImportPayload) returns (alert: Option<string>)
      modifies this
      ensures payload.RecordArray? ==> records == payload.items && alert == Some("Import successful!")
      ensures !payload.RecordArray? ==> records == old(records)
      ensures payload.NoFile? <==> alert.None?
      ensures payload.ParseError? ==> alert == Some("Import failed: " + payload.message)
      ensures payload.NotAnArray? ==> alert == Some("Import failed: " + InvalidFormat)
    {
      match payload
      case NoFile =>
        return None;
      case ParseError(message) =>
        return Some("Import failed: " + message);
      case NotAnArray =>
        return Some("Import failed: " + InvalidFormat);
      case RecordArray(items) =>
        records := items;
        return Some("Import successful!");
    }

    /** The export button: the CSV text of every stored record, filters aside.
        It has one line more than there are records and reads back as their fields. */
    method ExportCsv() returns (text: string)
      ensures text == Export(records)
      ensures |Split(text, '\n')| == |records| + 1
      ensures ParseExport(text) == Some(FieldTable(records))
    {
      text := Export(records);
      ExportLines(records);
      ExportReadsBack(records);
    }
  }

  // ---------------------------------------------------------------- properties

  /** Deleting keeps exactly the records with another id, in their order. */
  lemma {:induction false} DeleteKeepsOthers(records: seq<Expense>, id: string)
    ensures forall x :: x in WithoutId(records, id) <==> x in records && x.id != id
    ensures IsSubsequence(WithoutId(records, id), records)
  {
    if records != [] {
      DeleteKeepsOthers(records[1..], id);
      assert records == [records[0]] + records[1..];
      var r := WithoutId(records, id);
      if records[0].id != id {
        assert r[0] == records[0] && r[1..] == WithoutId(records[1..], id);
      } else {
        assert r == WithoutId(records[1..], id);
      }
    }
  }

  /** Deleting an id no record carries leaves the list as it was. */
  lemma {:induction false} DeleteMissingId(records: seq<Expense>, id: string)
    requires forall i :: 0 <= i < |records| ==> records[i].id != id
    ensures WithoutId(records, id) == records
  {
    if records != [] {
      DeleteMissingId(records[1..], id);
      assert [records[0]] + records[1..] == records;
    }
  }

  /** Deleting removes as many records as carry the id; with unique ids, one. */
  lemma {:induction false} DeleteCount(records: seq<Expense>, id: string)
    ensures |WithoutId(records, id)| == |records| - CountId(records, id)
  {
    if records != [] {
      DeleteCount(records[1..], id);
    }
  }

  /** Deleting the same id twice is the same as deleting it once. */
  lemma {:induction false} DeleteIdempotent(records: seq<Expense>, id: string)
    ensures WithoutId(WithoutId(records, id), id) == WithoutId(records, id)
  {
    DeleteKeepsOthers(records, id);
    var r := WithoutId(records, id);
    DeleteMissingId(r, id);
  }
}
