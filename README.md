# Emotional expense tracker — verified model of the record logic

The tracker keeps a list of expense records, each tagged with the mood the
user felt when spending. It shows the records through three filters (free
text, mood, month). For the filtered list it derives three things: summary
figures (total, count, top mood), a few insight sentences, and the data for
three charts. The user can add, delete, reset, import and export records.

This project models that record logic of `script.js` in Dafny and proves what
it promises. The modules are:

- `Expenses`: the record and the amount total.
- `Text`: the JavaScript string operations the logic relies on. These are
  `toLowerCase`, `includes`, `slice`, `trim`, `join`, `String(n)`,
  `toFixed(0)` and the default `sort()`. `script.js` never splits text:
  `Split` and `ParseInt` belong to the CSV reader, the inverse side of the
  export round trip.
- `Aggregate`: the `reduce` of `groupSum`, the `byDow`/`byDate` objects, and
  the stable descending sort of `Object.entries` whose first entry is the
  "top" one.
- `Filters`: `applyFilters`.
- `Summary`: the figures of `renderStats`.
- `InsightRules`: `renderInsights`. Its `forEach` and its `push` sequence are
  methods proved against a specification function.
- `Charts`: the label/value series of `renderCharts`. The per-day bucketing is
  a method with a loop.
- `Csv`: the export text, and a reader for it that serves as its inverse.
- `Store`: the stored list as a class with one method per handler.

Inputs the page reads from the browser are parameters:

- the weekday of a date (`getDay`)
- the generated record id
- the user's answer to the reset confirmation
- what `JSON.parse` made of an imported file

Amounts are whole rupees, as the tiles and sentences print them after "₹".

## Model

| member | source | states |
|---|---|---|
| Text.ToLower | script.js:53-57 | lower-casing keeps the length and lowers each character on its own |
| Text.Contains | script.js:56-57 | `includes` holds exactly when the query occurs at some position of the text |
| Text.Prefix | script.js:63 | `slice(0, n)` is a prefix of the string, of length n or the whole string when shorter |
| Text.Trim | script.js:207-208 | `trim` yields the part of the input between leading and trailing whitespace; it does not start or end with whitespace, and it is empty exactly when the input is all whitespace |
| Text.SplitJoin | script.js:239-242 | splitting a newline-join at newlines gives back the lines when no line contains a newline |
| Text.IntToString | script.js:241 | `String(n)` for an integer; no contract of its own: IntToStringRoundTrip states it |
| Text.FixedZero | script.js:137 | `toFixed(0)` (also at script.js:105): the sign, then the digits of RoundHalfUp of the magnitude; no contract of its own: RoundHalfUp states the rounding |
| Text.IntToStringRoundTrip | script.js:241 | `String(amount)` reads back as the same integer |
| Text.RoundHalfUp | script.js:137 | `toFixed(0)` picks the integer nearest to the value, the larger one on a tie |
| Text.SortStrings | script.js:164 | `sort()` returns a permutation of the keys |
| Text.SortStringsAscending | script.js:164 | sorting distinct keys yields them in strictly ascending order |
| Aggregate.Accumulate | script.js:191-194 | one reduce step adds a key only when it is new, at the end, and raises the running total by the amount |
| Aggregate.AccumulateLookup | script.js:193 | one reduce step raises the sum under the record's key by its amount and leaves every other sum alone |
| Aggregate.Tally | script.js:190-196 | the reduce result has each key once, and exactly the keys of the input |
| Aggregate.TallyEntries | script.js:190-196 | each key of the reduce result holds the sum of exactly the pairs with that key |
| Aggregate.TallyTotal | script.js:190-196 | the sums of the reduce result add up to the sum of all pairs |
| Aggregate.TallyFirstOccurrence | script.js:190-196 | keys appear in the order of their first occurrence in the input |
| Aggregate.SumsByKeys | script.js:126-128 | an object filled by `obj[k] = (obj[k] \|\| 0) + amount` has a key exactly for each key some record has |
| Aggregate.SumsByValues | script.js:126-128 | in such an object each key holds the total of exactly the records with that key |
| Aggregate.SumForPairs | script.js:193 | summing the pairs under a key equals totalling the records that have that key |
| Aggregate.SortByValue | script.js:104 | sorting the entries by value yields a permutation of them |
| Aggregate.SortByValueDescending | script.js:104 | sorting the entries by value yields them from largest to smallest |
| Aggregate.TopEntry | script.js:115-116 | `Object.entries(..).sort((a, b) => b[1] - a[1])[0]`, also at script.js:104; no contract of its own: TopEntryIsFirstMax states which entry it is |
| Aggregate.TopEntryIsFirstMax | script.js:115-116 | the first entry after sorting is absent exactly for no entries; otherwise it is an entry with the largest value, and no earlier entry has that value (the sort is stable) |
| Aggregate.GroupSum | script.js:190-196 | `groupSum(items, key)`; no contract of its own: GroupSumKeys, GroupSumValues, GroupSumTotal and GroupSumFirstOccurrence state its keys, sums, total and order |
| Aggregate.GroupSumKeys | script.js:190-196 | group keys are distinct and non-empty; a key is present exactly when some record's field value, or "Uncategorized" for an empty one, is that key |
| Aggregate.GroupSumValues | script.js:190-196 | each group's value is the total of exactly the records with its key |
| Aggregate.GroupSumTotal | script.js:99 | the group sums add up to the total that `renderStats` shows |
| Aggregate.GroupSumFirstOccurrence | script.js:190-196 | groups are listed in the order in which their keys first occur among the records |
| Filters.ApplyFilters | script.js:51-67 | the filtered list is never longer than the input |
| Filters.FilterIsSubsequence | script.js:51-67 | the kept records are an order-preserving subsequence of the input |
| Filters.FilterKeepsEveryCopy | script.js:51-67 | each record occurs in the result exactly as often as in the input when it meets all three criteria, and not at all otherwise; with FilterIsSubsequence this fixes the result completely |
| Filters.FilterKeepsExactlyMatches | script.js:52-66 | a record is kept exactly when it is in the input and meets the text, mood and month criteria together |
| Filters.EmptyCriteriaKeepAll | script.js:53-63 | with all three criteria empty the input comes back unchanged |
| Filters.FilterIdempotent | script.js:51-67 | filtering a filtered list again with the same criteria changes nothing |
| Summary.ComputeStats | script.js:99-104 | the figures `renderStats` shows; no contract of its own: StatsSpec states count, total and top mood |
| Summary.StatsSpec | script.js:98-105 | count is the number of records; the total equals both the mood-group and the category-group sums; the top mood is absent exactly when there are no records, and otherwise is the first mood group with the largest sum |
| Summary.TopMoodText | script.js:105 | the top-mood tile shows the dash exactly when there is no top mood |
| InsightRules.Message | script.js:135-139 | the text of each sentence; no contract of its own, the texts are the source's literals |
| InsightRules.Render | script.js:140 | `parts.join(" ")`; no contract of its own |
| InsightRules.WithMood | script.js:120-122 | the mood filter keeps exactly the records with that mood, each as often as in the input and in input order (it equals `Where` by mood) |
| InsightRules.WeekdayEntriesAscending | script.js:130 | `Object.entries(byDow)` lists the integer weekday keys in ascending order |
| InsightRules.PeakWeekday | script.js:130-131 | `+maxDow \|\| 0`; no contract of its own: PeakWeekdayIsFirstMax and PeakDaySpec state which weekday it is |
| InsightRules.PeakWeekdayIsFirstMax | script.js:130-131 | the peak day is a weekday of `byDow` with the largest sum, and every lower weekday has a strictly smaller sum |
| InsightRules.Gather | script.js:113-131 | the figures the rules look at (count, top mood, three averages, peak day); no contract of its own: InsightOrder, AverageSpec and PeakDaySpec state them |
| InsightRules.Sentences | script.js:109-139 | the sentence rules; no contract of its own: FewRecordsGiveNotice, SentenceOrder and StressedSentenceIff state them |
| InsightRules.Insights | script.js:108-141 | `renderInsights` as a function; no contract of its own: DeriveInsights is proved equal to it |
| InsightRules.CountByWeekday | script.js:125-129 | the `forEach` loop fills `byDow` with the per-weekday sums |
| InsightRules.WriteSentences | script.js:133-140 | the `push` sequence produces the sentences the rules prescribe |
| InsightRules.DeriveInsights | script.js:108-141 | the whole of `renderInsights` yields the specified sentence list |
| InsightRules.FewRecordsGiveNotice | script.js:109-112 | with fewer than three records the box shows exactly the fixed notice, whatever the records are |
| InsightRules.SentenceOrder | script.js:134-139 | sentence order: top mood, then the Stressed sentence exactly when it applies, then the peak day |
| InsightRules.StressedSentenceIff | script.js:136-138 | the Stressed sentence appears if and only if there are at least three records and the Stressed average is strictly above both the Calm and the Happy average |
| InsightRules.InsightOrder | script.js:114-135 | with three or more records, the first sentence names the first mood group with the largest spend |
| InsightRules.Average | script.js:119 | `avg`; no contract of its own: AverageSpec states the empty case and average times count equals the total |
| InsightRules.AverageSpec | script.js:119 | an empty group averages 0; otherwise average times count equals the total |
| InsightRules.DaySumsValues | script.js:125-129 | each weekday's sum is the sum of the amounts of the records on that weekday |
| InsightRules.PeakDaySpec | script.js:125-131 | the peak day is the weekday of some record, its sum is the largest, and every lower weekday has a strictly smaller sum |
| Charts.Series | script.js:148-150 | `Object.keys`/`Object.values` of a group sum, for moods here and for categories at script.js:174-176; no contract of its own: SeriesSpec states it |
| Charts.SeriesSpec | script.js:148-150 | the mood and category charts get one distinct label per group, each paired with the total of exactly the records in that group |
| Charts.ByDateKeys | script.js:159-163 | `byDate` has a key exactly for each day on which some record falls |
| Charts.ByDateValues | script.js:159-163 | each day of `byDate` holds the total of exactly the records on that day |
| Charts.SumByDay | script.js:159-163 | the `forEach` loop fills `byDate` as specified and records each key once, in the order keys are first set (the first-occurrence order of the record days) |
| Charts.DayOrderSpec | script.js:159-164 | `Object.keys(byDate)` lists every record day exactly once, in order of first occurrence |
| Charts.BucketByDate | script.js:159-165 | the time chart's labels are exactly the record days, strictly ascending, each paired with that day's total |
| Csv.Fields | script.js:238-241 | a record yields one field per header column |
| Csv.EscapeChar | script.js:241 | every character is written as at least one character |
| Csv.EscapeCharReadsBack | script.js:241 | each escaped character reads back as itself and takes exactly its escape |
| Csv.EscapeReadsBack | script.js:241 | an escaped text followed by the closing quote reads back as that text |
| Csv.QuoteReadsBack | script.js:241 | `JSON.stringify` of a string reads back as that string, whatever follows it |
| Csv.RowReadsBack | script.js:241 | a record line reads back as exactly the fields it was written from, commas and quotes inside fields included |
| Csv.RowHasNoNewline | script.js:241 | no record line contains a raw newline |
| Csv.HeaderHasNoNewline | script.js:238-240 | the header line contains no newline |
| Csv.Export | script.js:238-242 | the CSV text; no contract of its own: ExportLines, ExportReadsBack and HeaderHasNoNewline state it |
| Csv.Quote | script.js:241 | `JSON.stringify` of a string; no contract of its own: QuoteReadsBack states it |
| Csv.ExportLines | script.js:239-242 | the file splits into the header line followed by one line per record, one more line than there are records |
| Csv.ExportReadsBack | script.js:236-242 | reading the file gives every record's seven fields in header order |
| Csv.FieldsReadBack | script.js:241 | a record rebuilt from its written fields is the record itself |
| Csv.EmptyFieldIsTwoQuotes | script.js:241 | an empty field is written as `""` |
| Store.FormComplete | script.js:201 | the submit guard `!amount.value \|\| !mood.value \|\| !dateEl.value` negated; no contract of its own: Submit's ensures state what it decides |
| Store.MakeItem | script.js:203-211 | the new record carries the given id, the form's amount, date, payment and mood, and the trimmed category and description |
| Store.WithoutId | script.js:91 | deleting never lengthens the list |
| Store.ExpenseStore.constructor | script.js:4-7 | before anything is saved the list is empty |
| Store.ExpenseStore.Submit | script.js:199-214 | a complete form appends exactly its record at the end and changes nothing else; an incomplete one changes nothing |
| Store.ExpenseStore.DeleteById | script.js:88-95 | the list becomes the old list without the records carrying the id |
| Store.ExpenseStore.Reset | script.js:221-226 | a confirmed reset empties the list; otherwise it is unchanged |
| Store.ExpenseStore.Import | script.js:247-262 | an array replaces the whole list and reports success; a parse error, a non-array or no file leaves the list unchanged, with the matching alert text or none |
| Store.ExpenseStore.ExportCsv | script.js:236-243 | the export covers every stored record, has one line more than there are records, and reads back as their fields |
| Store.DeleteKeepsOthers | script.js:91 | deleting keeps exactly the records with another id, as an order-preserving subsequence |
| Store.DeleteMissingId | script.js:91 | deleting an id that no record carries leaves the list unchanged |
| Store.DeleteCount | script.js:91 | deleting removes as many records as carry the id |
| Store.DeleteIdempotent | script.js:91 | deleting the same id twice equals deleting it once |

## Left out

- Rendering, event wiring and `formatDate` (script.js:13-40, 69-96, 186-189) are not modelled: they are DOM output. The model gives the values the page displays, not the HTML.
- `localStorage` and the JSON text (script.js:4-10) are not modelled: they are browser I/O. The stored array is the `records` field.
- Import: `JSON.parse`, the file picker and `alert` are browser I/O. What the parse produced is an `ImportPayload` parameter, and the alert text is the method's result.
- Imported array elements: the source accepts any array, whatever its elements. The model assumes each element is a complete record.
- Chart.js objects, `downloadFile`, `confirm`, `crypto.randomUUID` and `Date.now` are calls into the browser. The chart series and the CSV text are modelled; the confirmation and the id are parameters.
- Record order seen by stats, insights and charts: `renderTable` sorts the filtered array in place, newest date first (script.js:71-72), before `renderStats`, `renderInsights` and `renderCharts` see it. The model takes the list in the order it is given. So first-occurrence order and top-mood ties follow whatever order the caller passes, which on the page is the date-descending order.
- Aggregate.Tally: keeps every key in first-occurrence order. JavaScript lists keys that look like array indices (a category such as "2024") first, in ascending numeric order. The model does not reproduce that reordering. Keys named after properties that a plain `{}` inherits from `Object.prototype` are not modelled either: `acc[k] || 0` (script.js:193) reads the inherited value, so a category "constructor" gets a text value, and an assignment to "__proto__" is ignored, so that category goes missing and the group sums no longer add up to the total. The model treats every category text as an ordinary key with a starting sum of 0. The category, which the user types freely, can hit this, and so can a mood: the page offers a fixed list, but an imported file may carry any mood text, which then reaches the top mood (script.js:103-104, 114-116) and the mood chart (script.js:148-150). Weekdays and days are numbers and dates and cannot.
- Dates: `new Date(x.date).toISOString()` is modelled as the first 7 characters of the stored date (month filter) and the first 10 (day bucket). That is what it yields for the `YYYY-MM-DD` strings the form stores. Other date strings, time zones, and the `RangeError` an invalid date raises are not modelled.
- Weekday: `getDay` is the parameter `weekday`, because it depends on date parsing and the local time zone.
- Amounts are integers. JavaScript floating point, the `+x.amount` coercion, `NaN` and the two-decimal `toFixed(2)` of the total tile are not modelled.
- Summary.TopMoodText: writes the top mood's sum with `String`, which equals `toFixed(0)` for an integer. The averages in the Stressed sentence are exact rationals rounded by `RoundHalfUp`.
- Store.ExpenseStore.Submit: the amount field is `Option<int>`, None when the field is empty. Non-integer amount text is not modelled. `form.reset()` and the default date are UI.
- Store.ExpenseStore.Import: assumes that rendering after the import does not throw. In the source, `render()` runs inside the same `try` right after `setData(parsed)` (script.js:252-258). An imported record whose date is not a valid date makes `toISOString()` (script.js:161) throw, so the list is already replaced and yet the alert reads "Import failed: " with the error message. The model reports success whenever an array was parsed.
- Text.ToLower: lowers ASCII letters only. Unicode case mapping is not modelled.
- Text.StrLess: compares Unicode scalar values, whereas the default `sort()` compares UTF-16 code units. The two agree on the ASCII date strings it sorts here.
- Csv.EscapeChar: lone surrogates, which `JSON.stringify` writes as `\uXXXX`, cannot occur in a Dafny string.
- Csv.Fields: `?? ""` replaces an absent field. Model records always carry every field, with "" for an empty one.
- InsightRules.Message: the `**` markers are kept as literal text. How `innerHTML` shows them is not modelled.
- Store.ExpenseStore.DeleteById: removes every record carrying the id, as the `filter` at script.js:91 does, not only the first one.
- Filters.ApplyFilters: keeps the input order, as `Array.prototype.filter` at script.js:52 does.
