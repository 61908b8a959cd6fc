# Transform stage of the bank-transaction ETL pipeline

This project models `transform` (etl_pipeline.py:36-81). Its input is the list
of transaction records read from a CSV file. It does one pass over that list:

- each record gets four derived fields, in place;
- the pass accumulates the total amount and per-sender and per-recipient
  counts;
- it returns the records together with a summary.

The summary holds:

- the number of records;
- the total and the average amount;
- the senders and the recipients with the most transactions, at most five
  of each (fewer when there are fewer distinct ones), ties at the cut going to
  the one seen first.

Modules:

- `Etl` (etl.dfy): the records, the summary and the pass itself.
  - `Transform` is the whole function.
  - `EnrichAndCount` is its `for` loop. It works over an array that it
    updates in place, as the loop writes into the dicts it receives.
  - The pure functions `Enrich`, `EnrichAll`, `TotalAmount` and `Summarize`
    state what the loop computes.
- `Currency` (currency.dfy): `f"${amount:.2f}"` on an amount held in whole
  cents, and its inverse.
- `Timestamp` (timestamp.dfy): `datetime.strptime(s, '%Y-%m-%d %H:%M:%S')`
  and the three `strftime` calls. The parse follows CPython's `_strptime`:
  - each directive becomes its regular-expression alternatives
    (`%m` is `1[0-2]|0[1-9]|[1-9]`, `%d` also admits a blank before a
    one-digit day, and the blank in the format matches `\s+`);
  - the match must consume the whole text;
  - `datetime`'s constructor then checks the ranges.

  So one-digit fields, a run of blanks or tabs, and a blank before the day are
  accepted. Seconds 60 and 61 match the pattern but are then rejected.
- `Calendar` (calendar.dfy): the proleptic Gregorian calendar of `datetime`
  (years 1..9999, leap years, month lengths), the ordinal and the weekday
  behind `%A`.
- `Counting` (counting.dfy): a `defaultdict(int)` as a list of
  (key, count) entries in first-seen order.
  - `Increment` is `counts[key] += 1`.
  - `Tally` is the dict after a sequence of increments.
- `Ranking` (ranking.dfy): `dict(sorted(counts.items(), key=count,
  reverse=True)[:5])` as a stable insertion sort by descending count,
  then a prefix.
- `Decimal` (decimal.dfy) and `Wrappers` (wrappers.dfy): digits, zero padding,
  decimal spelling, and `Option`.

The record's dict becomes the datatype `Transaction`:

- the four extracted fields;
- an `enrichment` that is `None` before the transform and `Some` after it.

The exception handler for `ValueError` around the parse becomes the `None`
case of `ParseTimestamp`.

## Model

| member | source | states |
|---|---|---|
| Etl.Transform | etl_pipeline.py:36-81 | An empty batch gives no records and no summary. Otherwise every record is enriched in place, in order, the records are returned, and the summary is `Summarize` of the input batch. |
| Etl.EnrichAndCount | etl_pipeline.py:41-66 | After the loop the array holds `EnrichAll` of its old contents, and the returned list is those records. The total is the sum of the old amounts. The sender and recipient counts are `Tally` of the senders and recipients in record order. |
| Etl.Enrich | etl_pipeline.py:46-59 | Enriching keeps sender, recipient, amount and timestamp and always sets the derived fields. |
| Etl.EnrichAmount | etl_pipeline.py:48 | `amount_usd` reads back as exactly the record's amount. |
| Etl.EnrichDates | etl_pipeline.py:51-59 | A timestamp that parses gives the formatted date and time of the parsed value and its English weekday name. Date and time joined by a blank parse back to the same value. A timestamp that does not parse gives "Unknown" for all three fields. |
| Etl.UnknownExactlyWhenUnparsed | etl_pipeline.py:51-59 | The date field is "Unknown" if and only if the timestamp does not parse. |
| Etl.EnrichCanonical | etl_pipeline.py:52-54 | For a zero-padded timestamp that parses, date + " " + time is the timestamp itself. |
| Etl.MondayExample | etl_pipeline.py:47-55 | A record for $10.00 at 2023-01-02 10:00:00 gets "$10.00", "2023-01-02", "10:00:00", "Monday". |
| Etl.ParsesJanuarySecond | etl_pipeline.py:52 | "2023-01-02 10:00:00" parses to that date and time. |
| Etl.FormatsJanuarySecond | etl_pipeline.py:53-54 | That date and time format as "2023-01-02" and "10:00:00". |
| Etl.JanuarySecondIsMonday | etl_pipeline.py:55 | 2 January 2023 is named "Monday". |
| Etl.TenDollars | etl_pipeline.py:48 | 1000 cents format as "$10.00". |
| Etl.EnrichAllLength | etl_pipeline.py:46-66 | The transformed list has as many records as the input. |
| Etl.EnrichAllAt | etl_pipeline.py:46-66 | Record i of the transformed list is record i of the input, enriched: order is kept. |
| Etl.EnrichKeepsSummary | etl_pipeline.py:61-75 | Enriching changes no amount, sender or recipient, so the summary of the enriched batch is that of the input. |
| Etl.TotalAmountAppend | etl_pipeline.py:62 | The total of two batches together is the sum of their totals. |
| Etl.AverageTimesCount | etl_pipeline.py:72 | For a non-empty batch, the average times the number of records is the total. |
| Etl.RankedCounts | etl_pipeline.py:73-74 | The ranking has min(5, number of distinct keys) entries. Each entry holds its key's exact number of occurrences, which is positive. The entries come in non-increasing order of count. |
| Etl.RankedFirst | etl_pipeline.py:73-74 | A key left out of the ranking occurs no more often than any ranked key. |
| Etl.RankedTiesInFirstSeenOrder | etl_pipeline.py:73-74 | Among keys with equal counts, the ranked ones are the first of them in first-seen order. |
| Etl.TallyExample | etl_pipeline.py:63 | Senders A, A, B are counted as A twice, then B once. |
| Etl.RankedExample | etl_pipeline.py:73 | They rank as A with two, then B with one. |
| Etl.ThreeRecordSummary | etl_pipeline.py:69-74 | For the batch A pays B $10.00, A pays C $5.00, B pays A $10.00, the summary holds 3 records, a total of $25.00, an average of a third of that, and top senders A with 2 and B with 1. |
| Etl.BadTimestampUnknown | etl_pipeline.py:56-59 | A record with the timestamp "bad-timestamp" gets "Unknown" for its date, time and weekday. |
| Counting.IncrementSpec | etl_pipeline.py:63-64 | `counts[key] += 1` adds a new key at the end and leaves an existing key in its place. It raises that key's count by one and changes no other count; the counts' sum grows by one. |
| Counting.TallyStep | etl_pipeline.py:63-64 | Counting one more key is one increment of the counts so far. |
| Counting.TallyCounts | etl_pipeline.py:43-44 | After counting a list of keys, every key's count is its number of occurrences (0 when absent). |
| Counting.TallyKeys | etl_pipeline.py:43-44 | The dict's keys are exactly the keys counted, each once, in the order of their first occurrence. |
| Counting.TallyEntries | etl_pipeline.py:43-44 | Every entry holds its key's number of occurrences, which is positive. |
| Counting.TallySum | etl_pipeline.py:63-64 | The counts add up to the number of records counted. |
| Counting.TallySize | etl_pipeline.py:43-44 | There is one entry per distinct key. |
| Ranking.InsertDescending | etl_pipeline.py:73-74 | Inserting adds exactly the one entry, as a permutation. |
| Ranking.SortDescending | etl_pipeline.py:73-74 | Sorting is a permutation of the entries. |
| Ranking.TopK | etl_pipeline.py:73-74 | The slice `[:k]` has min(k, n) entries. |
| Ranking.InsertKeepsOrder | etl_pipeline.py:73-74 | Inserting into a list ordered by descending count keeps it ordered. |
| Ranking.SortIsOrdered | etl_pipeline.py:73-74 | `sorted(..., reverse=True)` orders the entries by count, largest first. |
| Ranking.InsertIsStable | etl_pipeline.py:73-74 | Inserting puts the new entry just before the entries that already have its count, and moves no other entry of that count. |
| Ranking.SortIsStable | etl_pipeline.py:73-74 | Entries with equal counts keep their relative order: the sort is stable. |
| Ranking.WithCountOfPrefix | etl_pipeline.py:73-74 | The entries of a given count in a prefix are a prefix of those in the whole list. |
| Ranking.TopKSelects | etl_pipeline.py:73-74 | The selection has min(k, n) entries, all taken from the input, largest count first. |
| Ranking.TopKExcludesSmaller | etl_pipeline.py:73-74 | No entry left out has a larger count than a selected one. |
| Ranking.TopKKeepsTieOrder | etl_pipeline.py:73-74 | For each count, the selected entries with that count are the first ones with that count in the input. |
| Currency.UsdShape | etl_pipeline.py:48 | The text is "$", a "-" exactly when the amount is negative, the dollars, a point and two digits. |
| Currency.UsdRoundTrip | etl_pipeline.py:48 | Reading the currency text back gives the exact amount in cents. |
| Decimal.NatToString | etl_pipeline.py:48 | The decimal spelling of a number is digits only, with no leading zero. |
| Decimal.ValueOfNatToString | etl_pipeline.py:48 | The decimal spelling denotes the number it was made from. |
| Decimal.Pad2 | etl_pipeline.py:53-54 | `%02d` writes exactly two digits. |
| Decimal.Pad4 | etl_pipeline.py:53 | `%Y` writes exactly four digits. |
| Decimal.Pad2RoundTrip | etl_pipeline.py:52-54 | Two digits written by `%02d` read back as the same number. |
| Decimal.Pad4RoundTrip | etl_pipeline.py:52-53 | Four digits written for `%Y` read back as the same year. |
| Decimal.TwoDigitsRoundTrip | etl_pipeline.py:52-54 | Two digits read and written back are the same text. |
| Decimal.FourDigitsRoundTrip | etl_pipeline.py:52-53 | Four digits read and written back are the same text. |
| Calendar.DaysInMonth | etl_pipeline.py:52 | Months have 28 to 31 days; 29 exactly for February of a leap year. |
| Calendar.Weekday | etl_pipeline.py:55 | The weekday is in 0..6. |
| Calendar.DaysBeforeYearStep | etl_pipeline.py:55 | The days before year y + 1 are those before y plus the length of y. |
| Calendar.NextDateOrdinal | etl_pipeline.py:55 | The day after a valid date is valid, and its ordinal is one more. |
| Calendar.NextDateWeekday | etl_pipeline.py:55 | The weekday advances by one, cyclically, from each date to the next. |
| Calendar.FirstDateIsMonday | etl_pipeline.py:55 | 0001-01-01 has ordinal 1 and is named "Monday", as in `datetime`. |
| Timestamp.ParseTimestamp | etl_pipeline.py:52 | A parsed value is always a valid date and time. |
| Timestamp.MatchTwoDigitTime | etl_pipeline.py:52 | An `HH:MM:SS` time with two digits per field matches exactly when the hour is at most 23, the minute at most 59, the second at most 61 and nothing follows. It then yields those three numbers. |
| Timestamp.MatchCanonicalMonthDay | etl_pipeline.py:52 | In a zero-padded timestamp, month and day are read from their two digits. The match fails when either is out of range. |
| Timestamp.MatchCanonical | etl_pipeline.py:52 | A zero-padded timestamp matches the pattern exactly when its fields are within the pattern's ranges, and yields the numbers written in it. |
| Timestamp.ParseCanonical | etl_pipeline.py:52 | A zero-padded timestamp parses exactly when its numbers form a valid date and time, and it parses to those numbers. |
| Timestamp.FormatThenParse | etl_pipeline.py:52-54 | A valid date and time, formatted, is zero-padded and parses back to itself. |
| Timestamp.CanonicalDateText | etl_pipeline.py:53 | The formatted date of a zero-padded timestamp is its first ten characters. |
| Timestamp.CanonicalTimeText | etl_pipeline.py:54 | The formatted time of a zero-padded timestamp is its last eight characters. |
| Timestamp.ParseThenFormat | etl_pipeline.py:52-54 | A zero-padded timestamp that parses is rebuilt exactly from its formatted date and time. |
| Timestamp.OneDigitFields | etl_pipeline.py:52 | "2023-1-2 1:0:0" is accepted. |
| Timestamp.BlankBeforeDay | etl_pipeline.py:52 | "2023-01- 2 10:00:00" is accepted. |
| Timestamp.BlanksBetweenDateAndTime | etl_pipeline.py:52 | A tab and a blank between date and time are accepted. |
| Timestamp.ShortYear | etl_pipeline.py:52 | A two-digit year is rejected. |
| Timestamp.NotATimestamp | etl_pipeline.py:52 | "bad-timestamp" is rejected. |
| Timestamp.DateOnly | etl_pipeline.py:52 | A date with no time is rejected. |
| Timestamp.TrailingBlank | etl_pipeline.py:52 | Text after the seconds is rejected. |
| Timestamp.NoThirtiethOfFebruary | etl_pipeline.py:52 | 30 February is rejected. |
| Timestamp.NoLeapDayIn2023 | etl_pipeline.py:52 | 29 February 2023 is rejected. |
| Timestamp.NoYearZero | etl_pipeline.py:52 | Year 0000 is rejected. |
| Timestamp.ImpossibleTimes | etl_pipeline.py:52 | Hour 24 and second 60 are rejected. |
| Timestamp.LeapDay | etl_pipeline.py:52 | 29 February 2024 is accepted. |

## Left out

- `extract`, `load` and `main`:
  - reading the CSV file, writing the JSON file, and running the stages;
  - with them, `main` stopping when extraction gives no records (etl_pipeline.py:111-113).
- The three status lines `transform` prints (etl_pipeline.py:77-79). They are console output only.
- Amounts are modelled as whole numbers of cents, not binary floats:
  - no rounding in `:.2f`, in the running sum or in the average;
  - no `-0.00`.
  - The average is the exact quotient, a `real`.
- Etl.AverageTimesCount: states the average only through its product with the count. The float division and its rounding are not modelled.
- For an empty batch, `transform` returns a bare `[]`, not a pair. The model returns an empty list and no summary. That is the value a caller can tell apart from a summary of zero records.
- Python dicts are objects: the returned list shares the same dicts the caller passed in. The model states this as "the returned records are the array's new contents". Later aliasing through other references is not modelled.
- The dead `else 0` branch of the average (etl_pipeline.py:72) never runs, because the list is non-empty there. `Average` still gives 0.0 for 0 records.
- Parsing timestamps:
  - `%A` and `strptime` are modelled for the C locale.
  - Only ASCII digits are accepted where Python's `\d` also matches other Unicode decimal digits.
  - `%Y` is written with four zero-padded digits. Some C libraries write years below 1000 without padding.
- Records whose timestamp is missing are outside the model: the timestamp is
  always a string here. A CSV row short of its timestamp column reaches
  `transform` with the timestamp `None`, and there `strptime` raises
  `TypeError` (etl_pipeline.py:52), which the `ValueError` handler
  (etl_pipeline.py:56) does not catch, so it escapes `transform`.
- `strptime`'s regular expression is case-insensitive. This is invisible here: the format has no letters.
