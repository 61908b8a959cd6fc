/** The transform stage of the bank-transaction ETL pipeline: one pass over
    the extracted records that adds derived fields to each record in place and
    accumulates the batch summary. */
module Etl {
  import opened Wrappers
  import opened Decimal
  import opened Calendar
  import opened Timestamp
  import opened Currency
  import opened Counting
  import opened Ranking

  /** What a derived date field holds when the timestamp does not parse. */
  const Unknown := "Unknown"

  /** How many senders and recipients the summary ranks. */
  const TopCount := 5

  /** The fields transform adds to a record. */
  datatype Enrichment = Enrichment(amountUsd: string, date: string, time: string, dayOfWeek: string)

  /** A transaction record as extracted (enrichment None) or as transformed.
      The amount is a whole number of cents. */
  datatype Transaction = Transaction(
    sender: string,
    recipient: string,
    amount: int,
    timestamp: string,
    enrichment: Option<Enrichment>)

  /** The batch summary. Amounts are in cents; the average is exact. */
  datatype Summary = Summary(
    totalTransactions: nat,
    totalAmount: int,
    averageAmount: real,
    topSenders: seq<Entry>,
    topRecipients: seq<Entry>)

  /** The derived fields of one record: the currency text, and the date, time
      and weekday of the timestamp, or "Unknown" for all three when it does
      not parse. The fields the record already has are left as they are. */
  function Enrich(t: Transaction): (r: Transaction)
    ensures r.sender == t.sender && r.recipient == t.recipient
    ensures r.amount == t.amount && r.timestamp == t.timestamp
    ensures r.enrichment.Some?
  {
    var amountUsd := FormatUsd(t.amount);
    match ParseTimestamp(t.timestamp)
    case Some(dt) =>
      t.(enrichment := Some(Enrichment(amountUsd, FormatDate(dt.date), FormatTime(dt), WeekdayName(Weekday(dt.date)))))
    case None =>
      t.(enrichment := Some(Enrichment(amountUsd, Unknown, Unknown, Unknown)))
  }

  function Senders(ts: seq<Transaction>): (ks: seq<string>)
    ensures |ks| == |ts| && forall i :: 0 <= i < |ts| ==> ks[i] == ts[i].sender
  {
    seq(|ts|, i requires 0 <= i < |ts| => ts[i].sender)
  }

  function Recipients(ts: seq<Transaction>): (ks: seq<string>)
    ensures |ks| == |ts| && forall i :: 0 <= i < |ts| ==> ks[i] == ts[i].recipient
  {
    seq(|ts|, i requires 0 <= i < |ts| => ts[i].recipient)
  }

  /** The sum of the amounts of `ts`. */
  function TotalAmount(ts: seq<Transaction>): int {
    if ts == [] then 0 else TotalAmount(ts[..|ts| - 1]) + ts[|ts| - 1].amount
  }

  /** The records of `ts`, each enriched. */
  function EnrichAll(ts: seq<Transaction>): seq<Transaction> {
    if ts == [] then [] else EnrichAll(ts[..|ts| - 1]) + [Enrich(ts[|ts| - 1])]
  }

  /** `total / n`, the true quotient; 0 for an empty batch. */
  function Average(total: int, n: nat): real {
    if n > 0 then total as real / n as real else 0.0
  }

  /** The summary of a batch: its size, total and average amount, and the
      five senders and recipients with the most transactions. */
  function Summarize(ts: seq<Transaction>): Summary {
    var n := |ts|;
    var total := TotalAmount(ts);
    Summary(
      n,
      total,
      Average(total, n),
      TopK(Tally(Senders(ts)), TopCount),
      TopK(Tally(Recipients(ts)), TopCount))
  }

  // Enriching a record

  /** The currency text carries the exact amount. */
  lemma EnrichAmount(t: Transaction)
    ensures ParseUsd(Enrich(t).enrichment.value.amountUsd) == Some(t.amount)
  {
    UsdRoundTrip(t.amount);
  }

  /** A timestamp that parses gives the date and time of the parsed value,
      which read back as that same value, and the English name of its
      weekday; one that does not gives "Unknown" for all three fields. */
  lemma EnrichDates(t: Transaction)
    ensures var e := Enrich(t).enrichment.value;
      match ParseTimestamp(t.timestamp)
      case None => e.date == Unknown && e.time == Unknown && e.dayOfWeek == Unknown
      case Some(dt) =>
        && e.date == FormatDate(dt.date) && e.time == FormatTime(dt)
        && ParseTimestamp(e.date + " " + e.time) == Some(dt)
        && e.dayOfWeek == WeekdayName(Weekday(dt.date))
  {
    match ParseTimestamp(t.timestamp)
    case None =>
    case Some(dt) => FormatThenParse(dt);
  }

  /** The date field is "Unknown" exactly when the timestamp does not parse;
      a parsed date starts with a digit. */
  lemma UnknownExactlyWhenUnparsed(t: Transaction)
    ensures Enrich(t).enrichment.value.date == Unknown <==> ParseTimestamp(t.timestamp).None?
  {
    match ParseTimestamp(t.timestamp)
    case None =>
    case Some(dt) =>
      var date := FormatDate(dt.date);
      assert date[0] == Pad4(dt.date.year)[0];
      assert IsDigit(date[0]) && !IsDigit(Unknown[0]);
  }

  /** For a timestamp already in the zero-padded form, the date and time
      fields put back together are the timestamp itself. */
  lemma EnrichCanonical(t: Transaction)
    requires IsCanonical(t.timestamp) && ParseTimestamp(t.timestamp).Some?
    ensures var e := Enrich(t).enrichment.value;
      e.date + " " + e.time == t.timestamp
  {
    ParseThenFormat(t.timestamp);
  }

  /** 2 January 2023 was a Monday. */
  lemma MondayExample()
    ensures Enrich(Transaction("A", "B", 1000, "2023-01-02 10:00:00", None)).enrichment
      == Some(Enrichment("$10.00", "2023-01-02", "10:00:00", "Monday"))
  {
    ParsesJanuarySecond();
    FormatsJanuarySecond();
    JanuarySecondIsMonday();
    TenDollars();
  }

  lemma ParsesJanuarySecond()
    ensures ParseTimestamp("2023-01-02 10:00:00") == Some(DateTime(Date(2023, 1, 2), 10, 0, 0))
  {
    var s := "2023-01-02 10:00:00";
    ParseCanonical(s);
    assert AllDigits(s[..4]);
    assert CanonicalFields(s) == DateTime(Date(2023, 1, 2), 10, 0, 0);
  }

  lemma FormatsJanuarySecond()
    ensures FormatDate(Date(2023, 1, 2)) == "2023-01-02"
    ensures FormatTime(DateTime(Date(2023, 1, 2), 10, 0, 0)) == "10:00:00"
  {
    assert Pad4(2023) == "2023";
    assert Pad2(1) == "01" && Pad2(2) == "02" && Pad2(10) == "10" && Pad2(0) == "00";
  }

  lemma JanuarySecondIsMonday()
    ensures WeekdayName(Weekday(Date(2023, 1, 2))) == "Monday"
  {
    assert DaysBeforeYear(2023) == 738520;
    assert Weekday(Date(2023, 1, 2)) == 0;
  }

  lemma TenDollars()
    ensures FormatUsd(1000) == "$10.00"
  {
    assert NatToString(10) == "10";
    assert Pad2(0) == "00";
  }

  // The batch

  /** Enriched records in order: record i becomes Enrich of record i. */
  lemma {:induction false} EnrichAllAt(ts: seq<Transaction>, i: nat)
    requires i < |ts|
    ensures |EnrichAll(ts)| == |ts|
    ensures EnrichAll(ts)[i] == Enrich(ts[i])
  {
    EnrichAllLength(ts);
    if i < |ts| - 1 {
      EnrichAllAt(ts[..|ts| - 1], i);
    }
  }

  /** Every record's enrichment, as a fact that applies wherever the
      enrichment of a record is formed. */
  lemma EnrichAllEvery(ts: seq<Transaction>)
    ensures |EnrichAll(ts)| == |ts|
    ensures forall j {:trigger Enrich(ts[j])} :: 0 <= j < |ts| ==> EnrichAll(ts)[j] == Enrich(ts[j])
  {
    EnrichAllLength(ts);
    forall j | 0 <= j < |ts| ensures EnrichAll(ts)[j] == Enrich(ts[j]) {
      EnrichAllAt(ts, j);
    }
  }

  lemma {:induction false} EnrichAllLength(ts: seq<Transaction>)
    ensures |EnrichAll(ts)| == |ts|
  {
    if ts != [] {
      EnrichAllLength(ts[..|ts| - 1]);
    }
  }

  /** Enriching leaves the amounts, senders and recipients the summary is made
      of as they were. */
  lemma EnrichKeepsSummary(ts: seq<Transaction>)
    ensures TotalAmount(EnrichAll(ts)) == TotalAmount(ts)
    ensures Senders(EnrichAll(ts)) == Senders(ts)
    ensures Recipients(EnrichAll(ts)) == Recipients(ts)
    ensures Summarize(EnrichAll(ts)) == Summarize(ts)
  {
    EnrichAllLength(ts);
    forall i | 0 <= i < |ts| ensures EnrichAll(ts)[i] == Enrich(ts[i]) {
      EnrichAllAt(ts, i);
    }
    EnrichKeepsTotal(ts);
  }

  lemma {:induction false} EnrichKeepsTotal(ts: seq<Transaction>)
    ensures TotalAmount(EnrichAll(ts)) == TotalAmount(ts)
  {
    if ts != [] {
      EnrichAllLength(ts[..|ts| - 1]);
      EnrichKeepsTotal(ts[..|ts| - 1]);
      var e := EnrichAll(ts);
      assert e[..|e| - 1] == EnrichAll(ts[..|ts| - 1]);
    }
  }

  /** The total of two batches together is the sum of their totals. */
  lemma {:induction false} TotalAmountAppend(a: seq<Transaction>, b: seq<Transaction>)
    ensures TotalAmount(a + b) == TotalAmount(a) + TotalAmount(b)
  {
    if b == [] {
      assert a + b == a;
    } else {
      assert (a + b)[..|a + b| - 1] == a + b[..|b| - 1];
      TotalAmountAppend(a, b[..|b| - 1]);
    }
  }

  lemma TotalStep(ts: seq<Transaction>, i: nat)
    requires i < |ts|
    ensures TotalAmount(ts[..i + 1]) == TotalAmount(ts[..i]) + ts[i].amount
  {
    assert ts[..i + 1][..i] == ts[..i];
  }

  /** The average times the number of records is the total. */
  lemma AverageTimesCount(total: int, n: nat)
    requires n > 0
    ensures Average(total, n) * (n as real) == total as real
  {
  }

  /** The ranking of the keys of `ks` by how often they occur: at most five
      entries, one per distinct key when there are fewer, each holding its
      key's number of occurrences, in non-increasing order of count. */
  lemma RankedCounts(ks: seq<string>)
    ensures var top := TopK(Tally(ks), TopCount);
      && |top| == Min(TopCount, |set k | k in ks|)
      && (forall i :: 0 <= i < |top| ==> top[i].1 == multiset(ks)[top[i].0] > 0)
      && NonIncreasing(top)
  {
    var all := Tally(ks);
    var top := TopK(all, TopCount);
    TallySize(ks);
    TallyEntries(ks);
    TopKSelects(all, TopCount);
    forall i | 0 <= i < |top| ensures top[i].1 == multiset(ks)[top[i].0] > 0 {
      assert top[i] in multiset(top);
      assert top[i] in all;
    }
  }

  /** No key left out of the ranking occurs more often than a ranked one. */
  lemma RankedFirst(ks: seq<string>)
    ensures var top := TopK(Tally(ks), TopCount);
      forall k, i :: k in ks && k !in Keys(top) && 0 <= i < |top| ==> multiset(ks)[k] <= top[i].1
  {
    var all := Tally(ks);
    var top := TopK(all, TopCount);
    TallyEntries(ks);
    TallyKeys(ks);
    TopKExcludesSmaller(all, TopCount);
    forall k, i | k in ks && k !in Keys(top) && 0 <= i < |top| ensures multiset(ks)[k] <= top[i].1 {
      assert k in Keys(all);
      var j :| 0 <= j < |all| && Keys(all)[j] == k;
      assert all[j].0 == k && all[j] in all;
      assert all[j] !in top;
      assert top[i] in top;
    }
  }

  /** Among keys with the same count, the ranked ones are the first of them
      in `Tally(ks)`, that is in the order in which the keys first occur. */
  lemma RankedTiesInFirstSeenOrder(ks: seq<string>, c: nat)
    ensures IsPrefix(WithCount(TopK(Tally(ks), TopCount), c), WithCount(Tally(ks), c))
  {
    TopKKeepsTieOrder(Tally(ks), TopCount, c);
  }

  /** Senders A, A, B are counted as A twice and B once, in that order. */
  lemma TallyExample()
    ensures Tally(["A", "A", "B"]) == [("A", 2), ("B", 1)]
  {
    var ks := ["A", "A", "B"];
    assert ks[..2] == ["A", "A"] && ks[..2][..1] == ["A"] && ks[..2][..1][..0] == [];
    assert Tally(["A"]) == [("A", 1)];
    assert Tally(["A", "A"]) == [("A", 2)];
    assert "B" != "A" by { assert "B"[0] != "A"[0]; }
    assert [("A", 2)][1..] == [];
    assert Increment([("A", 2)], "B") == [("A", 2), ("B", 1)];
  }

  /** and rank as A with two, then B with one. */
  lemma RankedExample()
    ensures TopK(Tally(["A", "A", "B"]), TopCount) == [("A", 2), ("B", 1)]
  {
    TallyExample();
    assert SortDescending([("B", 1)]) == [("B", 1)];
  }

  /** A batch of three: A pays B $10.00, A pays C $5.00, and B pays A $10.00
      with a timestamp that does not parse. The total is $25.00, the average
      a third of it, and A ranks first with two transactions, B second. */
  lemma ThreeRecordSummary()
    ensures var s := Summarize([
        Transaction("A", "B", 1000, "2023-01-02 10:00:00", None),
        Transaction("A", "C", 500, "2023-01-02 11:00:00", None),
        Transaction("B", "A", 1000, "bad-timestamp", None)]);
      && s.totalTransactions == 3 && s.totalAmount == 2500
      && s.averageAmount == 2500.0 / 3.0
      && s.topSenders == [("A", 2), ("B", 1)]
  {
    var ts := [
        Transaction("A", "B", 1000, "2023-01-02 10:00:00", None),
        Transaction("A", "C", 500, "2023-01-02 11:00:00", None),
        Transaction("B", "A", 1000, "bad-timestamp", None)];
    assert ts[..2][..1] == ts[..1] && ts[..1][..0] == [];
    assert TotalAmount(ts[..1]) == 1000;
    assert TotalAmount(ts[..2]) == 1500;
    assert Senders(ts) == ["A", "A", "B"];
    RankedExample();
  }

  /** The third record of that batch gets "Unknown" for its date, time and
      weekday. */
  lemma BadTimestampUnknown()
    ensures Enrich(Transaction("B", "A", 1000, "bad-timestamp", None)).enrichment.value.date == Unknown
    ensures Enrich(Transaction("B", "A", 1000, "bad-timestamp", None)).enrichment.value.time == Unknown
    ensures Enrich(Transaction("B", "A", 1000, "bad-timestamp", None)).enrichment.value.dayOfWeek == Unknown
  {
    NotATimestamp();
  }

  // transform

  /** The loop of transform: enriches every record of `records` in place,
      and returns them in order with their total amount and the number of
      records each sender and each recipient has, keys in the order they
      first occur. */
  method EnrichAndCount(records: array<Transaction>)
    returns (transformed: seq<Transaction>, totalAmount: int, senderCounts: seq<Entry>, recipientCounts: seq<Entry>)
    modifies records
    ensures records[..] == EnrichAll(old(records[..]))
    ensures transformed == records[..]
    ensures totalAmount == TotalAmount(old(records[..]))
    ensures senderCounts == Tally(Senders(old(records[..])))
    ensures recipientCounts == Tally(Recipients(old(records[..])))
  {
    ghost var input := records[..];
    ghost var expected := EnrichAll(input);
    ghost var senders := Senders(input);
    ghost var recipients := Recipients(input);
    EnrichAllEvery(input);
    transformed := [];
    totalAmount := 0;
    senderCounts := [];
    recipientCounts := [];
    var i := 0;
    while i < records.Length
      invariant 0 <= i <= records.Length
      invariant transformed == expected[..i]
      invariant forall j :: 0 <= j < i ==> records[j] == expected[j]
      invariant forall j :: i <= j < records.Length ==> records[j] == input[j]
      invariant totalAmount == TotalAmount(input[..i])
      invariant senderCounts == Tally(senders[..i])
      invariant recipientCounts == Tally(recipients[..i])
    {
      var transaction := Enrich(records[i]);
      records[i] := transaction;
      totalAmount := totalAmount + transaction.amount;
      senderCounts := Increment(senderCounts, transaction.sender);
      recipientCounts := Increment(recipientCounts, transaction.recipient);
      transformed := transformed + [transaction];
      assert expected[..i + 1] == expected[..i] + [transaction];
      TotalStep(input, i);
      TallyStep(senders, i);
      TallyStep(recipients, i);
      i := i + 1;
    }
    assert input[..i] == input;
    assert senders[..i] == senders;
    assert recipients[..i] == recipients;
    assert records[..] == expected;
  }

  /** transform: enriches every record of `records` in place and returns the
      records, in order, with the summary of the batch; an empty batch gives
      no records and no summary. */
  method Transform(records: array<Transaction>) returns (transformed: seq<Transaction>, summary: Option<Summary>)
    modifies records
    ensures records[..] == EnrichAll(old(records[..]))
    ensures records.Length == 0 ==> transformed == [] && summary == None
    ensures records.Length > 0 ==> transformed == records[..]
    ensures records.Length > 0 ==> summary == Some(Summarize(old(records[..])))
  {
    if records.Length == 0 {
      return [], None;
    }
    var totalAmount, senderCounts, recipientCounts;
    transformed, totalAmount, senderCounts, recipientCounts := EnrichAndCount(records);
    var n := |transformed|;
    summary := Some(Summary(
      n,
      totalAmount,
      Average(totalAmount, n),
      TopK(senderCounts, TopCount),
      TopK(recipientCounts, TopCount)));
  }
}
