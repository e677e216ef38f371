/**
 Cost totals per currency and source, and the groups of attempts they are reported for.  Every sum
 is exact, and the totals of the groups add up to the totals of all attempts.
 */
module CostTotals {
  import opened Options
  import opened Money

  type Name = nat

  /** One provider call: a cost comes with its currency and source, or is unknown. */
  datatype Call = Call(cost: Option<Decimal>, currency: Name, source: Name) {
    function Bucket(): Bucket { CostBucket(currency, source) }
  }

  datatype Bucket = CostBucket(currency: Name, source: Name)

  /** One reported line. */
  datatype Line = Line(bucket: Bucket, total: Decimal, observations: nat)

  predicate Before(a: Bucket, b: Bucket) {
    a.currency < b.currency || (a.currency == b.currency && a.source < b.source)
  }

  /** The known costs of one currency and source, in order. */
  function Amounts(calls: seq<Call>, bucket: Bucket): seq<Decimal> {
    if calls == [] then []
    else
      var last := calls[|calls| - 1];
      Amounts(calls[..|calls| - 1], bucket) + if last.cost.Some? && last.Bucket() == bucket then [last.cost.value]
        else []
  }

  ghost predicate CallsFit(calls: seq<Call>, unit: int) {
    unit <= 0 && forall i :: 0 <= i < |calls| && calls[i].cost.Some? ==> unit <= calls[i].cost.value.exponent
  }

  lemma {:induction false} AmountsFit(calls: seq<Call>, bucket: Bucket, unit: int)
    requires CallsFit(calls, unit)
    ensures Fits(Amounts(calls, bucket), unit)
  {
    if calls != [] { AmountsFit(calls[..|calls| - 1], bucket, unit); }
  }

  lemma {:induction false} AmountsSplit(a: seq<Call>, b: seq<Call>, bucket: Bucket)
    ensures Amounts(a + b, bucket) == Amounts(a, bucket) + Amounts(b, bucket)
  {
    if b == [] {
      assert a + b == a;
    } else {
      assert (a + b)[..|a + b| - 1] == a + b[..|b| - 1];
      AmountsSplit(a, b[..|b| - 1], bucket);
    }
  }

  /** The report: one line per bucket with a known cost, in order, each with the exact sum. */
  ghost predicate Reports(lines: seq<Line>, calls: seq<Call>, unit: int)
    requires CallsFit(calls, unit)
  {
    && InOrder(lines)
    && AllOk(lines, calls, unit)
    && (forall b :: Amounts(calls, b) != [] ==> Listed(lines, b))
  }

  ghost predicate InOrder(lines: seq<Line>) {
    forall i, j :: 0 <= i < j < |lines| ==> Before(lines[i].bucket, lines[j].bucket)
  }

  ghost predicate Listed(lines: seq<Line>, b: Bucket) { exists i :: 0 <= i < |lines| && lines[i].bucket == b }

  ghost predicate LineOk(line: Line, calls: seq<Call>, unit: int)
    requires CallsFit(calls, unit)
  {
    AmountsFit(calls, line.bucket, unit);
    && Amounts(calls, line.bucket) != []
    && line.total.exponent >= unit
    && Value(line.total, unit) == Total(Amounts(calls, line.bucket), unit)
    && line.observations == |Amounts(calls, line.bucket)|
  }

  ghost predicate AllOk(lines: seq<Line>, calls: seq<Call>, unit: int)
    requires CallsFit(calls, unit)
  {
    forall i :: 0 <= i < |lines| ==> LineOk(lines[i], calls, unit)
  }

  lemma OneMoreOk(lines: seq<Line>, line: Line, calls: seq<Call>, unit: int)
    requires CallsFit(calls, unit) && AllOk(lines, calls, unit) && LineOk(line, calls, unit)
    ensures AllOk(lines + [line], calls, unit)
  {
  }

  ghost predicate Filed(buckets: map<Bucket, seq<Decimal>>, calls: seq<Call>) {
    forall b :: (if b in buckets then buckets[b] else []) == Amounts(calls, b) && (b in buckets ==> buckets[b] != [])
  }

  lemma {:induction false} HasFirst(buckets: set<Bucket>) returns (first: Bucket)
    requires buckets != {}
    ensures first in buckets && forall b :: b in buckets && b != first ==> Before(first, b)
    decreases buckets
  {
    var b :| b in buckets;
    if buckets == {b} {
      first := b;
    } else {
      var rest := HasFirst(buckets - {b});
      assert forall x :: x in buckets ==> x == b || x in buckets - {b};
      first := if Before(b, rest) then b else rest;
    }
  }

  method FileCalls(calls: seq<Call>) returns (buckets: map<Bucket, seq<Decimal>>)
    ensures Filed(buckets, calls)
  {
    buckets := map[];
    for i := 0 to |calls|
      invariant Filed(buckets, calls[..i])
    {
      var call := calls[i];
      assert calls[..i + 1][..i] == calls[..i] && calls[..i + 1][i] == call;
      if call.cost.Some? {
        var b := call.Bucket();
        buckets := buckets[b := (if b in buckets then buckets[b] else []) + [call.cost.value]];
      }
    }
    assert calls[..|calls|] == calls;
  }

  method TotalOf(b: Bucket, amounts: seq<Decimal>, ghost calls: seq<Call>, ghost unit: int) returns (line: Line)
    requires CallsFit(calls, unit) && amounts == Amounts(calls, b) != []
    ensures line.bucket == b && LineOk(line, calls, unit)
  {
    AmountsFit(calls, b, unit);
    var total := ExactSum(amounts, unit);
    line := Line(b, total, |amounts|);
  }

  /** What the report holds once the buckets in `rest` are left. */
  ghost predicate Listing(lines: seq<Line>, rest: set<Bucket>, all: set<Bucket>) {
    && InOrder(lines) && rest <= all
    && (forall i, b :: 0 <= i < |lines| && b in rest ==> Before(lines[i].bucket, b))
    && (forall b :: b in all && b !in rest ==> Listed(lines, b))
  }

  lemma OneMoreLine(lines: seq<Line>, rest: set<Bucket>, all: set<Bucket>, line: Line)
    requires Listing(lines, rest, all) && line.bucket in rest
    requires forall x :: x in rest && x != line.bucket ==> Before(line.bucket, x)
    ensures Listing(lines + [line], rest - {line.bucket}, all)
  {
    var longer := lines + [line];
    assert longer[|lines|] == line;
    forall x | x in all && x !in rest - {line.bucket} ensures Listed(longer, x) {
      if x != line.bucket {
        var i :| 0 <= i < |lines| && lines[i].bucket == x;
        assert longer[i].bucket == x;
      }
    }
  }

  /** `cost_totals`. */
  method Totals(calls: seq<Call>, ghost unit: int) returns (lines: seq<Line>)
    requires CallsFit(calls, unit)
    ensures Reports(lines, calls, unit)
  {
    var buckets := FileCalls(calls);
    var rest := buckets.Keys;
    lines := [];
    while rest != {}
      invariant Listing(lines, rest, buckets.Keys)
      invariant AllOk(lines, calls, unit)
      decreases rest
    {
      ghost var least := HasFirst(rest);
      var b :| b in rest && forall x :: x in rest && x != b ==> Before(b, x);
      var line := TotalOf(b, buckets[b], calls, unit);
      OneMoreLine(lines, rest, buckets.Keys, line);
      OneMoreOk(lines, line, calls, unit);
      lines := lines + [line];
      rest := rest - {b};
    }
    ListedIsReport(lines, buckets, calls, unit);
  }

  lemma ListedIsReport(lines: seq<Line>, buckets: map<Bucket, seq<Decimal>>, calls: seq<Call>, unit: int)
    requires CallsFit(calls, unit) && Filed(buckets, calls) && Listing(lines, {}, buckets.Keys)
    requires AllOk(lines, calls, unit)
    ensures Reports(lines, calls, unit)
  {
    forall b | Amounts(calls, b) != [] ensures Listed(lines, b) { assert b in buckets; }
  }

  // ----- groups -----

  /** One history row; only attempts have an execution.  The group is the attempt's role, identity and segments. */
  datatype Row = Row(execution: Option<Name>, group: Name, calls: seq<Call>)

  datatype Group = Group(key: Name, rows: seq<Row>)

  function GroupRows(rows: seq<Row>, key: Name): seq<Row> {
    if rows == [] then []
    else
      var last := rows[|rows| - 1];
      GroupRows(rows[..|rows| - 1], key) + if last.execution.Some? && last.group == key then [last] else []
  }

  function CallsOf(rows: seq<Row>): seq<Call> {
    if rows == [] then [] else CallsOf(rows[..|rows| - 1]) + rows[|rows| - 1].calls
  }

  function AttemptsOf(rows: seq<Row>): seq<Row> {
    if rows == [] then []
    else AttemptsOf(rows[..|rows| - 1]) + if rows[|rows| - 1].execution.Some? then [rows[|rows| - 1]] else []
  }

  /** Every attempt is in exactly the group of its key. */
  ghost predicate Partitions(groups: seq<Group>, rows: seq<Row>) {
    && (forall i, j :: 0 <= i < j < |groups| ==> groups[i].key != groups[j].key)
    && (forall i :: 0 <= i < |groups| ==> groups[i].rows == GroupRows(rows, groups[i].key) && groups[i].rows != [])
    && (forall key :: GroupRows(rows, key) != [] ==> exists i :: 0 <= i < |groups| && groups[i].key == key)
  }

  method GroupAttempts(rows: seq<Row>) returns (groups: seq<Group>)
    ensures Partitions(groups, rows)
  {
    groups := [];
    for k := 0 to |rows|
      invariant Partitions(groups, rows[..k])
    {
      var row := rows[k];
      assert rows[..k + 1][..k] == rows[..k] && rows[..k + 1] == rows[..k] + [row];
      if row.execution.Some? {
        var i := 0;
        while i < |groups| && groups[i].key != row.group
          invariant i <= |groups| && forall j :: 0 <= j < i ==> groups[j].key != row.group
        {
          i := i + 1;
        }
        ghost var before := groups;
        if i < |groups| {
          groups := groups[i := Group(row.group, groups[i].rows + [row])];
        } else {
          groups := groups + [Group(row.group, [row])];
        }
        AddedKeepsPartition(before, groups, i, rows[..k], row);
      } else {
        SkippedKeepsPartition(groups, rows[..k], row);
      }
    }
    assert rows[..|rows|] == rows;
  }

  lemma SkippedKeepsPartition(groups: seq<Group>, rows: seq<Row>, row: Row)
    requires Partitions(groups, rows) && row.execution.None?
    ensures Partitions(groups, rows + [row])
  {
    assert (rows + [row])[..|rows|] == rows;
    assert forall key :: GroupRows(rows + [row], key) == GroupRows(rows, key);
  }

  lemma AddedKeepsPartition(before: seq<Group>, after: seq<Group>, i: nat, rows: seq<Row>, row: Row)
    requires Partitions(before, rows) && row.execution.Some? && i <= |before|
    requires forall j :: 0 <= j < i ==> before[j].key != row.group
    requires i < |before| ==> before[i].key == row.group
    requires after ==
      if i < |before| then before[i := Group(row.group, before[i].rows + [row])] else before + [Group(row.group, [row])]
    ensures Partitions(after, rows + [row])
  {
    assert (rows + [row])[..|rows|] == rows;
    assert forall key :: GroupRows(rows + [row], key) == GroupRows(rows, key) + if row.group == key then [row] else [];
    forall key | GroupRows(rows + [row], key) != [] ensures exists j :: 0 <= j < |after| && after[j].key == key {
      if key == row.group {
        assert after[i].key == key;
      } else {
        var j :| 0 <= j < |before| && before[j].key == key;
        assert after[j].key == key;
      }
    }
  }

  // ----- conservation -----

  ghost predicate RowsFit(rows: seq<Row>, unit: int) {
    unit <= 0 && forall i :: 0 <= i < |rows| ==> CallsFit(rows[i].calls, unit)
  }

  lemma {:induction false} CallsOfFit(rows: seq<Row>, unit: int)
    requires RowsFit(rows, unit)
    ensures CallsFit(CallsOf(rows), unit)
  {
    if rows != [] { CallsOfFit(rows[..|rows| - 1], unit); }
  }

  lemma {:induction false} GroupRowsFit(rows: seq<Row>, key: Name, unit: int)
    requires RowsFit(rows, unit)
    ensures RowsFit(GroupRows(rows, key), unit) && RowsFit(AttemptsOf(rows), unit)
  {
    if rows != [] { GroupRowsFit(rows[..|rows| - 1], key, unit); }
  }

  /** What one bucket amounts to over some rows. */
  ghost function Tally(rows: seq<Row>, bucket: Bucket, unit: int): nat
    requires RowsFit(rows, unit)
  {
    CallsOfFit(rows, unit);
    AmountsFit(CallsOf(rows), bucket, unit);
    Total(Amounts(CallsOf(rows), bucket), unit)
  }

  /** How many known costs one bucket has over some rows. */
  ghost function Count(rows: seq<Row>, bucket: Bucket): nat { |Amounts(CallsOf(rows), bucket)| }

  lemma {:induction false} TotalSplit(a: seq<Decimal>, b: seq<Decimal>, unit: int)
    requires Fits(a, unit) && Fits(b, unit)
    ensures Fits(a + b, unit) && Total(a + b, unit) == Total(a, unit) + Total(b, unit)
  {
    if b == [] {
      assert a + b == a;
    } else {
      assert (a + b)[..|a + b| - 1] == a + b[..|b| - 1];
      TotalSplit(a, b[..|b| - 1], unit);
    }
  }

  lemma TallyAdds(rows: seq<Row>, row: Row, bucket: Bucket, unit: int)
    requires RowsFit(rows + [row], unit) && RowsFit(rows, unit) && RowsFit([row], unit)
    ensures Tally(rows + [row], bucket, unit) == Tally(rows, bucket, unit) + Tally([row], bucket, unit)
    ensures Count(rows + [row], bucket) == Count(rows, bucket) + Count([row], bucket)
  {
    assert (rows + [row])[..|rows|] == rows && [row][..0] == [];
    assert CallsOf([row]) == row.calls;
    CallsOfFit(rows, unit);
    AmountsFit(CallsOf(rows), bucket, unit);
    AmountsFit(row.calls, bucket, unit);
    AmountsSplit(CallsOf(rows), row.calls, bucket);
    TotalSplit(Amounts(CallsOf(rows), bucket), Amounts(row.calls, bucket), unit);
  }

  /** What one bucket amounts to over the groups with these keys. */
  ghost function KeysTally(keys: seq<Name>, rows: seq<Row>, bucket: Bucket, unit: int): nat
    requires RowsFit(rows, unit)
  {
    if keys == [] then 0
    else
      var key := keys[|keys| - 1];
      GroupRowsFit(rows, key, unit);
      KeysTally(keys[..|keys| - 1], rows, bucket, unit) + Tally(GroupRows(rows, key), bucket, unit)
  }

  ghost function KeysCount(keys: seq<Name>, rows: seq<Row>, bucket: Bucket): nat {
    if keys == [] then 0
    else KeysCount(keys[..|keys| - 1], rows, bucket) + Count(GroupRows(rows, keys[|keys| - 1]), bucket)
  }

  ghost predicate Distinct(keys: seq<Name>) { forall i, j :: 0 <= i < j < |keys| ==> keys[i] != keys[j] }

  /** One more attempt adds its costs to its own group, and leaves every other group alone. */
  lemma GroupAdds(key: Name, rows: seq<Row>, row: Row, bucket: Bucket, unit: int)
    requires RowsFit(rows + [row], unit) && RowsFit(rows, unit) && RowsFit([row], unit)
    ensures RowsFit(GroupRows(rows + [row], key), unit) && RowsFit(GroupRows(rows, key), unit)
    ensures var own := row.execution.Some? && row.group == key;
      && Tally(GroupRows(rows + [row], key), bucket, unit) ==
           Tally(GroupRows(rows, key), bucket, unit) + (if own then Tally([row], bucket, unit) else 0)
      && Count(GroupRows(rows + [row], key), bucket) ==
           Count(GroupRows(rows, key), bucket) + (if own then Count([row], bucket) else 0)
  {
    GroupRowsFit(rows + [row], key, unit);
    GroupRowsFit(rows, key, unit);
    assert (rows + [row])[..|rows|] == rows;
    if row.execution.Some? && row.group == key {
      assert GroupRows(rows + [row], key) == GroupRows(rows, key) + [row];
      TallyAdds(GroupRows(rows, key), row, bucket, unit);
    } else {
      assert GroupRows(rows + [row], key) == GroupRows(rows, key);
    }
  }

  /** One more attempt adds its costs to one group only. */
  lemma {:induction false} KeysAdd(keys: seq<Name>, rows: seq<Row>, row: Row, bucket: Bucket, unit: int)
    requires RowsFit(rows + [row], unit) && RowsFit(rows, unit) && RowsFit([row], unit) && Distinct(keys)
    ensures var own := row.execution.Some? && row.group in keys;
      && KeysTally(keys, rows + [row], bucket, unit) ==
           KeysTally(keys, rows, bucket, unit) + (if own then Tally([row], bucket, unit) else 0)
      && KeysCount(keys, rows + [row], bucket) ==
           KeysCount(keys, rows, bucket) + if own then Count([row], bucket) else 0
  {
    if keys != [] {
      var others, key := keys[..|keys| - 1], keys[|keys| - 1];
      KeysAdd(others, rows, row, bucket, unit);
      GroupAdds(key, rows, row, bucket, unit);
      assert keys == others + [key] && key !in others;
    }
  }

  /** The totals of the groups add up to the totals of all attempts, and so do the numbers of observations. */
  lemma {:induction false} GroupsAddUp(keys: seq<Name>, rows: seq<Row>, bucket: Bucket, unit: int)
    requires RowsFit(rows, unit) && Distinct(keys)
    requires forall i :: 0 <= i < |rows| && rows[i].execution.Some? ==> rows[i].group in keys
    ensures RowsFit(AttemptsOf(rows), unit)
    ensures KeysTally(keys, rows, bucket, unit) == Tally(AttemptsOf(rows), bucket, unit)
    ensures KeysCount(keys, rows, bucket) == Count(AttemptsOf(rows), bucket)
  {
    if rows == [] {
      NothingToAdd(keys, bucket, unit);
    } else {
      var before, row := rows[..|rows| - 1], rows[|rows| - 1];
      assert rows == before + [row];
      GroupRowsFit(rows, 0, unit);
      GroupRowsFit(before, 0, unit);
      GroupsAddUp(keys, before, bucket, unit);
      KeysAdd(keys, before, row, bucket, unit);
      if row.execution.Some? {
        assert AttemptsOf(rows) == AttemptsOf(before) + [row] && row.group in keys;
        TallyAdds(AttemptsOf(before), row, bucket, unit);
      } else {
        assert AttemptsOf(rows) == AttemptsOf(before);
      }
    }
  }

  /** An attempt is listed in the group of its key and in no other. */
  lemma {:induction false} AttemptInItsGroup(rows: seq<Row>, k: nat)
    requires k < |rows| && rows[k].execution.Some?
    ensures rows[k] in GroupRows(rows, rows[k].group)
    ensures forall key :: rows[k] in GroupRows(rows, key) ==> key == rows[k].group
  {
    if k < |rows| - 1 { AttemptInItsGroup(rows[..|rows| - 1], k); }
    forall key | rows[k] in GroupRows(rows, key) ensures key == rows[k].group { GroupedByKey(rows, key); }
  }

  lemma {:induction false} GroupedByKey(rows: seq<Row>, key: Name)
    ensures forall x :: x in GroupRows(rows, key) ==> x.group == key
  {
    if rows != [] { GroupedByKey(rows[..|rows| - 1], key); }
  }

  lemma {:induction false} NothingToAdd(keys: seq<Name>, bucket: Bucket, unit: int)
    requires unit <= 0
    ensures KeysTally(keys, [], bucket, unit) == 0 && KeysCount(keys, [], bucket) == 0
  {
    if keys != [] { NothingToAdd(keys[..|keys| - 1], bucket, unit); }
  }

  // ----- the report by group -----

  datatype Report = Report(key: Name, attempts: nat, costs: seq<Line>)

  /** One report per group of attempts, each with its exact cost lines. */
  ghost predicate Reported(reports: seq<Report>, rows: seq<Row>, unit: int)
    requires RowsFit(rows, unit)
  {
    && (forall i, j :: 0 <= i < j < |reports| ==> reports[i].key != reports[j].key)
    && (forall i :: 0 <= i < |reports| ==> ReportOk(reports[i], rows, unit))
    && (forall key :: GroupRows(rows, key) != [] ==> exists i :: 0 <= i < |reports| && reports[i].key == key)
  }

  ghost predicate ReportOk(report: Report, rows: seq<Row>, unit: int)
    requires RowsFit(rows, unit)
  {
    var group := GroupRows(rows, report.key);
    GroupRowsFit(rows, report.key, unit);
    CallsOfFit(group, unit);
    report.attempts == |group| > 0 && Reports(report.costs, CallsOf(group), unit)
  }

  /** The cost part of `aggregate_attempts`. */
  method Aggregate(rows: seq<Row>, ghost unit: int) returns (reports: seq<Report>)
    requires RowsFit(rows, unit)
    ensures Reported(reports, rows, unit)
  {
    var groups := GroupAttempts(rows);
    reports := [];
    for i := 0 to |groups|
      invariant |reports| == i
      invariant forall j :: 0 <= j < i ==> reports[j].key == groups[j].key && ReportOk(reports[j], rows, unit)
    {
      GroupRowsFit(rows, groups[i].key, unit);
      CallsOfFit(groups[i].rows, unit);
      var costs := Totals(CallsOf(groups[i].rows), unit);
      reports := reports + [Report(groups[i].key, |groups[i].rows|, costs)];
    }
    forall key | GroupRows(rows, key) != [] ensures exists i :: 0 <= i < |reports| && reports[i].key == key {
      var i :| 0 <= i < |groups| && groups[i].key == key;
      assert reports[i].key == key;
    }
  }

  ghost predicate LinesFit(lines: seq<Line>, unit: int) {
    forall i :: 0 <= i < |lines| ==> unit <= lines[i].total.exponent
  }

  /** What a report says of one bucket; nothing is zero. */
  ghost function Reading(lines: seq<Line>, bucket: Bucket, unit: int): nat
    requires LinesFit(lines, unit)
  {
    if lines == [] then 0
    else if lines[|lines| - 1].bucket == bucket then Value(lines[|lines| - 1].total, unit)
    else Reading(lines[..|lines| - 1], bucket, unit)
  }

  lemma {:induction false} ReadingAt(lines: seq<Line>, i: nat, unit: int)
    requires LinesFit(lines, unit) && InOrder(lines) && i < |lines|
    ensures Reading(lines, lines[i].bucket, unit) == Value(lines[i].total, unit)
  {
    if i < |lines| - 1 {
      assert Before(lines[i].bucket, lines[|lines| - 1].bucket);
      ReadingAt(lines[..|lines| - 1], i, unit);
    }
  }

  lemma {:induction false} ReadingNone(lines: seq<Line>, bucket: Bucket, unit: int)
    requires LinesFit(lines, unit) && forall i :: 0 <= i < |lines| ==> lines[i].bucket != bucket
    ensures Reading(lines, bucket, unit) == 0
  {
    if lines != [] { ReadingNone(lines[..|lines| - 1], bucket, unit); }
  }

  /** A report's line for a bucket is the exact sum of its known costs. */
  lemma ReadingIsTotal(lines: seq<Line>, calls: seq<Call>, bucket: Bucket, unit: int)
    requires CallsFit(calls, unit) && Reports(lines, calls, unit)
    ensures LinesFit(lines, unit) && Fits(Amounts(calls, bucket), unit)
    ensures Reading(lines, bucket, unit) == Total(Amounts(calls, bucket), unit)
  {
    AmountsFit(calls, bucket, unit);
    forall i | 0 <= i < |lines| ensures unit <= lines[i].total.exponent { assert LineOk(lines[i], calls, unit); }
    if Listed(lines, bucket) {
      var i :| 0 <= i < |lines| && lines[i].bucket == bucket;
      assert LineOk(lines[i], calls, unit);
      ReadingAt(lines, i, unit);
    } else {
      assert Amounts(calls, bucket) == [];
      ReadingNone(lines, bucket, unit);
    }
  }

  ghost function SumOfReadings(reports: seq<Report>, bucket: Bucket, unit: int): nat
    requires forall i :: 0 <= i < |reports| ==> LinesFit(reports[i].costs, unit)
  {
    if reports == [] then 0
    else
      SumOfReadings(reports[..|reports| - 1], bucket, unit) + Reading(reports[|reports| - 1].costs, bucket, unit)
  }

  function ReportKeys(reports: seq<Report>): (keys: seq<Name>)
    ensures |keys| == |reports| && forall i :: 0 <= i < |keys| ==> keys[i] == reports[i].key
  {
    seq(|reports|, i requires 0 <= i < |reports| => reports[i].key)
  }

  lemma {:induction false} ReadingsAreTallies(reports: seq<Report>, rows: seq<Row>, bucket: Bucket, unit: int)
    requires RowsFit(rows, unit) && forall i :: 0 <= i < |reports| ==> ReportOk(reports[i], rows, unit)
    ensures forall i :: 0 <= i < |reports| ==> LinesFit(reports[i].costs, unit)
    ensures SumOfReadings(reports, bucket, unit) == KeysTally(ReportKeys(reports), rows, bucket, unit)
  {
    if reports != [] {
      var before, last := reports[..|reports| - 1], reports[|reports| - 1];
      ReadingsAreTallies(before, rows, bucket, unit);
      assert ReportKeys(reports)[..|before|] == ReportKeys(before);
      assert ReportOk(last, rows, unit);
      GroupRowsFit(rows, last.key, unit);
      CallsOfFit(GroupRows(rows, last.key), unit);
      ReadingIsTotal(last.costs, CallsOf(GroupRows(rows, last.key)), bucket, unit);
    }
  }

  /** The reported group totals of any currency and source add up to the exact total over all attempts. */
  lemma ReportsAddUp(reports: seq<Report>, rows: seq<Row>, bucket: Bucket, unit: int)
    requires RowsFit(rows, unit) && Reported(reports, rows, unit)
    ensures forall i :: 0 <= i < |reports| ==> LinesFit(reports[i].costs, unit)
    ensures RowsFit(AttemptsOf(rows), unit)
    ensures SumOfReadings(reports, bucket, unit) == Tally(AttemptsOf(rows), bucket, unit)
  {
    ReadingsAreTallies(reports, rows, bucket, unit);
    forall k | 0 <= k < |rows| && rows[k].execution.Some? ensures rows[k].group in ReportKeys(reports) {
      AttemptInItsGroup(rows, k);
      var i :| 0 <= i < |reports| && reports[i].key == rows[k].group;
      assert ReportKeys(reports)[i] == rows[k].group;
    }
    GroupsAddUp(ReportKeys(reports), rows, bucket, unit);
  }
}
