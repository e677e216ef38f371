/**
 The disposable history index: facet, cost and start-time tables built from the history rows, and the
 search over them, which answers exactly what a scan of the rows would.
 */
module HistoryIndexes {
  import opened Options
  import opened Money

  type Name = nat

  // ----- time stamps -----

  /** Year, month, day, hour, minute, second and microsecond in UTC. */
  type Instant = seq<nat>

  const WIDTHS := [4, 2, 2, 2, 2, 2, 6]

  /** The separator after each part; it is the same wherever two stamps are compared. */
  const SEPARATOR := 10

  predicate IsInstant(t: Instant) { |t| == |WIDTHS| && forall i :: 0 <= i < |t| ==> t[i] < Pow10(WIDTHS[i]) }

  predicate Less(a: seq<nat>, b: seq<nat>) {
    if a == [] then b != []
    else b != [] && (a[0] < b[0] || (a[0] == b[0] && Less(a[1..], b[1..])))
  }

  predicate AtMost(a: seq<nat>, b: seq<nat>) { a == b || Less(a, b) }

  function Padded(v: nat, width: nat): seq<nat> {
    if width == 0 then [] else Padded(v / 10, width - 1) + [v % 10]
  }

  /** The text of a stamp: every part with its fixed width. */
  function Render(parts: seq<nat>, widths: seq<nat>): seq<nat>
    requires |parts| == |widths|
  {
    if parts == [] then [] else Padded(parts[0], widths[0]) + ([SEPARATOR] + Render(parts[1..], widths[1..]))
  }

  function Stamp(t: Instant): seq<nat>
    requires IsInstant(t)
  {
    Render(t, WIDTHS)
  }

  lemma {:induction false} PaddedOrder(a: nat, b: nat, width: nat, s: seq<nat>, t: seq<nat>)
    requires a < Pow10(width) && b < Pow10(width)
    ensures Less(Padded(a, width) + s, Padded(b, width) + t) <==> a < b || (a == b && Less(s, t))
    ensures Padded(a, width) + s == Padded(b, width) + t <==> a == b && s == t
    decreases width
  {
    if width == 0 {
      assert Padded(a, 0) + s == s && Padded(b, 0) + t == t;
    } else {
      var s1, t1 := [a % 10] + s, [b % 10] + t;
      PaddedOrder(a / 10, b / 10, width - 1, s1, t1);
      assert Padded(a, width) + s == Padded(a / 10, width - 1) + s1;
      assert Padded(b, width) + t == Padded(b / 10, width - 1) + t1;
      assert s1[1..] == s && t1[1..] == t;
    }
  }

  lemma {:induction false} RenderOrder(a: seq<nat>, b: seq<nat>, widths: seq<nat>)
    requires |a| == |b| == |widths|
    requires forall i :: 0 <= i < |a| ==> a[i] < Pow10(widths[i]) && b[i] < Pow10(widths[i])
    ensures Less(Render(a, widths), Render(b, widths)) <==> Less(a, b)
    ensures Render(a, widths) == Render(b, widths) <==> a == b
  {
    if a != [] {
      RenderOrder(a[1..], b[1..], widths[1..]);
      var s, t := [SEPARATOR] + Render(a[1..], widths[1..]), [SEPARATOR] + Render(b[1..], widths[1..]);
      assert s[1..] == Render(a[1..], widths[1..]) && t[1..] == Render(b[1..], widths[1..]);
      PaddedOrder(a[0], b[0], widths[0], s, t);
      assert a == [a[0]] + a[1..] && b == [b[0]] + b[1..];
    }
  }

  /** Text order: the first place where the texts differ decides, and a proper prefix comes first. */
  lemma {:induction false} LessIff(a: seq<nat>, b: seq<nat>)
    ensures Less(a, b) <==>
      exists k :: 0 <= k <= |a| && k < |b| && a[..k] == b[..k] && (k == |a| || a[k] < b[k])
  {
    if a == [] {
      assert b != [] ==> a[..0] == b[..0];
    } else if b != [] {
      LessIff(a[1..], b[1..]);
      if Less(a, b) && a[0] == b[0] {
        var k :| 0 <= k <= |a| - 1 && k < |b| - 1 && a[1..][..k] == b[1..][..k] &&
          (k == |a| - 1 || a[1..][k] < b[1..][k]);
        assert a[..k + 1] == [a[0]] + a[1..][..k] && b[..k + 1] == [b[0]] + b[1..][..k];
      } else if Less(a, b) {
        assert a[..0] == b[..0];
      }
      if k :| 0 <= k <= |a| && k < |b| && a[..k] == b[..k] && (k == |a| || a[k] < b[k]) {
        if k > 0 {
          assert a[0] == a[..k][0] && b[0] == b[..k][0];
          assert a[1..][..k - 1] == a[..k][1..] && b[1..][..k - 1] == b[..k][1..];
        }
      }
    }
  }

  /** One of two texts is before the other, or they are the same. */
  lemma {:induction false} AtMostIff(a: seq<nat>, b: seq<nat>)
    ensures AtMost(a, b) <==> !Less(b, a)
  {
    if a != [] && b != [] {
      AtMostIff(a[1..], b[1..]);
      assert a == [a[0]] + a[1..] && b == [b[0]] + b[1..];
    }
    NotBeforeItself(a);
  }

  lemma {:induction false} NotBeforeItself(a: seq<nat>)
    ensures !Less(a, a)
  {
    if a != [] { NotBeforeItself(a[1..]); }
  }

  /** Comparing the fixed-width texts compares the instants. */
  lemma StampOrder(a: Instant, b: Instant)
    requires IsInstant(a) && IsInstant(b)
    ensures AtMost(Stamp(a), Stamp(b)) <==> AtMost(a, b)
  {
    RenderOrder(a, b, WIDTHS);
  }

  lemma StampCompares(a: Instant, b: Instant)
    requires IsInstant(a) && IsInstant(b)
    ensures AtMost(Stamp(a), Stamp(b)) <==> !Less(b, a)
  {
    StampOrder(a, b);
    AtMostIff(a, b);
  }

  // ----- rows and queries -----

  datatype Cell = One(value: Option<Name>) | Many(values: seq<Option<Name>>)

  datatype Cost = Cost(currency: Name, source: Name, total: Decimal)

  datatype Row = Row(payload: nat, text: string, startedAt: Option<Instant>, cells: map<Name, Cell>, costs: seq<Cost>) {
    predicate Valid() { startedAt.Some? ==> IsInstant(startedAt.value) }
  }

  datatype CostQuery = CostQuery(currency: Name, source: Name, min: Option<Decimal>, max: Option<Decimal>)

  datatype Query = Query(
    text: string, filters: map<Name, Option<Name>>, limit: nat, offset: nat,
    from: Option<Instant>, to: Option<Instant>, cost: Option<CostQuery>)
  {
    /** What the query type validates. */
    predicate Valid(fields: seq<Name>) {
      && (forall f :: f in filters ==> f in fields)
      && 1 <= limit <= 1000
      && (from.Some? ==> IsInstant(from.value)) && (to.Some? ==> IsInstant(to.value))
    }
  }

  /** The values a row has in one field: a missing value or an empty list counts as unknown. */
  function Values(row: Row, field: Name): seq<Option<Name>> {
    if field !in row.cells then [None]
    else
      match row.cells[field]
      case One(v) => [v]
      case Many(vs) => if vs == [] then [None] else vs
  }

  /** The row has this value in this field, or nothing there and the value is unknown. */
  ghost predicate HasValue(row: Row, field: Name, value: Option<Name>) {
    if field in row.cells && row.cells[field].One? then value == row.cells[field].value
    else if field in row.cells && row.cells[field].values != [] then value in row.cells[field].values
    else value.None?
  }

  predicate FoundAt(text: string, part: string, i: int) { 0 <= i <= |text| - |part| && text[i..i + |part|] == part }

  predicate Contains(text: string, part: string) { exists i :: 0 <= i <= |text| && FoundAt(text, part, i) }

  /** Exact comparison of two decimals. */
  predicate NotAbove(a: Decimal, b: Decimal) {
    var e := if a.exponent < b.exponent then a.exponent else b.exponent;
    Value(a, e) <= Value(b, e)
  }

  /** `_decimal_range`. */
  predicate InRange(total: Decimal, min: Option<Decimal>, max: Option<Decimal>) {
    (min.Some? ==> NotAbove(min.value, total)) && (max.Some? ==> NotAbove(total, max.value))
  }

  predicate CostMatches(c: Cost, q: CostQuery) {
    c.currency == q.currency && c.source == q.source && InRange(c.total, q.min, q.max)
  }

  lemma ContainsIff(text: string, part: string)
    ensures Contains(text, part) <==> exists before, after :: text == before + part + after
  {
    if Contains(text, part) {
      var i :| 0 <= i <= |text| && FoundAt(text, part, i);
      assert text == text[..i] + part + text[i + |part|..];
    }
    if before, after :| text == before + part + after {
      assert FoundAt(text, part, |before|);
    }
  }

  /** The decimals compare as the numbers they stand for, in some common unit. */
  ghost predicate Below(a: Decimal, b: Decimal) {
    exists unit :: unit <= a.exponent && unit <= b.exponent && Value(a, unit) <= Value(b, unit)
  }

  lemma BelowIff(a: Decimal, b: Decimal)
    ensures NotAbove(a, b) <==> Below(a, b)
  {
    var e := if a.exponent < b.exponent then a.exponent else b.exponent;
    if unit :| unit <= a.exponent && unit <= b.exponent && Value(a, unit) <= Value(b, unit) {
      SameOrder(a, b, e, unit);
    }
  }

  lemma SameOrder(a: Decimal, b: Decimal, e: int, unit: int)
    requires unit <= e <= a.exponent && e <= b.exponent
    ensures Value(a, unit) <= Value(b, unit) <==> Value(a, e) <= Value(b, e)
  {
    Rescaled(a, unit, e);
    Rescaled(b, unit, e);
    ScaledOrder(Value(a, e), Value(b, e), Pow10(e - unit));
  }

  lemma ScaledOrder(x: nat, y: nat, p: nat)
    requires p >= 1
    ensures x * p <= y * p <==> x <= y
  {
    if x > y { MulStrict(y, x, p); }
    if x < y { MulStrict(x, y, p); }
  }

  /** One cost of the row is in this currency and from this source, and within the bounds. */
  ghost predicate Costs(row: Row, q: CostQuery) {
    exists c :: c in row.costs && c.currency == q.currency && c.source == q.source
      && (q.min.Some? ==> Below(q.min.value, c.total)) && (q.max.Some? ==> Below(c.total, q.max.value))
  }

  lemma CostsIff(row: Row, q: CostQuery)
    ensures Costs(row, q) <==> exists k :: 0 <= k < |row.costs| && CostMatches(row.costs[k], q)
  {
    forall c: Cost
      ensures CostMatches(c, q) <==>
        && c.currency == q.currency && c.source == q.source
        && (q.min.Some? ==> Below(q.min.value, c.total)) && (q.max.Some? ==> Below(c.total, q.max.value))
    {
      if q.min.Some? { BelowIff(q.min.value, c.total); }
      if q.max.Some? { BelowIff(c.total, q.max.value); }
    }
  }

  /** What the query asks of one row. Case folding of the searched text is given. */
  ghost predicate Keeps(row: Row, q: Query, folded: string) {
    && (q.text != [] ==> exists before, after :: row.text == before + folded + after)
    && (forall f :: f in q.filters ==> HasValue(row, f, q.filters[f]))
    && (q.from.Some? ==> row.startedAt.Some? && !Less(row.startedAt.value, q.from.value))
    && (q.to.Some? ==> row.startedAt.Some? && !Less(q.to.value, row.startedAt.value))
    && (q.cost.Some? ==> Costs(row, q.cost.value))
  }

  /** The direct scan, in order. */
  ghost function Scan(rows: seq<Row>, q: Query, folded: string): seq<nat> {
    if rows == [] then []
    else
      var last := rows[|rows| - 1];
      Scan(rows[..|rows| - 1], q, folded) + if Keeps(last, q, folded) then [last.payload] else []
  }

  function Page(all: seq<nat>, limit: nat, offset: nat): seq<nat> {
    if offset >= |all| then [] else if offset + limit <= |all| then all[offset..offset + limit] else all[offset..]
  }

  // ----- the tables -----

  datatype Evidence = Evidence(payload: nat, text: string, startedAt: Option<seq<nat>>)
  datatype Facet = Facet(row: nat, field: Name, value: Option<Name>)
  datatype CostEntry = CostEntry(row: nat, cost: Cost)

  datatype Index = Index(evidence: seq<Evidence>, facets: seq<Facet>, costs: seq<CostEntry>)

  function EvidenceOf(row: Row): Evidence
    requires row.Valid()
  {
    Evidence(row.payload, row.text, if row.startedAt.Some? then Some(Stamp(row.startedAt.value)) else None)
  }

  ghost predicate FacetsOk(facets: seq<Facet>, rows: seq<Row>, fields: seq<Name>) {
    forall x :: x in facets <==> x.row < |rows| && x.field in fields && HasValue(rows[x.row], x.field, x.value)
  }

  ghost predicate CostsOk(costs: seq<CostEntry>, rows: seq<Row>) {
    forall x :: x in costs <==> x.row < |rows| && x.cost in rows[x.row].costs
  }

  ghost predicate Describes(index: Index, rows: seq<Row>, fields: seq<Name>)
    requires forall i :: 0 <= i < |rows| ==> rows[i].Valid()
  {
    && |index.evidence| == |rows| && (forall i :: 0 <= i < |rows| ==> index.evidence[i] == EvidenceOf(rows[i]))
    && FacetsOk(index.facets, rows, fields) && CostsOk(index.costs, rows)
  }

  /** The facet rows of one history row. */
  method AddFacets(facets: seq<Facet>, rows: seq<Row>, row: Row, fields: seq<Name>) returns (more: seq<Facet>)
    requires FacetsOk(facets, rows, fields)
    ensures FacetsOk(more, rows + [row], fields)
  {
    more := facets;
    for i := 0 to |fields|
      invariant forall x :: x in more <==>
        x in facets || (x.row == |rows| && x.field in fields[..i] && HasValue(row, x.field, x.value))
    {
      var values := Values(row, fields[i]);
      assert forall v :: v in values <==> HasValue(row, fields[i], v);
      ghost var before := more;
      for j := 0 to |values|
        invariant forall x :: x in more <==>
          x in before || (x.row == |rows| && x.field == fields[i] && x.value in values[..j])
      {
        more := more + [Facet(|rows|, fields[i], values[j])];
      }
    }
  }

  method AddCosts(costs: seq<CostEntry>, ghost rows: seq<Row>, id: nat, row: Row) returns (more: seq<CostEntry>)
    requires CostsOk(costs, rows) && id == |rows|
    ensures CostsOk(more, rows + [row])
  {
    more := costs;
    for j := 0 to |row.costs|
      invariant forall x :: x in more <==> x in costs || (x.row == id && x.cost in row.costs[..j])
    {
      more := more + [CostEntry(id, row.costs[j])];
    }
  }

  /** `_publish`: the tables. */
  method Build(rows: seq<Row>, fields: seq<Name>) returns (index: Index)
    requires forall i :: 0 <= i < |rows| ==> rows[i].Valid()
    ensures Describes(index, rows, fields)
  {
    index := Index([], [], []);
    for i := 0 to |rows|
      invariant Describes(index, rows[..i], fields)
    {
      var costs := AddCosts(index.costs, rows[..i], i, rows[i]);
      var facets := AddFacets(index.facets, rows[..i], rows[i], fields);
      assert rows[..i] + [rows[i]] == rows[..i + 1];
      index := Index(index.evidence + [EvidenceOf(rows[i])], facets, costs);
    }
    assert rows[..|rows|] == rows;
  }

  // ----- search -----

  datatype Clause =
    | TextHas(part: string) | FacetIs(field: Name, value: Option<Name>)
    | From(stamp: seq<nat>) | To(stamp: seq<nat>) | CostIn(query: CostQuery)

  /** One SQL condition on one evidence row; comparing with a missing start is not true. */
  predicate Satisfies(index: Index, row: nat, c: Clause)
    requires row < |index.evidence|
  {
    var e := index.evidence[row];
    match c
    case TextHas(part) => Contains(e.text, part)
    case FacetIs(field, value) => Facet(row, field, value) in index.facets
    case From(stamp) => e.startedAt.Some? && AtMost(stamp, e.startedAt.value)
    case To(stamp) => e.startedAt.Some? && AtMost(e.startedAt.value, stamp)
    case CostIn(q) => exists x :: x in index.costs && x.row == row && CostMatches(x.cost, q)
  }

  predicate SatisfiesAll(index: Index, row: nat, clauses: seq<Clause>)
    requires row < |index.evidence|
  {
    forall k :: 0 <= k < |clauses| ==> Satisfies(index, row, clauses[k])
  }

  /** The conditions of a query. */
  ghost predicate Wants(c: Clause, q: Query, folded: string)
    requires (q.from.Some? ==> IsInstant(q.from.value)) && (q.to.Some? ==> IsInstant(q.to.value))
  {
    match c
    case TextHas(part) => q.text != [] && part == folded
    case FacetIs(field, value) => field in q.filters && q.filters[field] == value
    case From(stamp) => q.from.Some? && stamp == Stamp(q.from.value)
    case To(stamp) => q.to.Some? && stamp == Stamp(q.to.value)
    case CostIn(cost) => q.cost == Some(cost)
  }

  method Clauses(q: Query, folded: string, fields: seq<Name>) returns (clauses: seq<Clause>)
    requires q.Valid(fields)
    ensures forall c :: c in clauses <==> Wants(c, q, folded)
  {
    clauses := if q.text != [] then [TextHas(folded)] else [];
    var names := q.filters.Keys;
    while names != {}
      invariant names <= q.filters.Keys
      invariant forall c :: c in clauses <==>
        if c.TextHas? then q.text != [] && c.part == folded
        else c.FacetIs? && c.field in q.filters && c.field !in names && q.filters[c.field] == c.value
      decreases names
    {
      var name :| name in names;
      clauses := clauses + [FacetIs(name, q.filters[name])];
      names := names - {name};
    }
    clauses := clauses + (if q.from.Some? then [From(Stamp(q.from.value))] else []);
    clauses := clauses + (if q.to.Some? then [To(Stamp(q.to.value))] else []);
    clauses := clauses + (if q.cost.Some? then [CostIn(q.cost.value)] else []);
  }

  /** The tables answer one condition as the row itself would. */
  lemma SatisfiedIffKept(index: Index, rows: seq<Row>, fields: seq<Name>, q: Query, folded: string,
      clauses: seq<Clause>, i: nat)
    requires i < |rows| && q.Valid(fields) && forall k :: 0 <= k < |rows| ==> rows[k].Valid()
    requires Describes(index, rows, fields) && forall c :: c in clauses <==> Wants(c, q, folded)
    ensures SatisfiesAll(index, i, clauses) <==> Keeps(rows[i], q, folded)
  {
    var row := rows[i];
    assert index.evidence[i] == EvidenceOf(row);
    if q.from.Some? && row.startedAt.Some? { StampCompares(q.from.value, row.startedAt.value); }
    if q.to.Some? && row.startedAt.Some? { StampCompares(row.startedAt.value, q.to.value); }
    if SatisfiesAll(index, i, clauses) {
      SatisfiedIsKept(index, rows, fields, q, folded, clauses, i);
    }
    if Keeps(row, q, folded) {
      forall k | 0 <= k < |clauses| ensures Satisfies(index, i, clauses[k]) {
        assert Wants(clauses[k], q, folded);
        KeptSatisfies(index, rows, fields, q, folded, clauses[k], i);
      }
    }
  }

  lemma SatisfiedIsKept(index: Index, rows: seq<Row>, fields: seq<Name>, q: Query, folded: string,
      clauses: seq<Clause>, i: nat)
    requires i < |rows| && q.Valid(fields) && forall k :: 0 <= k < |rows| ==> rows[k].Valid()
    requires Describes(index, rows, fields) && forall c :: c in clauses <==> Wants(c, q, folded)
    requires SatisfiesAll(index, i, clauses)
    ensures Keeps(rows[i], q, folded)
  {
    forall c | Wants(c, q, folded) ensures Satisfies(index, i, c) {
      assert c in clauses;
    }
    var row := rows[i];
    if q.text != [] {
      assert Satisfies(index, i, TextHas(folded));
      ContainsIff(row.text, folded);
    }
    forall f | f in q.filters ensures HasValue(row, f, q.filters[f]) {
      assert Satisfies(index, i, FacetIs(f, q.filters[f]));
    }
    if q.from.Some? {
      assert Satisfies(index, i, From(Stamp(q.from.value)));
      StampCompares(q.from.value, row.startedAt.value);
    }
    if q.to.Some? {
      assert Satisfies(index, i, To(Stamp(q.to.value)));
      StampCompares(row.startedAt.value, q.to.value);
    }
    if q.cost.Some? {
      assert Satisfies(index, i, CostIn(q.cost.value));
      var x :| x in index.costs && x.row == i && CostMatches(x.cost, q.cost.value);
      var k :| 0 <= k < |row.costs| && row.costs[k] == x.cost;
      CostsIff(row, q.cost.value);
    }
  }

  lemma KeptSatisfies(index: Index, rows: seq<Row>, fields: seq<Name>, q: Query, folded: string, c: Clause, i: nat)
    requires i < |rows| && q.Valid(fields) && forall k :: 0 <= k < |rows| ==> rows[k].Valid()
    requires Describes(index, rows, fields) && Wants(c, q, folded) && Keeps(rows[i], q, folded)
    ensures Satisfies(index, i, c)
  {
    var row := rows[i];
    match c
    case TextHas(part) => ContainsIff(row.text, part);
    case FacetIs(field, value) =>
    case From(stamp) => StampCompares(q.from.value, row.startedAt.value);
    case To(stamp) => StampCompares(row.startedAt.value, q.to.value);
    case CostIn(cost) =>
      CostsIff(row, cost);
      var k :| 0 <= k < |row.costs| && CostMatches(row.costs[k], cost);
      assert CostEntry(i, row.costs[k]) in index.costs;
  }

  /** `search`: the number of answers whatever the page, and the page asked for or everything. */
  method Search(index: Index, ghost rows: seq<Row>, fields: seq<Name>, q: Query, folded: string, paginate: bool)
    returns (count: nat, answers: seq<nat>)
    requires q.Valid(fields) && (forall k :: 0 <= k < |rows| ==> rows[k].Valid()) && Describes(index, rows, fields)
    ensures count == |Scan(rows, q, folded)|
    ensures answers == if paginate then Page(Scan(rows, q, folded), q.limit, q.offset) else Scan(rows, q, folded)
  {
    var clauses := Clauses(q, folded, fields);
    var all: seq<nat> := [];
    for i := 0 to |index.evidence|
      invariant all == Scan(rows[..i], q, folded)
    {
      SatisfiedIffKept(index, rows, fields, q, folded, clauses, i);
      assert rows[..i + 1][..i] == rows[..i] && rows[..i + 1][i] == rows[i];
      if SatisfiesAll(index, i, clauses) {
        all := all + [index.evidence[i].payload];
      }
    }
    assert rows[..|rows|] == rows;
    count := |all|;
    answers := if paginate then Page(all, q.limit, q.offset) else all;
  }

  // ----- pages -----

  /** The first pages, one after the other. */
  function Pages(all: seq<nat>, limit: nat, n: nat): seq<nat> {
    if n == 0 then [] else Pages(all, limit, n - 1) + Page(all, limit, (n - 1) * limit)
  }

  lemma {:induction false} PagesArePrefix(all: seq<nat>, limit: nat, n: nat)
    ensures Pages(all, limit, n) == if n * limit <= |all| then all[..n * limit] else all
  {
    if n > 0 {
      PagesArePrefix(all, limit, n - 1);
      assert n * limit == (n - 1) * limit + limit;
    }
  }

  /** Enough pages give every answer once, in order. */
  lemma PagesGiveEverything(all: seq<nat>, limit: nat, n: nat)
    requires n * limit >= |all|
    ensures Pages(all, limit, n) == all
  {
    PagesArePrefix(all, limit, n);
    if n * limit == |all| { assert all[..|all|] == all; }
  }
}
