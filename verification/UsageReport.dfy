/** The usage report of llmsvc/activity.py: `_build_usage_report`, `_accumulate` and `_attribution`. */
module UsageReport {
  import opened Options
  import opened ReportOrder

  datatype Counts = Counts(requests: int, errors: int, input: int, output: int, total: int, untracked: int, duration: int)
  {
    /** `_accumulate`. */
    function Plus(c: Counts): Counts {
      Counts(requests + c.requests, errors + c.errors, input + c.input, output + c.output, total + c.total,
             untracked + c.untracked, duration + c.duration)
    }
  }

  const ZERO := Counts(0, 0, 0, 0, 0, 0, 0)

  type Label = Option<string>

  datatype Axis = ByUser | ByModel | ByDay

  /** A grouped row of the query; `address` is the canonical client address, if it has one. */
  datatype Row = Row(
    invalidTokens: int, address: Option<string>, model: Label, day: string, ts: int, requests: int, errors: Option<int>,
    input: Option<int>, output: Option<int>, untracked: Option<int>, duration: Option<int>)

  /** Which addresses are the host's own, and which belong to containers. */
  datatype Directory = Directory(hosts: set<string>, configured: map<string, string>, exported: map<string, string>)

  function OrZero(value: Option<int>): int {
    if value.Some? then value.value else 0
  }

  function CountsOf(r: Row): Counts {
    Counts(r.requests, OrZero(r.errors), OrZero(r.input), OrZero(r.output), OrZero(r.input) + OrZero(r.output),
           OrZero(r.untracked), OrZero(r.duration))
  }

  /** `_attribution`: the host first, then the configured containers, then the exported ones. */
  function Attribution(address: Option<string>, d: Directory): (string, string) {
    if address.None? then ("unattributed", "unattributed")
    else if address.value in d.hosts then ("host", "host")
    else if address.value in d.configured then (d.configured[address.value], "container")
    else if address.value in d.exported then (d.exported[address.value], "container")
    else ("ip:" + address.value, "ip")
  }

  function User(r: Row, d: Directory): Label {
    Some(Attribution(r.address, d).0)
  }

  function KeyOf(axis: Axis, d: Directory, r: Row): Label {
    match axis
    case ByUser => User(r, d)
    case ByModel => r.model
    case ByDay => Some(r.day)
  }

  function KeyKind(axis: Axis, d: Directory, r: Row): string {
    match axis
    case ByUser => Attribution(r.address, d).1
    case ByModel => "model"
    case ByDay => "day"
  }

  function OtherOf(axis: Axis, d: Directory, r: Row): Label {
    if axis == ByModel then User(r, d) else r.model
  }

  function OtherKind(axis: Axis, d: Directory, r: Row): string {
    if axis == ByModel then Attribution(r.address, d).1 else "model"
  }

  // ---- the specification: sums over selected rows ----

  datatype Selector =
    | All
    | OfKey(key: Label)
    | OfCell(key: Label, other: Label)
    | AnyKey(keys: set<Label>)
    | AnyCell(key: Label, others: set<Label>)

  predicate Picks(axis: Axis, d: Directory, s: Selector, r: Row) {
    match s
    case All => true
    case OfKey(k) => KeyOf(axis, d, r) == k
    case OfCell(k, o) => KeyOf(axis, d, r) == k && OtherOf(axis, d, r) == o
    case AnyKey(ks) => KeyOf(axis, d, r) in ks
    case AnyCell(k, os) => KeyOf(axis, d, r) == k && OtherOf(axis, d, r) in os
  }

  function SumOf(axis: Axis, d: Directory, rows: seq<Row>, s: Selector): Counts {
    if rows == [] then ZERO
    else
      var rest := SumOf(axis, d, rows[..|rows| - 1], s);
      if Picks(axis, d, s, rows[|rows| - 1]) then rest.Plus(CountsOf(rows[|rows| - 1])) else rest
  }

  predicate Seen(axis: Axis, d: Directory, rows: seq<Row>, s: Selector) {
    rows != [] && (Picks(axis, d, s, rows[|rows| - 1]) || Seen(axis, d, rows[..|rows| - 1], s))
  }

  /** The first selected row, and the earliest and latest time of a selected row. */
  function First(axis: Axis, d: Directory, rows: seq<Row>, s: Selector): Option<Row> {
    if rows == [] then None
    else
      var before := First(axis, d, rows[..|rows| - 1], s);
      if before.None? && Picks(axis, d, s, rows[|rows| - 1]) then Some(rows[|rows| - 1]) else before
  }

  function Earliest(axis: Axis, d: Directory, rows: seq<Row>, s: Selector): Option<int> {
    if rows == [] then None
    else
      var before := Earliest(axis, d, rows[..|rows| - 1], s);
      if !Picks(axis, d, s, rows[|rows| - 1]) || (before.Some? && before.value <= rows[|rows| - 1].ts) then before
      else Some(rows[|rows| - 1].ts)
  }

  function Latest(axis: Axis, d: Directory, rows: seq<Row>, s: Selector): Option<int> {
    if rows == [] then None
    else
      var before := Latest(axis, d, rows[..|rows| - 1], s);
      if !Picks(axis, d, s, rows[|rows| - 1]) || (before.Some? && before.value >= rows[|rows| - 1].ts) then before
      else Some(rows[|rows| - 1].ts)
  }

  // ---- the report ----

  datatype Entry = Entry(kind: string, counts: Counts)

  datatype Bucket = Bucket(kind: string, counts: Counts, firstSeen: int, lastSeen: int, breakdown: map<Label, Entry>)

  datatype Cell = Cell(name: Label, kind: string, counts: Counts)

  datatype ReportRow = ReportRow(
    name: Label, kind: string, counts: Counts, firstSeen: int, lastSeen: int, breakdown: seq<Cell>)

  datatype Report = Report(rows: seq<ReportRow>, totals: Counts)

  predicate EntryOk(axis: Axis, d: Directory, rows: seq<Row>, k: Label, o: Label, e: Entry) {
    && e.counts == SumOf(axis, d, rows, OfCell(k, o))
    && var first := First(axis, d, rows, OfCell(k, o)); first.Some? && e.kind == OtherKind(axis, d, first.value)
  }

  predicate HeadOk(axis: Axis, d: Directory, rows: seq<Row>, k: Label, b: Bucket) {
    && b.counts == SumOf(axis, d, rows, OfKey(k))
    && Some(b.firstSeen) == Earliest(axis, d, rows, OfKey(k)) && Some(b.lastSeen) == Latest(axis, d, rows, OfKey(k))
    && var first := First(axis, d, rows, OfKey(k)); first.Some? && b.kind == KeyKind(axis, d, first.value)
  }

  ghost predicate BreakdownOk(axis: Axis, d: Directory, rows: seq<Row>, k: Label, m: map<Label, Entry>) {
    && (forall o :: o in m <==> Seen(axis, d, rows, OfCell(k, o)))
    && (forall o | o in m :: EntryOk(axis, d, rows, k, o, m[o]))
  }

  ghost predicate BucketsOk(axis: Axis, d: Directory, rows: seq<Row>, primary: map<Label, Bucket>) {
    && (forall k :: k in primary <==> Seen(axis, d, rows, OfKey(k)))
    && (forall k | k in primary :: HeadOk(axis, d, rows, k, primary[k]) && BreakdownOk(axis, d, rows, k, primary[k].breakdown))
  }

  /** Row r adds itself to its own cell and leaves the others alone. */
  lemma BreakdownStep(axis: Axis, d: Directory, rows: seq<Row>, r: Row, m: map<Label, Entry>, e: Entry)
    requires var k, o := KeyOf(axis, d, r), OtherOf(axis, d, r);
             && BreakdownOk(axis, d, rows, k, m)
             && e == (if o in m then m[o].(counts := m[o].counts.Plus(CountsOf(r)))
                      else Entry(OtherKind(axis, d, r), ZERO.Plus(CountsOf(r))))
    ensures BreakdownOk(axis, d, rows + [r], KeyOf(axis, d, r), m[OtherOf(axis, d, r) := e])
  {
    hide CountsOf, KeyOf, OtherOf, KeyKind, OtherKind;
    var k, o := KeyOf(axis, d, r), OtherOf(axis, d, r);
    assert (rows + [r])[..|rows|] == rows;
    UnseenIsEmpty(axis, d, rows, OfCell(k, o));
    forall p | p in m ensures EntryOk(axis, d, rows, k, p, m[p]) {
    }
    var grown := m[o := e];
    forall p | p in grown ensures EntryOk(axis, d, rows + [r], k, p, grown[p]) {
    }
  }

  /** A cell of another key does not change. */
  lemma BreakdownKept(axis: Axis, d: Directory, rows: seq<Row>, r: Row, k: Label, m: map<Label, Entry>)
    requires KeyOf(axis, d, r) != k && BreakdownOk(axis, d, rows, k, m)
    ensures BreakdownOk(axis, d, rows + [r], k, m)
  {
    hide CountsOf, KeyOf, OtherOf, KeyKind, OtherKind;
    assert (rows + [r])[..|rows|] == rows;
  }

  lemma {:induction false} UnseenIsEmpty(axis: Axis, d: Directory, rows: seq<Row>, s: Selector)
    ensures !Seen(axis, d, rows, s) <==> First(axis, d, rows, s).None?
    ensures !Seen(axis, d, rows, s) <==> Earliest(axis, d, rows, s).None?
    ensures !Seen(axis, d, rows, s) <==> Latest(axis, d, rows, s).None?
    ensures !Seen(axis, d, rows, s) ==> SumOf(axis, d, rows, s) == ZERO
  {
    if rows != [] {
      UnseenIsEmpty(axis, d, rows[..|rows| - 1], s);
    }
  }

  lemma CellSeenInKey(axis: Axis, d: Directory, rows: seq<Row>, k: Label, o: Label)
    requires Seen(axis, d, rows, OfCell(k, o))
    ensures Seen(axis, d, rows, OfKey(k))
  {
  }

  /** The bucket of one row's key after the row. */
  function Grown(axis: Axis, d: Directory, b: Bucket, r: Row): Bucket {
    var o := OtherOf(axis, d, r);
    var e := if o in b.breakdown then b.breakdown[o] else Entry(OtherKind(axis, d, r), ZERO);
    Bucket(b.kind, b.counts.Plus(CountsOf(r)), if r.ts < b.firstSeen then r.ts else b.firstSeen,
           if r.ts > b.lastSeen then r.ts else b.lastSeen, b.breakdown[o := e.(counts := e.counts.Plus(CountsOf(r)))])
  }

  function Opened(axis: Axis, d: Directory, r: Row): Bucket {
    Bucket(KeyKind(axis, d, r), ZERO, r.ts, r.ts, map[])
  }

  lemma HeadStep(axis: Axis, d: Directory, rows: seq<Row>, r: Row, b: Bucket)
    requires var k := KeyOf(axis, d, r);
             if Seen(axis, d, rows, OfKey(k)) then HeadOk(axis, d, rows, k, b) else b == Opened(axis, d, r)
    ensures HeadOk(axis, d, rows + [r], KeyOf(axis, d, r), Grown(axis, d, b, r))
  {
    hide CountsOf, KeyOf, OtherOf, KeyKind, OtherKind, BreakdownOk;
    assert (rows + [r])[..|rows|] == rows;
    UnseenIsEmpty(axis, d, rows, OfKey(KeyOf(axis, d, r)));
  }

  lemma HeadKept(axis: Axis, d: Directory, rows: seq<Row>, r: Row, k: Label, b: Bucket)
    requires KeyOf(axis, d, r) != k && HeadOk(axis, d, rows, k, b)
    ensures HeadOk(axis, d, rows + [r], k, b)
  {
    hide CountsOf, KeyOf, OtherOf, KeyKind, OtherKind;
    assert (rows + [r])[..|rows|] == rows;
  }

  lemma SeenStep(axis: Axis, d: Directory, rows: seq<Row>, r: Row, k: Label)
    ensures Seen(axis, d, rows + [r], OfKey(k)) <==> k == KeyOf(axis, d, r) || Seen(axis, d, rows, OfKey(k))
  {
    assert (rows + [r])[..|rows|] == rows;
  }

  lemma BucketStep(axis: Axis, d: Directory, rows: seq<Row>, r: Row, primary: map<Label, Bucket>)
    requires BucketsOk(axis, d, rows, primary)
    ensures var k := KeyOf(axis, d, r);
            var b := if k in primary then primary[k] else Opened(axis, d, r);
            BucketsOk(axis, d, rows + [r], primary[k := Grown(axis, d, b, r)])
  {
    hide CountsOf, KeyOf, OtherOf, KeyKind, OtherKind, BreakdownOk, HeadOk, Seen;
    var k := KeyOf(axis, d, r);
    var b := if k in primary then primary[k] else Opened(axis, d, r);
    if k !in primary {
      NothingBroken(axis, d, rows, k);
    }
    HeadStep(axis, d, rows, r, b);
    BreakdownStep(axis, d, rows, r, b.breakdown, Grown(axis, d, b, r).breakdown[OtherOf(axis, d, r)]);
    forall j | j in primary && j != k
      ensures HeadOk(axis, d, rows + [r], j, primary[j]) && BreakdownOk(axis, d, rows + [r], j, primary[j].breakdown)
    {
      HeadKept(axis, d, rows, r, j, primary[j]);
      BreakdownKept(axis, d, rows, r, j, primary[j].breakdown);
    }
    forall j ensures Seen(axis, d, rows + [r], OfKey(j)) <==> j == k || Seen(axis, d, rows, OfKey(j)) {
      SeenStep(axis, d, rows, r, j);
    }
  }

  lemma NothingBroken(axis: Axis, d: Directory, rows: seq<Row>, k: Label)
    requires !Seen(axis, d, rows, OfKey(k))
    ensures BreakdownOk(axis, d, rows, k, map[])
  {
    forall o ensures !Seen(axis, d, rows, OfCell(k, o)) {
      if Seen(axis, d, rows, OfCell(k, o)) {
        CellSeenInKey(axis, d, rows, k, o);
      }
    }
  }

  predicate HasRow(items: seq<ReportRow>, k: Label) {
    exists i :: 0 <= i < |items| && items[i].name == k
  }

  predicate HasCell(cells: seq<Cell>, o: Label) {
    exists i :: 0 <= i < |cells| && cells[i].name == o
  }

  lemma RowAdded(items: seq<ReportRow>, item: ReportRow)
    ensures forall k :: HasRow(items + [item], k) <==> k == item.name || HasRow(items, k)
  {
    var longer := items + [item];
    assert longer[|items|] == item;
    forall k | HasRow(items, k) ensures HasRow(longer, k) {
      var i :| 0 <= i < |items| && items[i].name == k;
      assert longer[i].name == k;
    }
  }

  lemma CellAdded(cells: seq<Cell>, cell: Cell)
    ensures forall o :: HasCell(cells + [cell], o) <==> o == cell.name || HasCell(cells, o)
  {
    var longer := cells + [cell];
    assert longer[|cells|] == cell;
    forall o | HasCell(cells, o) ensures HasCell(longer, o) {
      var i :| 0 <= i < |cells| && cells[i].name == o;
      assert longer[i].name == o;
    }
  }

  function CellKey(c: Cell): SortKey {
    SortKey(c.counts.requests, c.name)
  }

  function RowKey(axis: Axis, item: ReportRow): SortKey {
    SortKey(if axis == ByDay then 0 else item.counts.requests, item.name)
  }

  function RowOrder(axis: Axis): ReportRow -> SortKey {
    item => RowKey(axis, item)
  }

  /** What a finished report says about its rows. */
  ghost predicate Reports(axis: Axis, d: Directory, rows: seq<Row>, report: Report) {
    && report.totals == SumOf(axis, d, rows, All)
    && RowsListed(axis, d, rows, report.rows)
    && Ascending(report.rows, RowOrder(axis))
  }

  ghost predicate RowsListed(axis: Axis, d: Directory, rows: seq<Row>, items: seq<ReportRow>) {
    && (forall i, j | 0 <= i < j < |items| :: items[i].name != items[j].name)
    && (forall k :: Seen(axis, d, rows, OfKey(k)) <==> HasRow(items, k))
    && (forall i | 0 <= i < |items| :: RowOk(axis, d, rows, items[i]))
  }

  ghost predicate RowOk(axis: Axis, d: Directory, rows: seq<Row>, item: ReportRow) {
    && HeadOk(axis, d, rows, item.name, Bucket(item.kind, item.counts, item.firstSeen, item.lastSeen, map[]))
    && CellsOk(axis, d, rows, item.name, item.breakdown)
  }

  ghost predicate CellsOk(axis: Axis, d: Directory, rows: seq<Row>, k: Label, cells: seq<Cell>) {
    CellsListed(axis, d, rows, k, cells) && Ascending(cells, CellKey)
  }

  ghost predicate CellsListed(axis: Axis, d: Directory, rows: seq<Row>, k: Label, cells: seq<Cell>) {
    && (forall i, j | 0 <= i < j < |cells| :: cells[i].name != cells[j].name)
    && (forall o :: Seen(axis, d, rows, OfCell(k, o)) <==> HasCell(cells, o))
    && (forall i | 0 <= i < |cells| :: EntryOk(axis, d, rows, k, cells[i].name, Entry(cells[i].kind, cells[i].counts)))
  }

  // ---- where the report cannot be sorted ----

  /** The row without a name has as many requests as row k. */
  predicate RowTie(axis: Axis, d: Directory, rows: seq<Row>, k: Label) {
    && axis != ByDay && k.Some? && Seen(axis, d, rows, OfKey(None)) && Seen(axis, d, rows, OfKey(k))
    && SumOf(axis, d, rows, OfKey(None)).requests == SumOf(axis, d, rows, OfKey(k)).requests
  }

  /** In the breakdown of k, the cell without a name has as many requests as cell o. */
  predicate CellTie(axis: Axis, d: Directory, rows: seq<Row>, k: Label, o: Label) {
    && o.Some? && Seen(axis, d, rows, OfCell(k, None)) && Seen(axis, d, rows, OfCell(k, o))
    && SumOf(axis, d, rows, OfCell(k, None)).requests == SumOf(axis, d, rows, OfCell(k, o)).requests
  }

  ghost predicate Raises(axis: Axis, d: Directory, rows: seq<Row>) {
    || (exists i :: 0 <= i < |rows| && rows[i].invalidTokens != 0)
    || (exists k :: RowTie(axis, d, rows, k))
    || (exists k, o :: CellTie(axis, d, rows, k, o))
  }

  /** Two keys that cannot be compared: one has no name, and the requests tie. */
  lemma TieMeans(a: SortKey, b: SortKey)
    requires a.name != b.name
    ensures !Comparable(a, b) <==> a.requests == b.requests && (a.name.None? || b.name.None?)
    ensures Comparable(a, b) <==> Comparable(b, a)
  {
  }

  /** The cells of k can be sorted exactly when none ties with the one that has no name. */
  lemma CellsTie(axis: Axis, d: Directory, rows: seq<Row>, k: Label, cells: seq<Cell>)
    requires CellsListed(axis, d, rows, k, cells)
    ensures !AllComparable(cells, CellKey) <==> exists o :: CellTie(axis, d, rows, k, o)
  {
    hide SumOf, Seen, First, Comparable;
    if !AllComparable(cells, CellKey) {
      var i, j :| 0 <= i < j < |cells| && !Comparable(CellKey(cells[i]), CellKey(cells[j]));
      CellSums(axis, d, rows, k, cells, i);
      CellSums(axis, d, rows, k, cells, j);
      TieMeans(CellKey(cells[i]), CellKey(cells[j]));
      assert CellTie(axis, d, rows, k, if cells[i].name.Some? then cells[i].name else cells[j].name);
    }
    if o :| CellTie(axis, d, rows, k, o) {
      assert HasCell(cells, None) && HasCell(cells, o);
      var i :| 0 <= i < |cells| && cells[i].name == None;
      var j :| 0 <= j < |cells| && cells[j].name == o;
      CellSums(axis, d, rows, k, cells, i);
      CellSums(axis, d, rows, k, cells, j);
      TieMeans(CellKey(cells[i]), CellKey(cells[j]));
    }
  }

  lemma CellSums(axis: Axis, d: Directory, rows: seq<Row>, k: Label, cells: seq<Cell>, i: nat)
    requires CellsListed(axis, d, rows, k, cells) && i < |cells|
    ensures Seen(axis, d, rows, OfCell(k, cells[i].name))
    ensures cells[i].counts == SumOf(axis, d, rows, OfCell(k, cells[i].name))
  {
    hide SumOf, Seen, First;
    assert HasCell(cells, cells[i].name);
    assert EntryOk(axis, d, rows, k, cells[i].name, Entry(cells[i].kind, cells[i].counts));
  }

  lemma RowsTie(axis: Axis, d: Directory, rows: seq<Row>, items: seq<ReportRow>)
    requires RowsListed(axis, d, rows, items)
    ensures !AllComparable(items, RowOrder(axis)) <==> exists k :: RowTie(axis, d, rows, k)
  {
    hide SumOf, Seen, First, RowOk, Comparable;
    if !AllComparable(items, RowOrder(axis)) {
      var i, j :| 0 <= i < j < |items| && !Comparable(RowKey(axis, items[i]), RowKey(axis, items[j]));
      RowSums(axis, d, rows, items, i);
      RowSums(axis, d, rows, items, j);
      TieMeans(RowKey(axis, items[i]), RowKey(axis, items[j]));
      DaysNamed(d, rows);
      assert RowTie(axis, d, rows, if items[i].name.Some? then items[i].name else items[j].name);
    }
    if k :| RowTie(axis, d, rows, k) {
      assert HasRow(items, None) && HasRow(items, k);
      var i :| 0 <= i < |items| && items[i].name == None;
      var j :| 0 <= j < |items| && items[j].name == k;
      RowSums(axis, d, rows, items, i);
      RowSums(axis, d, rows, items, j);
      TieMeans(RowKey(axis, items[i]), RowKey(axis, items[j]));
    }
  }

  lemma RowSums(axis: Axis, d: Directory, rows: seq<Row>, items: seq<ReportRow>, i: nat)
    requires RowsListed(axis, d, rows, items) && i < |items|
    ensures Seen(axis, d, rows, OfKey(items[i].name))
    ensures items[i].counts == SumOf(axis, d, rows, OfKey(items[i].name))
  {
    hide SumOf, Seen, First, Earliest, Latest, CellsOk;
    assert HasRow(items, items[i].name);
    assert RowOk(axis, d, rows, items[i]);
  }

  /** Every row has a day. */
  lemma {:induction false} DaysNamed(d: Directory, rows: seq<Row>)
    ensures !Seen(ByDay, d, rows, OfKey(None))
  {
    if rows != [] {
      DaysNamed(d, rows[..|rows| - 1]);
    }
  }

  /** Where an element of one list stands in a permutation of it. */
  lemma Elsewhere<T>(a: seq<T>, i: nat, b: seq<T>) returns (j: nat)
    requires multiset(a) == multiset(b) && i < |a|
    ensures j < |b| && b[j] == a[i]
  {
    assert a[i] in multiset(a) && a[i] in multiset(b);
    j :| 0 <= j < |b| && b[j] == a[i];
  }

  lemma CellsShuffled(axis: Axis, d: Directory, rows: seq<Row>, k: Label, cells: seq<Cell>, sorted: seq<Cell>)
    requires CellsListed(axis, d, rows, k, cells)
    requires multiset(sorted) == multiset(cells) && DistinctNames(sorted, CellKey)
    ensures CellsListed(axis, d, rows, k, sorted)
  {
    hide Seen, EntryOk;
    forall i, j | 0 <= i < j < |sorted| ensures sorted[i].name != sorted[j].name {
      assert CellKey(sorted[i]).name != CellKey(sorted[j]).name;
    }
    forall i | 0 <= i < |sorted|
      ensures EntryOk(axis, d, rows, k, sorted[i].name, Entry(sorted[i].kind, sorted[i].counts))
    {
      var j := Elsewhere(sorted, i, cells);
    }
    SameCells(cells, sorted);
  }

  lemma SameCells(a: seq<Cell>, b: seq<Cell>)
    requires multiset(a) == multiset(b)
    ensures forall o :: HasCell(a, o) <==> HasCell(b, o)
  {
    forall o ensures HasCell(a, o) <==> HasCell(b, o) {
      if i :| 0 <= i < |a| && a[i].name == o {
        var j := Elsewhere(a, i, b);
      }
      if j :| 0 <= j < |b| && b[j].name == o {
        var i := Elsewhere(b, j, a);
      }
    }
  }

  lemma RowsShuffled(axis: Axis, d: Directory, rows: seq<Row>, items: seq<ReportRow>, sorted: seq<ReportRow>)
    requires RowsListed(axis, d, rows, items)
    requires multiset(sorted) == multiset(items) && DistinctNames(sorted, RowOrder(axis))
    ensures RowsListed(axis, d, rows, sorted)
  {
    hide Seen, RowOk;
    forall i, j | 0 <= i < j < |sorted| ensures sorted[i].name != sorted[j].name {
      assert RowOrder(axis)(sorted[i]).name != RowOrder(axis)(sorted[j]).name;
    }
    forall i | 0 <= i < |sorted| ensures RowOk(axis, d, rows, sorted[i]) {
      var j := Elsewhere(sorted, i, items);
    }
    SameRows(items, sorted);
  }

  lemma SameRows(a: seq<ReportRow>, b: seq<ReportRow>)
    requires multiset(a) == multiset(b)
    ensures forall k :: HasRow(a, k) <==> HasRow(b, k)
  {
    forall k ensures HasRow(a, k) <==> HasRow(b, k) {
      if i :| 0 <= i < |a| && a[i].name == k {
        var j := Elsewhere(a, i, b);
      }
      if j :| 0 <= j < |b| && b[j].name == k {
        var i := Elsewhere(b, j, a);
      }
    }
  }

  /** Sorting changes nothing but the order, and raises exactly on a tie. */
  lemma CellsSorted(axis: Axis, d: Directory, rows: seq<Row>, k: Label, cells: seq<Cell>)
    requires CellsListed(axis, d, rows, k, cells)
    ensures Sorted(cells, CellKey).None? <==> exists o :: CellTie(axis, d, rows, k, o)
    ensures Sorted(cells, CellKey).Some? ==> CellsOk(axis, d, rows, k, Sorted(cells, CellKey).value)
  {
    CellsTie(axis, d, rows, k, cells);
    assert DistinctNames(cells, CellKey);
    hide CellsListed, CellTie, AllComparable, Ascending, DistinctNames, Sorted;
    SortedMeans(cells, CellKey);
    if Sorted(cells, CellKey).Some? {
      CellsShuffled(axis, d, rows, k, cells, Sorted(cells, CellKey).value);
    }
  }

  lemma RowsSorted(axis: Axis, d: Directory, rows: seq<Row>, items: seq<ReportRow>)
    requires RowsListed(axis, d, rows, items)
    ensures Sorted(items, RowOrder(axis)).None? <==> exists k :: RowTie(axis, d, rows, k)
    ensures var sorted := Sorted(items, RowOrder(axis));
            sorted.Some? ==> RowsListed(axis, d, rows, sorted.value) && Ascending(sorted.value, RowOrder(axis))
  {
    RowsTie(axis, d, rows, items);
    assert DistinctNames(items, RowOrder(axis));
    hide RowsListed, RowTie, AllComparable, Ascending, DistinctNames, Sorted;
    SortedMeans(items, RowOrder(axis));
    if Sorted(items, RowOrder(axis)).Some? {
      RowsShuffled(axis, d, rows, items, Sorted(items, RowOrder(axis)).value);
    }
  }

  /** One request without a model and one of model "a", at one time and from nowhere. */
  function UnnamedBesideNamed(ts: int, day: string): seq<Row> {
    var unnamed := Row(0, None, None, day, ts, 1, None, None, None, None, None);
    [unnamed, unnamed.(model := Some("a"))]
  }

  /** Two valid rows that no report can be built from, by user, model or day. */
  lemma UnnamedModelRaises(axis: Axis, d: Directory, ts: int, day: string)
    ensures forall r | r in UnnamedBesideNamed(ts, day) :: r.invalidTokens == 0
    ensures Raises(axis, d, UnnamedBesideNamed(ts, day))
  {
    hide SumOf, Seen;
    var rows := UnnamedBesideNamed(ts, day);
    if axis == ByModel {
      TwoRows(axis, d, rows, OfKey(None));
      TwoRows(axis, d, rows, OfKey(Some("a")));
      assert RowTie(axis, d, rows, Some("a"));
    } else {
      var k := KeyOf(axis, d, rows[0]);
      TwoRows(axis, d, rows, OfCell(k, None));
      TwoRows(axis, d, rows, OfCell(k, Some("a")));
      assert CellTie(axis, d, rows, k, Some("a"));
    }
  }

  lemma TwoRows(axis: Axis, d: Directory, rows: seq<Row>, s: Selector)
    requires |rows| == 2
    ensures Seen(axis, d, rows, s) <==> Picks(axis, d, s, rows[0]) || Picks(axis, d, s, rows[1])
    ensures SumOf(axis, d, rows, s)
            == (if Picks(axis, d, s, rows[0]) then CountsOf(rows[0]) else ZERO)
               .Plus(if Picks(axis, d, s, rows[1]) then CountsOf(rows[1]) else ZERO)
  {
    hide Picks, CountsOf, SumOf, Seen;
    assert rows == ([] + [rows[0]]) + [rows[1]];
    NoRows(axis, d);
    SumGrows(axis, d, [], rows[0], s);
    SumGrows(axis, d, [] + [rows[0]], rows[1], s);
  }

  /** When every row names its model, only an invalid row raises. */
  lemma NamedModelsSort(axis: Axis, d: Directory, rows: seq<Row>)
    requires forall r | r in rows :: r.model.Some?
    ensures Raises(axis, d, rows) <==> exists i :: 0 <= i < |rows| && rows[i].invalidTokens != 0
  {
    hide SumOf, Picks;
    AllNamed(axis, d, rows);
  }

  lemma {:induction false} AllNamed(axis: Axis, d: Directory, rows: seq<Row>)
    requires forall r | r in rows :: r.model.Some?
    ensures !Seen(axis, d, rows, OfKey(None))
    ensures forall k :: !Seen(axis, d, rows, OfCell(k, None))
  {
    if rows != [] {
      AllNamed(axis, d, rows[..|rows| - 1]);
      assert rows[|rows| - 1] in rows;
    }
  }

  lemma HeadAlone(axis: Axis, d: Directory, rows: seq<Row>, k: Label, b: Bucket)
    requires HeadOk(axis, d, rows, k, b)
    ensures HeadOk(axis, d, rows, k, b.(breakdown := map[]))
  {
  }

  /** `_build_usage_report`; None where it raises, on an invalid row or in one of the sorts. */
  method BuildReport(axis: Axis, d: Directory, rows: seq<Row>) returns (report: Option<Report>)
    ensures report.None? <==> Raises(axis, d, rows)
    ensures report.Some? ==> Reports(axis, d, rows, report.value)
  {
    hide CountsOf, KeyOf, OtherOf, KeyKind, OtherKind, BreakdownOk, HeadOk, BucketsOk;
    var primary: map<Label, Bucket> := map[];
    var totals := ZERO;
    NoBuckets(axis, d);
    for i := 0 to |rows|
      invariant forall j | 0 <= j < i :: rows[j].invalidTokens == 0
      invariant totals == SumOf(axis, d, rows[..i], All) && BucketsOk(axis, d, rows[..i], primary)
    {
      if rows[i].invalidTokens != 0 {
        return None;
      }
      var counts := CountsOf(rows[i]);
      totals := totals.Plus(counts);
      var key, other := KeyOf(axis, d, rows[i]), OtherOf(axis, d, rows[i]);
      var bucket := if key in primary then primary[key] else Opened(axis, d, rows[i]);
      bucket := bucket.(counts := bucket.counts.Plus(counts));
      bucket := bucket.(firstSeen := if rows[i].ts < bucket.firstSeen then rows[i].ts else bucket.firstSeen,
                        lastSeen := if rows[i].ts > bucket.lastSeen then rows[i].ts else bucket.lastSeen);
      var entry := if other in bucket.breakdown then bucket.breakdown[other]
                   else Entry(OtherKind(axis, d, rows[i]), ZERO);
      bucket := bucket.(breakdown := bucket.breakdown[other := entry.(counts := entry.counts.Plus(counts))]);
      BucketStep(axis, d, rows[..i], rows[i], primary);
      assert rows[..i] + [rows[i]] == rows[..i + 1] && rows[..i + 1][..i] == rows[..i];
      primary := primary[key := bucket];
    }
    assert rows[..|rows|] == rows;
    var items := ListRows(axis, d, rows, primary);
    report := if items.None? then None else Some(Report(items.value, totals));
  }

  lemma NoBuckets(axis: Axis, d: Directory)
    ensures BucketsOk(axis, d, [], map[])
  {
  }

  /** The second loop: one report row for each bucket, sorted at the end. */
  method ListRows(axis: Axis, d: Directory, rows: seq<Row>, primary: map<Label, Bucket>)
    returns (report: Option<seq<ReportRow>>)
    requires BucketsOk(axis, d, rows, primary)
    ensures report.None? <==> (exists k :: RowTie(axis, d, rows, k)) || (exists k, o :: CellTie(axis, d, rows, k, o))
    ensures report.Some? ==> RowsListed(axis, d, rows, report.value) && Ascending(report.value, RowOrder(axis))
  {
    hide BreakdownOk, CellsOk, HeadOk, First, Earliest, Latest, SumOf, Seen, RowTie, CellTie, Ascending, Sorted;
    var items: seq<ReportRow> := [];
    var keys := primary.Keys;
    while keys != {}
      invariant keys <= primary.Keys
      invariant forall i | 0 <= i < |items| :: RowOk(axis, d, rows, items[i])
      invariant forall i, j | 0 <= i < j < |items| :: items[i].name != items[j].name
      invariant forall k :: HasRow(items, k) <==> k in primary.Keys - keys
      invariant forall k, o | k in primary.Keys - keys :: !CellTie(axis, d, rows, k, o)
    {
      var key :| key in keys;
      var bucket := primary[key];
      var cells := ListCells(axis, d, rows, key, bucket.breakdown);
      if cells.None? {
        return None;
      }
      var item := ReportRow(key, bucket.kind, bucket.counts, bucket.firstSeen, bucket.lastSeen, cells.value);
      RowAdded(items, item);
      HeadAlone(axis, d, rows, key, bucket);
      assert !HasRow(items, key);
      items := items + [item];
      keys := keys - {key};
    }
    TiesAreSeen(axis, d, rows);
    RowsSorted(axis, d, rows, items);
    report := Sorted(items, RowOrder(axis));
  }

  lemma TiesAreSeen(axis: Axis, d: Directory, rows: seq<Row>)
    ensures forall k, o | CellTie(axis, d, rows, k, o) :: Seen(axis, d, rows, OfKey(k))
  {
    hide SumOf, Picks;
    forall k, o | CellTie(axis, d, rows, k, o) ensures Seen(axis, d, rows, OfKey(k)) {
      CellSeenInKey(axis, d, rows, k, o);
    }
  }

  method ListCells(axis: Axis, d: Directory, rows: seq<Row>, k: Label, breakdown: map<Label, Entry>)
    returns (sorted: Option<seq<Cell>>)
    requires BreakdownOk(axis, d, rows, k, breakdown)
    ensures sorted.None? <==> exists o :: CellTie(axis, d, rows, k, o)
    ensures sorted.Some? ==> CellsOk(axis, d, rows, k, sorted.value)
  {
    hide First, SumOf, Seen, EntryOk, CellTie, Sorted, Ascending;
    var cells: seq<Cell> := [];
    var others := breakdown.Keys;
    while others != {}
      invariant others <= breakdown.Keys
      invariant forall i | 0 <= i < |cells| :: EntryOk(axis, d, rows, k, cells[i].name, Entry(cells[i].kind, cells[i].counts))
      invariant forall i, j | 0 <= i < j < |cells| :: cells[i].name != cells[j].name
      invariant forall o :: HasCell(cells, o) <==> o in breakdown.Keys - others
    {
      var other :| other in others;
      var cell := Cell(other, breakdown[other].kind, breakdown[other].counts);
      CellAdded(cells, cell);
      assert !HasCell(cells, other);
      cells := cells + [cell];
      others := others - {other};
    }
    CellsSorted(axis, d, rows, k, cells);
    sorted := Sorted(cells, CellKey);
  }

  // ---- conservation ----

  function RowTotal(items: seq<ReportRow>): Counts {
    if items == [] then ZERO else RowTotal(items[..|items| - 1]).Plus(items[|items| - 1].counts)
  }

  function CellTotal(cells: seq<Cell>): Counts {
    if cells == [] then ZERO else CellTotal(cells[..|cells| - 1]).Plus(cells[|cells| - 1].counts)
  }

  function RowNames(items: seq<ReportRow>): set<Label> {
    set i | 0 <= i < |items| :: items[i].name
  }

  function CellNames(cells: seq<Cell>): set<Label> {
    set i | 0 <= i < |cells| :: cells[i].name
  }

  /** One more row at the end. */
  lemma SumGrows(axis: Axis, d: Directory, rows: seq<Row>, r: Row, s: Selector)
    ensures SumOf(axis, d, rows + [r], s)
            == (if Picks(axis, d, s, r) then SumOf(axis, d, rows, s).Plus(CountsOf(r)) else SumOf(axis, d, rows, s))
    ensures Seen(axis, d, rows + [r], s) <==> Picks(axis, d, s, r) || Seen(axis, d, rows, s)
  {
    hide Picks, CountsOf;
    assert (rows + [r])[..|rows|] == rows;
  }

  /** Disjoint selections add up. */
  lemma {:induction false} SumSplits(axis: Axis, d: Directory, rows: seq<Row>, a: Selector, b: Selector, whole: Selector)
    requires forall r | r in rows :: Picks(axis, d, whole, r) <==> Picks(axis, d, a, r) || Picks(axis, d, b, r)
    requires forall r | r in rows :: !(Picks(axis, d, a, r) && Picks(axis, d, b, r))
    ensures SumOf(axis, d, rows, whole) == SumOf(axis, d, rows, a).Plus(SumOf(axis, d, rows, b))
  {
    hide Picks, CountsOf, SumOf, Seen;
    if rows == [] {
      NoRows(axis, d);
    } else {
      var front, last := rows[..|rows| - 1], rows[|rows| - 1];
      assert rows == front + [last];
      SumSplits(axis, d, front, a, b, whole);
      SumGrows(axis, d, front, last, a);
      SumGrows(axis, d, front, last, b);
      SumGrows(axis, d, front, last, whole);
    }
  }

  lemma NoRows(axis: Axis, d: Directory)
    ensures forall s :: SumOf(axis, d, [], s) == ZERO && !Seen(axis, d, [], s)
  {
  }

  lemma {:induction false} SameSums(axis: Axis, a: Selector, axis': Axis, b: Selector, d: Directory, rows: seq<Row>)
    requires forall r | r in rows :: Picks(axis, d, a, r) <==> Picks(axis', d, b, r)
    ensures SumOf(axis, d, rows, a) == SumOf(axis', d, rows, b)
    ensures Seen(axis, d, rows, a) <==> Seen(axis', d, rows, b)
  {
    hide Picks, CountsOf, SumOf, Seen;
    if rows == [] {
      NoRows(axis, d);
      NoRows(axis', d);
    } else {
      var front, last := rows[..|rows| - 1], rows[|rows| - 1];
      assert rows == front + [last];
      SameSums(axis, a, axis', b, d, front);
      SumGrows(axis, d, front, last, a);
      SumGrows(axis', d, front, last, b);
    }
  }

  lemma {:induction false} RowsAddUp(axis: Axis, d: Directory, rows: seq<Row>, items: seq<ReportRow>)
    requires forall i, j | 0 <= i < j < |items| :: items[i].name != items[j].name
    requires forall i | 0 <= i < |items| :: items[i].counts == SumOf(axis, d, rows, OfKey(items[i].name))
    ensures RowTotal(items) == SumOf(axis, d, rows, AnyKey(RowNames(items)))
  {
    hide SumOf;
    if items == [] {
      assert RowNames(items) == {};
      NoneAddUp(axis, d, rows);
    } else {
      var n := |items| - 1;
      RowsAddUp(axis, d, rows, items[..n]);
      assert RowNames(items) == RowNames(items[..n]) + {items[n].name};
      SumSplits(axis, d, rows, AnyKey(RowNames(items[..n])), OfKey(items[n].name), AnyKey(RowNames(items)));
    }
  }

  lemma {:induction false} NoneAddUp(axis: Axis, d: Directory, rows: seq<Row>)
    ensures SumOf(axis, d, rows, AnyKey({})) == ZERO
    ensures forall k :: SumOf(axis, d, rows, AnyCell(k, {})) == ZERO
  {
    if rows != [] {
      NoneAddUp(axis, d, rows[..|rows| - 1]);
    }
  }

  lemma {:induction false} CellsAddUp(axis: Axis, d: Directory, rows: seq<Row>, k: Label, cells: seq<Cell>)
    requires forall i, j | 0 <= i < j < |cells| :: cells[i].name != cells[j].name
    requires forall i | 0 <= i < |cells| :: cells[i].counts == SumOf(axis, d, rows, OfCell(k, cells[i].name))
    ensures CellTotal(cells) == SumOf(axis, d, rows, AnyCell(k, CellNames(cells)))
  {
    hide SumOf;
    if cells == [] {
      assert CellNames(cells) == {};
      NoneAddUp(axis, d, rows);
    } else {
      var n := |cells| - 1;
      CellsAddUp(axis, d, rows, k, cells[..n]);
      assert CellNames(cells) == CellNames(cells[..n]) + {cells[n].name};
      SumSplits(axis, d, rows, AnyCell(k, CellNames(cells[..n])), OfCell(k, cells[n].name), AnyCell(k, CellNames(cells)));
    }
  }

  lemma {:induction false} SeenOf(axis: Axis, d: Directory, rows: seq<Row>, s: Selector, r: Row)
    requires r in rows && Picks(axis, d, s, r)
    ensures Seen(axis, d, rows, s)
  {
    if rows[|rows| - 1] != r {
      SeenOf(axis, d, rows[..|rows| - 1], s, r);
    }
  }

  /** Every counter is conserved: the totals are the sum of the rows. */
  lemma TotalsAreRows(axis: Axis, d: Directory, rows: seq<Row>, report: Report)
    requires Reports(axis, d, rows, report)
    ensures report.totals == RowTotal(report.rows)
  {
    hide SumOf, First, Earliest, Latest, CellsOk, Seen;
    RowsAddUp(axis, d, rows, report.rows);
    forall r | r in rows ensures Picks(axis, d, AnyKey(RowNames(report.rows)), r) {
      SeenOf(axis, d, rows, OfKey(KeyOf(axis, d, r)), r);
      var i :| 0 <= i < |report.rows| && report.rows[i].name == KeyOf(axis, d, r);
    }
    SameSums(axis, All, axis, AnyKey(RowNames(report.rows)), d, rows);
  }

  /** And each row is the sum of its breakdown. */
  lemma RowsAreCells(axis: Axis, d: Directory, rows: seq<Row>, report: Report, i: nat)
    requires Reports(axis, d, rows, report) && i < |report.rows|
    ensures report.rows[i].counts == CellTotal(report.rows[i].breakdown)
  {
    hide SumOf, First, Earliest, Latest, Seen;
    var item := report.rows[i];
    assert RowOk(axis, d, rows, item);
    CellsAddUp(axis, d, rows, item.name, item.breakdown);
    forall r | r in rows && KeyOf(axis, d, r) == item.name
      ensures OtherOf(axis, d, r) in CellNames(item.breakdown)
    {
      SeenOf(axis, d, rows, OfCell(item.name, OtherOf(axis, d, r)), r);
      var c :| 0 <= c < |item.breakdown| && item.breakdown[c].name == OtherOf(axis, d, r);
    }
    SameSums(axis, OfKey(item.name), axis, AnyCell(item.name, CellNames(item.breakdown)), d, rows);
  }

  // ---- the order of the input does not matter ----

  lemma {:induction false} SumConcat(axis: Axis, d: Directory, a: seq<Row>, b: seq<Row>, s: Selector)
    ensures SumOf(axis, d, a + b, s) == SumOf(axis, d, a, s).Plus(SumOf(axis, d, b, s))
    ensures Seen(axis, d, a + b, s) <==> Seen(axis, d, a, s) || Seen(axis, d, b, s)
  {
    hide Picks, CountsOf, SumOf, Seen;
    if b == [] {
      assert a + b == a;
      NoRows(axis, d);
    } else {
      var front, last := b[..|b| - 1], b[|b| - 1];
      assert b == front + [last] && a + b == (a + front) + [last];
      SumConcat(axis, d, a, front, s);
      SumGrows(axis, d, a + front, last, s);
      SumGrows(axis, d, front, last, s);
    }
  }

  /** Taking one row out takes out its counts, wherever it stands. */
  lemma SumWithout(axis: Axis, d: Directory, rows: seq<Row>, i: nat, s: Selector)
    requires i < |rows|
    ensures var rest := rows[..i] + rows[i + 1..];
            && SumOf(axis, d, rows, s) == SumOf(axis, d, rest, s).Plus(SumOf(axis, d, [rows[i]], s))
            && (Seen(axis, d, rows, s) <==> Seen(axis, d, [rows[i]], s) || Seen(axis, d, rest, s))
  {
    hide SumOf, Seen;
    assert rows == rows[..i] + ([rows[i]] + rows[i + 1..]);
    SumConcat(axis, d, rows[..i], [rows[i]] + rows[i + 1..], s);
    SumConcat(axis, d, [rows[i]], rows[i + 1..], s);
    SumConcat(axis, d, rows[..i], rows[i + 1..], s);
  }

  lemma Found(front: seq<Row>, last: Row, rows: seq<Row>) returns (i: nat)
    requires multiset(front + [last]) == multiset(rows)
    ensures i < |rows| && rows[i] == last && multiset(rows[..i] + rows[i + 1..]) == multiset(front)
  {
    assert last in multiset(rows);
    i :| 0 <= i < |rows| && rows[i] == last;
    var a, b := rows[..i], rows[i + 1..];
    assert rows == a + [last] + b;
    assert multiset(rows) == multiset(a) + multiset{last} + multiset(b);
    assert multiset(front + [last]) == multiset(front) + multiset{last};
    assert multiset(a + b) == multiset(a) + multiset(b) == multiset(rows) - multiset{last};
    assert multiset(front) == multiset(front + [last]) - multiset{last};
  }

  lemma {:induction false} SumPermuted(axis: Axis, d: Directory, rows: seq<Row>, rows': seq<Row>, s: Selector)
    requires multiset(rows) == multiset(rows')
    ensures SumOf(axis, d, rows, s) == SumOf(axis, d, rows', s)
    ensures Seen(axis, d, rows, s) <==> Seen(axis, d, rows', s)
    decreases |rows|
  {
    hide SumOf, Seen;
    if rows == [] {
      assert |multiset(rows')| == 0;
    } else {
      var front, last := rows[..|rows| - 1], rows[|rows| - 1];
      assert rows == front + [last];
      var i := Found(front, last, rows');
      var rest := rows'[..i] + rows'[i + 1..];
      SumPermuted(axis, d, front, rest, s);
      SumWithout(axis, d, rows', i, s);
      SumConcat(axis, d, front, [last], s);
    }
  }

  /** The counts of a report, wherever its rows and cells stand. */
  ghost predicate HasCounts(report: Report, k: Label, o: Label, c: Counts) {
    exists i, j :: IsCell(report, i, j, k, o, c)
  }

  predicate IsCell(report: Report, i: int, j: int, k: Label, o: Label, c: Counts) {
    && 0 <= i < |report.rows| && report.rows[i].name == k
    && 0 <= j < |report.rows[i].breakdown| && report.rows[i].breakdown[j].name == o
    && report.rows[i].breakdown[j].counts == c
  }

  /** A report has a cell exactly for the pairs that occur, with exactly their sum. */
  lemma CellMeans(axis: Axis, d: Directory, rows: seq<Row>, report: Report, k: Label, o: Label, c: Counts)
    requires Reports(axis, d, rows, report)
    ensures HasCounts(report, k, o, c) <==> Seen(axis, d, rows, OfCell(k, o)) && c == SumOf(axis, d, rows, OfCell(k, o))
  {
    hide SumOf, First, Earliest, Latest, Seen;
    if HasCounts(report, k, o, c) {
      var i, j :| IsCell(report, i, j, k, o, c);
      assert RowOk(axis, d, rows, report.rows[i]);
      assert HasCell(report.rows[i].breakdown, o);
      assert EntryOk(axis, d, rows, k, o, Entry(report.rows[i].breakdown[j].kind, c));
    }
    if Seen(axis, d, rows, OfCell(k, o)) && c == SumOf(axis, d, rows, OfCell(k, o)) {
      CellSeenInKey(axis, d, rows, k, o);
      assert HasRow(report.rows, k);
      var i :| 0 <= i < |report.rows| && report.rows[i].name == k;
      assert RowOk(axis, d, rows, report.rows[i]);
      assert HasCell(report.rows[i].breakdown, o);
      var j :| 0 <= j < |report.rows[i].breakdown| && report.rows[i].breakdown[j].name == o;
      assert EntryOk(axis, d, rows, k, o, Entry(report.rows[i].breakdown[j].kind, report.rows[i].breakdown[j].counts));
      assert IsCell(report, i, j, k, o, c);
    }
  }

  predicate SameFigures(a: ReportRow, b: ReportRow) {
    && a.name == b.name && a.counts == b.counts && |a.breakdown| == |b.breakdown|
    && forall j | 0 <= j < |a.breakdown| ::
         a.breakdown[j].name == b.breakdown[j].name && a.breakdown[j].counts == b.breakdown[j].counts
  }

  lemma SameTies(axis: Axis, d: Directory, rows: seq<Row>, rows': seq<Row>)
    requires multiset(rows) == multiset(rows')
    ensures forall k :: RowTie(axis, d, rows, k) <==> RowTie(axis, d, rows', k)
    ensures forall k, o :: CellTie(axis, d, rows, k, o) <==> CellTie(axis, d, rows', k, o)
  {
    hide SumOf, Seen;
    SumPermuted(axis, d, rows, rows', OfKey(None));
    forall k ensures RowTie(axis, d, rows, k) <==> RowTie(axis, d, rows', k) {
      SumPermuted(axis, d, rows, rows', OfKey(k));
    }
    forall k, o ensures CellTie(axis, d, rows, k, o) <==> CellTie(axis, d, rows', k, o) {
      SumPermuted(axis, d, rows, rows', OfCell(k, None));
      SumPermuted(axis, d, rows, rows', OfCell(k, o));
    }
  }

  lemma RowKeysAgree(axis: Axis, d: Directory, rows: seq<Row>, rows': seq<Row>, a: seq<ReportRow>, b: seq<ReportRow>)
    requires multiset(rows) == multiset(rows') && RowsListed(axis, d, rows, a) && RowsListed(axis, d, rows', b)
    ensures SameKeys(a, RowOrder(axis), b, RowOrder(axis))
  {
    hide SumOf, Seen, RowOk;
    forall i | 0 <= i < |a| ensures HasKey(b, RowOrder(axis), RowOrder(axis)(a[i])) {
      RowSums(axis, d, rows, a, i);
      SumPermuted(axis, d, rows, rows', OfKey(a[i].name));
      assert HasRow(b, a[i].name);
      var j :| 0 <= j < |b| && b[j].name == a[i].name;
      RowSums(axis, d, rows', b, j);
    }
  }

  lemma CellKeysAgree(axis: Axis, d: Directory, rows: seq<Row>, rows': seq<Row>, k: Label, a: seq<Cell>, b: seq<Cell>)
    requires multiset(rows) == multiset(rows') && CellsListed(axis, d, rows, k, a) && CellsListed(axis, d, rows', k, b)
    ensures SameKeys(a, CellKey, b, CellKey)
  {
    hide SumOf, Seen, EntryOk;
    forall i | 0 <= i < |a| ensures HasKey(b, CellKey, CellKey(a[i])) {
      CellSums(axis, d, rows, k, a, i);
      SumPermuted(axis, d, rows, rows', OfCell(k, a[i].name));
      assert HasCell(b, a[i].name);
      var j :| 0 <= j < |b| && b[j].name == a[i].name;
      CellSums(axis, d, rows', k, b, j);
    }
  }

  lemma CellsInPlace(axis: Axis, d: Directory, rows: seq<Row>, rows': seq<Row>, k: Label, a: seq<Cell>, b: seq<Cell>)
    requires multiset(rows) == multiset(rows') && CellsOk(axis, d, rows, k, a) && CellsOk(axis, d, rows', k, b)
    ensures |a| == |b| && forall j | 0 <= j < |a| :: a[j].name == b[j].name && a[j].counts == b[j].counts
  {
    hide SumOf, Seen, EntryOk, SameKeys, Ascending;
    CellKeysAgree(axis, d, rows, rows', k, a, b);
    CellKeysAgree(axis, d, rows', rows, k, b, a);
    OrderIsUnique(a, CellKey, b, CellKey);
    forall j | 0 <= j < |a| ensures a[j].name == b[j].name && a[j].counts == b[j].counts {
      assert CellKey(a[j]) == CellKey(b[j]);
      CellSums(axis, d, rows, k, a, j);
      CellSums(axis, d, rows', k, b, j);
      SumPermuted(axis, d, rows, rows', OfCell(k, a[j].name));
    }
  }

  lemma RowsInPlace(axis: Axis, d: Directory, rows: seq<Row>, rows': seq<Row>, report: Report, report': Report)
    requires multiset(rows) == multiset(rows')
    requires Reports(axis, d, rows, report) && Reports(axis, d, rows', report')
    ensures |report.rows| == |report'.rows|
    ensures forall i | 0 <= i < |report.rows| :: SameFigures(report.rows[i], report'.rows[i])
  {
    hide SumOf, Seen, CellsOk, HeadOk, SameKeys, Ascending;
    var a, b := report.rows, report'.rows;
    RowKeysAgree(axis, d, rows, rows', a, b);
    RowKeysAgree(axis, d, rows', rows, b, a);
    OrderIsUnique(a, RowOrder(axis), b, RowOrder(axis));
    forall i | 0 <= i < |a| ensures SameFigures(a[i], b[i]) {
      assert RowOrder(axis)(a[i]) == RowOrder(axis)(b[i]);
      RowSums(axis, d, rows, a, i);
      RowSums(axis, d, rows', b, i);
      SumPermuted(axis, d, rows, rows', OfKey(a[i].name));
      assert RowOk(axis, d, rows, a[i]) && RowOk(axis, d, rows', b[i]);
      CellsInPlace(axis, d, rows, rows', a[i].name, a[i].breakdown, b[i].breakdown);
    }
  }

  /**
   * The order of the input rows does not matter: either both reports raise, or they have the same totals and the
   * same rows and cells with the same counts in the same order.
   */
  lemma OrderIndependent(axis: Axis, d: Directory, rows: seq<Row>, rows': seq<Row>, report: Report, report': Report)
    requires multiset(rows) == multiset(rows')
    ensures Raises(axis, d, rows) <==> Raises(axis, d, rows')
    ensures Reports(axis, d, rows, report) && Reports(axis, d, rows', report') ==>
              && report.totals == report'.totals
              && (forall k, o, c :: HasCounts(report, k, o, c) <==> HasCounts(report', k, o, c))
              && |report.rows| == |report'.rows|
              && forall i | 0 <= i < |report.rows| :: SameFigures(report.rows[i], report'.rows[i])
  {
    hide SumOf, Seen, RowOk, HasCounts, RowTie, CellTie, SameFigures;
    SameTies(axis, d, rows, rows');
    SameValidity(rows, rows');
    if Reports(axis, d, rows, report) && Reports(axis, d, rows', report') {
      SumPermuted(axis, d, rows, rows', All);
      RowsInPlace(axis, d, rows, rows', report, report');
      forall k, o, c ensures HasCounts(report, k, o, c) <==> HasCounts(report', k, o, c) {
        CellMeans(axis, d, rows, report, k, o, c);
        CellMeans(axis, d, rows', report', k, o, c);
        SumPermuted(axis, d, rows, rows', OfCell(k, o));
      }
    }
  }

  lemma SameValidity(rows: seq<Row>, rows': seq<Row>)
    requires multiset(rows) == multiset(rows')
    ensures (exists i :: 0 <= i < |rows| && rows[i].invalidTokens != 0)
            <==> (exists i :: 0 <= i < |rows'| && rows'[i].invalidTokens != 0)
  {
    if i :| 0 <= i < |rows| && rows[i].invalidTokens != 0 {
      var j := Elsewhere(rows, i, rows');
    }
    if i :| 0 <= i < |rows'| && rows'[i].invalidTokens != 0 {
      var j := Elsewhere(rows', i, rows);
    }
  }

  /** The report by user is the transpose of the report by model. */
  lemma Transposable(d: Directory, rows: seq<Row>, byUser: Report, byModel: Report, user: Label, model: Label, c: Counts)
    requires Reports(ByUser, d, rows, byUser) && Reports(ByModel, d, rows, byModel)
    ensures HasCounts(byUser, user, model, c) <==> HasCounts(byModel, model, user, c)
    ensures byUser.totals == byModel.totals
  {
    hide SumOf, Seen, RowOk, HasCounts;
    CellMeans(ByUser, d, rows, byUser, user, model, c);
    CellMeans(ByModel, d, rows, byModel, model, user, c);
    SameSums(ByUser, OfCell(user, model), ByModel, OfCell(model, user), d, rows);
    SameSums(ByUser, All, ByModel, All, d, rows);
  }
}
