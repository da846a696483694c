/** The PDF report generator (pdf_reports.py) without its rendering: the
    low-stock alert filters and their three buckets, the figures the reports
    show, and the sequence of paragraphs and tables ("the story") each report
    is built from. */
module Reports {
  import opened PyBuiltins
  import opened Models
  import ReorderSeeding

  // ===========================================================================
  // Low-stock alerts

  /** One row of the join of reorder points with their products, with the
      reorder point's `suggested_order_amount` (computed outside this model). */
  datatype AlertCandidate = AlertCandidate(point: ReorderPoint, product: Product, suggestedOrder: nat)

  /** The filter every alert query starts from: an active reorder point whose
      product is below its minimum. */
  predicate InAlertQuery(c: AlertCandidate)
  {
    c.point.isActive && c.product.quantity < c.point.minimumQuantity
  }

  /** Out of stock. */
  predicate IsCritical(c: AlertCandidate)
  {
    InAlertQuery(c) && c.product.quantity == 0
  }

  /** Below half the minimum: `quantity < minimum * 0.5` is `2 * quantity < minimum`. */
  predicate IsUrgent(c: AlertCandidate)
    ensures IsUrgent(c) <==>
      InAlertQuery(c) && c.product.quantity > 0 && (c.product.quantity as real) < (c.point.minimumQuantity as real) * 0.5
  {
    InAlertQuery(c) && c.product.quantity > 0 && 2 * c.product.quantity < c.point.minimumQuantity
  }

  /** At or above half the minimum, still below it. */
  predicate IsWarning(c: AlertCandidate)
    ensures IsWarning(c) <==>
      InAlertQuery(c) && (c.product.quantity as real) >= (c.point.minimumQuantity as real) * 0.5
  {
    InAlertQuery(c) && 2 * c.product.quantity >= c.point.minimumQuantity
    && c.product.quantity < c.point.minimumQuantity
  }

  /** An alert whose product does not hold a negative quantity. */
  predicate IsCountedAlert(c: AlertCandidate)
  {
    InAlertQuery(c) && c.product.quantity >= 0
  }

  datatype AlertLevel = Critical | Urgent | Warning

  predicate InBucket(c: AlertCandidate, level: AlertLevel)
  {
    match level
    case Critical => IsCritical(c)
    case Urgent => IsUrgent(c)
    case Warning => IsWarning(c)
  }

  /** Which bucket, if any, a row falls in. The buckets are exclusive, an
      inactive point or a quantity not below the minimum (so any minimum of 0
      or less with a non-negative quantity) is in none, and a row of the alert
      filter is in exactly one bucket unless its quantity is negative. */
  lemma BucketsAreExclusive(c: AlertCandidate)
    ensures forall l :: InBucket(c, l) ==> c.point.isActive && c.product.quantity < c.point.minimumQuantity
    ensures !(IsCritical(c) && IsUrgent(c)) && !(IsCritical(c) && IsWarning(c)) && !(IsUrgent(c) && IsWarning(c))
    ensures IsCountedAlert(c) <==> IsCritical(c) || IsUrgent(c) || IsWarning(c)
    ensures c.product.quantity < 0 ==> forall l :: !InBucket(c, l)
    ensures c.point.minimumQuantity <= 0 && c.product.quantity >= 0 ==> forall l :: !InBucket(c, l)
  {
  }

  /** A five-level reference rule to compare the buckets with: disabled for
      an inactive point, critical at zero, urgent below half the minimum,
      warning below the minimum, otherwise ok (`Unalerted`). The report code
      has no "ok" or "disabled" level. */
  datatype IntendedLevel = Alerting(level: AlertLevel) | Unalerted | Disabled

  function IntendedLevelOf(quantity: int, point: ReorderPoint): IntendedLevel
  {
    if !point.isActive then Disabled
    else if quantity == 0 then Alerting(Critical)
    else if 2 * quantity < point.minimumQuantity then Alerting(Urgent)
    else if quantity < point.minimumQuantity then Alerting(Warning)
    else Unalerted
  }

  /** For a positive quantity, or zero against a positive minimum, the buckets
      are exactly the reference rule's levels, and the rows outside every
      bucket are the ones that rule calls ok or disabled. */
  lemma BucketsFollowIntendedRule(c: AlertCandidate)
    requires c.product.quantity > 0 || (c.product.quantity == 0 && c.point.minimumQuantity > 0)
    ensures forall l :: InBucket(c, l) <==> IntendedLevelOf(c.product.quantity, c.point) == Alerting(l)
    ensures (forall l :: !InBucket(c, l)) <==> !IntendedLevelOf(c.product.quantity, c.point).Alerting?
  {
    var q, m := c.product.quantity, c.point.minimumQuantity;
    forall l ensures InBucket(c, l) <==> IntendedLevelOf(q, c.point) == Alerting(l) {
      match l
      case Critical =>
      case Urgent =>
      case Warning =>
    }
  }

  /** Where the code and the reference rule part: a negative quantity and a
      zero quantity against a zero minimum alert under the reference rule but
      fall in no bucket. */
  lemma BucketsDepartFromIntendedRule(p: Product, rp: ReorderPoint)
    requires rp.isActive
    ensures p.quantity == -1 && rp.minimumQuantity == 5 ==>
      IntendedLevelOf(p.quantity, rp) == Alerting(Urgent) && forall l :: !InBucket(AlertCandidate(rp, p, 0), l)
    ensures p.quantity == 0 && rp.minimumQuantity == 0 ==>
      IntendedLevelOf(p.quantity, rp) == Alerting(Critical) && forall l :: !InBucket(AlertCandidate(rp, p, 0), l)
  {
  }

  /** A freshly seeded configuration (add_reorder_points.py) makes its product
      an alert exactly when the product holds fewer than 5 units. */
  lemma SeededPointAlertsBelowFive(p: Product, suggested: nat)
    ensures InAlertQuery(AlertCandidate(ReorderSeeding.DefaultReorderPoint(p), p, suggested)) <==> p.quantity < 5
  {
    var m := ReorderSeeding.DefaultMinimum(p.quantity);
    if p.quantity >= 5 {
      assert p.quantity / 4 <= p.quantity;
    }
  }

  // ---------------------------------------------------------------------------
  // Buckets over the whole join

  function AlertSet(cs: seq<AlertCandidate>): seq<AlertCandidate>
  {
    Filter(cs, InAlertQuery)
  }

  /** The rows of one bucket, in query order. */
  function Bucket(cs: seq<AlertCandidate>, level: AlertLevel): seq<AlertCandidate>
  {
    match level
    case Critical => Filter(cs, IsCritical)
    case Urgent => Filter(cs, IsUrgent)
    case Warning => Filter(cs, IsWarning)
  }

  /** The three buckets split the non-negative alerts between them: every such
      row lands in exactly one, so the counts add up; when no quantity is
      negative that is the whole alert set. */
  lemma BucketsPartitionAlerts(cs: seq<AlertCandidate>)
    ensures multiset(Bucket(cs, Critical)) + multiset(Bucket(cs, Urgent)) + multiset(Bucket(cs, Warning))
         == multiset(Filter(cs, IsCountedAlert))
    ensures |Bucket(cs, Critical)| + |Bucket(cs, Urgent)| + |Bucket(cs, Warning)| == |Filter(cs, IsCountedAlert)|
    ensures (forall i :: 0 <= i < |cs| ==> cs[i].product.quantity >= 0) ==> Filter(cs, IsCountedAlert) == AlertSet(cs)
  {
    forall c ensures IsCountedAlert(c) <==> IsCritical(c) || IsUrgent(c) || IsWarning(c) {
      BucketsAreExclusive(c);
    }
    FilterSplitsInThree(cs, IsCountedAlert, IsCritical, IsUrgent, IsWarning);
    if forall i :: 0 <= i < |cs| ==> cs[i].product.quantity >= 0 {
      FilterSameOn(cs, IsCountedAlert, InAlertQuery);
    }
  }

  /** One entry of an alerts list: the row, its level and its suggested order. */
  datatype Alert = Alert(product: Product, point: ReorderPoint, level: AlertLevel, suggestedOrder: nat)

  function AlertsAt(cs: seq<AlertCandidate>, level: AlertLevel): (r: seq<Alert>)
    ensures |r| == |cs|
    ensures forall i :: 0 <= i < |cs| ==> r[i] == Alert(cs[i].product, cs[i].point, level, cs[i].suggestedOrder)
  {
    seq(|cs|, i requires 0 <= i < |cs| => Alert(cs[i].product, cs[i].point, level, cs[i].suggestedOrder))
  }

  /** The `alerts_data` dictionary both reports build. */
  datatype AlertsData = AlertsData(critical: seq<Alert>, urgent: seq<Alert>, warning: seq<Alert>)

  /** Each list holds exactly its bucket's rows, in query order, tagged with
      the bucket's level. */
  function CollectAlerts(cs: seq<AlertCandidate>): (d: AlertsData)
    ensures Candidates(d.critical) == Bucket(cs, Critical) && AllAt(d.critical, Critical)
    ensures Candidates(d.urgent) == Bucket(cs, Urgent) && AllAt(d.urgent, Urgent)
    ensures Candidates(d.warning) == Bucket(cs, Warning) && AllAt(d.warning, Warning)
  {
    BucketCandidates(Bucket(cs, Critical), Critical);
    BucketCandidates(Bucket(cs, Urgent), Urgent);
    BucketCandidates(Bucket(cs, Warning), Warning);
    AlertsData(
      AlertsAt(Bucket(cs, Critical), Critical),
      AlertsAt(Bucket(cs, Urgent), Urgent),
      AlertsAt(Bucket(cs, Warning), Warning))
  }

  /** The lists concatenated for the alerts table. */
  function AllAlerts(d: AlertsData): seq<Alert>
  {
    d.critical + d.urgent + d.warning
  }

  function Rank(l: AlertLevel): nat
  {
    match l
    case Critical => 0
    case Urgent => 1
    case Warning => 2
  }

  function CandidateOf(a: Alert): AlertCandidate
  {
    AlertCandidate(a.point, a.product, a.suggestedOrder)
  }

  /** The joined rows an alerts list was built from. */
  function Candidates(a: seq<Alert>): (r: seq<AlertCandidate>)
    ensures |r| == |a|
    ensures forall i :: 0 <= i < |a| ==> r[i] == CandidateOf(a[i])
  {
    seq(|a|, i requires 0 <= i < |a| => CandidateOf(a[i]))
  }

  lemma CandidatesAppend(a: seq<Alert>, b: seq<Alert>)
    ensures Candidates(a + b) == Candidates(a) + Candidates(b)
  {
    assert forall i :: 0 <= i < |a + b| ==> (a + b)[i] == if i < |a| then a[i] else b[i - |a|];
  }

  /** Tagging rows with a level and reading them back gives the rows. */
  lemma BucketCandidates(b: seq<AlertCandidate>, level: AlertLevel)
    ensures Candidates(AlertsAt(b, level)) == b
    ensures AllAt(AlertsAt(b, level), level)
  {
  }

  /** The combined list holds every non-negative alert once (its rows are a
      permutation of them), critical ones first, then urgent, then warning,
      each carrying the level of the bucket its row satisfies. */
  lemma AllAlertsBySeverity(cs: seq<AlertCandidate>)
    ensures var all := AllAlerts(CollectAlerts(cs));
      && multiset(Candidates(all)) == multiset(Filter(cs, IsCountedAlert))
      && |all| == |Filter(cs, IsCountedAlert)| && SeverityOrdered(all) && AllInBucket(all)
  {
    var d := CollectAlerts(cs);
    BucketsPartitionAlerts(cs);
    CandidatesAppend(d.critical, d.urgent);
    CandidatesAppend(d.critical + d.urgent, d.warning);
    BucketEntries(cs, Critical);
    BucketEntries(cs, Urgent);
    BucketEntries(cs, Warning);
    ConcatBySeverity(d.critical, d.urgent, d.warning);
  }

  /** Every entry of a bucket's list carries the bucket's level and comes from
      a row the bucket's filter keeps. */
  lemma BucketEntries(cs: seq<AlertCandidate>, level: AlertLevel)
    ensures var a := AlertsAt(Bucket(cs, level), level);
      forall i :: 0 <= i < |a| ==> a[i].level == level && InBucket(CandidateOf(a[i]), level)
  {
    var b := Bucket(cs, level);
    var a := AlertsAt(b, level);
    forall i | 0 <= i < |a| ensures a[i].level == level && InBucket(CandidateOf(a[i]), level) {
      assert CandidateOf(a[i]) == b[i];
      assert b[i] in b;
    }
  }

  predicate AllAt(a: seq<Alert>, level: AlertLevel)
  {
    forall i :: 0 <= i < |a| ==> a[i].level == level
  }

  /** Critical entries first, then urgent, then warning. */
  predicate SeverityOrdered(a: seq<Alert>)
  {
    forall i, j :: 0 <= i < j < |a| ==> Rank(a[i].level) <= Rank(a[j].level)
  }

  /** Each entry comes from a row its level's bucket keeps. */
  predicate AllInBucket(a: seq<Alert>)
  {
    forall i :: 0 <= i < |a| ==> InBucket(CandidateOf(a[i]), a[i].level)
  }

  lemma ConcatBySeverity(a: seq<Alert>, b: seq<Alert>, c: seq<Alert>)
    requires AllAt(a, Critical) && AllAt(b, Urgent) && AllAt(c, Warning)
    requires AllInBucket(a) && AllInBucket(b) && AllInBucket(c)
    ensures SeverityOrdered(a + b + c)
    ensures AllInBucket(a + b + c)
  {
    var all := a + b + c;
    assert forall i :: 0 <= i < |all| ==>
      Rank(all[i].level) == (if i < |a| then 0 else if i < |a| + |b| then 1 else 2);
    forall i | 0 <= i < |all| ensures InBucket(CandidateOf(all[i]), all[i].level) {
      if i < |a| {
        assert all[i] == a[i];
      } else if i < |a| + |b| {
        assert all[i] == b[i - |a|];
      } else {
        assert all[i] == c[i - |a| - |b|];
      }
    }
  }

  /** The counts the summary report asks the database for. */
  datatype AlertCounts = AlertCounts(critical: nat, urgent: nat, warning: nat)

  function SummaryAlertCounts(cs: seq<AlertCandidate>): AlertCounts
  {
    AlertCounts(|Bucket(cs, Critical)|, |Bucket(cs, Urgent)|, |Bucket(cs, Warning)|)
  }

  /** `total_active_alerts`. */
  function TotalActiveAlerts(n: AlertCounts): nat
  {
    n.critical + n.urgent + n.warning
  }

  /** `total_alerts` of the low-stock report. */
  function LowStockTotal(d: AlertsData): nat
  {
    |d.critical| + |d.urgent| + |d.warning|
  }

  /** Both reports count the same alerts: bucket by bucket and in total, and
      the total is the number of alert rows with a non-negative quantity. */
  lemma ReportsAgreeOnAlerts(cs: seq<AlertCandidate>)
    ensures var n := SummaryAlertCounts(cs);
      var d := CollectAlerts(cs);
      && |d.critical| == n.critical && |d.urgent| == n.urgent && |d.warning| == n.warning
      && LowStockTotal(d) == TotalActiveAlerts(n) == |Filter(cs, IsCountedAlert)|
  {
    BucketsPartitionAlerts(cs);
  }

  // ===========================================================================
  // Figures

  /** A metric's value: a count, or text formatted elsewhere. */
  datatype MetricValue = Count(n: int) | Text(s: string)

  datatype Metric = Metric(caption: string, value: MetricValue)

  /** str() of a metric value. */
  function Str(v: MetricValue): string
  {
    match v
    case Count(n) => IntToString(n)
    case Text(s) => s
  }

  predicate HasStock(p: Product) { p.quantity > 0 }
  predicate OutOfStock(p: Product) { p.quantity == 0 }
  predicate LowStockItem(p: Product) { p.quantity > 0 && p.quantity < 10 }
  predicate WellStocked(p: Product) { p.quantity >= 10 }
  predicate NonNegativeStock(p: Product) { p.quantity >= 0 }

  /** The status column of the products table: one label per product, with the
      fixed threshold of 10 (a negative quantity reads "Low Stock"). */
  function StockStatus(quantity: int): (s: string)
    ensures s == "Out of Stock" <==> quantity == 0
    ensures s == "Low Stock" <==> quantity != 0 && quantity < 10
    ensures s == "In Stock" <==> quantity >= 10
  {
    if quantity == 0 then "Out of Stock"
    else if quantity < 10 then "Low Stock"
    else "In Stock"
  }

  predicate LabelledOutOfStock(p: Product) { StockStatus(p.quantity) == "Out of Stock" }
  predicate LabelledLowStock(p: Product) { StockStatus(p.quantity) == "Low Stock" }

  /** The stock figures of the summary agree with the status labels: "Out of
      Stock" counts the products labelled so; when no quantity is negative,
      "Low Stock Items" counts those labelled "Low Stock", and "Products in
      Stock" plus "Out of Stock" make up all products. */
  lemma StockFiguresMatchStatus(products: seq<Product>)
    ensures Filter(products, OutOfStock) == Filter(products, LabelledOutOfStock)
    ensures |Filter(products, LowStockItem)| <= |Filter(products, HasStock)|
    ensures (forall i :: 0 <= i < |products| ==> products[i].quantity >= 0) ==>
      && Filter(products, LowStockItem) == Filter(products, LabelledLowStock)
      && |Filter(products, HasStock)| + |Filter(products, OutOfStock)| == |products|
  {
    FilterSameOn(products, OutOfStock, LabelledOutOfStock);
    FilterSplitsInTwo(products, HasStock, LowStockItem, WellStocked);
    if forall i :: 0 <= i < |products| ==> products[i].quantity >= 0 {
      FilterSameOn(products, LowStockItem, LabelledLowStock);
      FilterSplitsInTwo(products, NonNegativeStock, HasStock, OutOfStock);
      FilterKeepsAll(products, NonNegativeStock);
    }
  }

  /** The KPI dictionary of the summary report, in insertion order. The
      inventory value is a float sum, given here already formatted. */
  function SummaryMetrics(products: seq<Product>, supplierCount: nat, transactionCount: nat,
                          inventoryValueText: string, cs: seq<AlertCandidate>): (ms: seq<Metric>)
    ensures |ms| == 8
    ensures ms[6] == Metric("Active Alerts", Count(|Filter(cs, IsCountedAlert)|))
  {
    ReportsAgreeOnAlerts(cs);
    [ Metric("Total Products", Count(|products|)),
      Metric("Total Suppliers", Count(supplierCount)),
      Metric("Inventory Value", Text("$" + inventoryValueText)),
      Metric("Products in Stock", Count(|Filter(products, HasStock)|)),
      Metric("Out of Stock", Count(|Filter(products, OutOfStock)|)),
      Metric("Low Stock Items", Count(|Filter(products, LowStockItem)|)),
      Metric("Active Alerts", Count(TotalActiveAlerts(SummaryAlertCounts(cs)))),
      Metric("Total Transactions", Count(transactionCount)) ]
  }

  /** The KPI dictionary of the low-stock report. */
  function LowStockMetrics(d: AlertsData): (ms: seq<Metric>)
    ensures |ms| == 4
    ensures ms[0].value == Count(|AllAlerts(d)|)
  {
    [ Metric("Total Alerts", Count(LowStockTotal(d))),
      Metric("Critical (Out of Stock)", Count(|d.critical|)),
      Metric("Urgent (Very Low)", Count(|d.urgent|)),
      Metric("Warning (Below Min)", Count(|d.warning|)) ]
  }

  // ---------------------------------------------------------------------------
  // Suppliers

  /** One row of the per-supplier aggregate: the supplier, COUNT of its
      products and SUM of their quantities (None when it has none). The SUM of
      their values is a float and is not modelled. */
  datatype SupplierRow = SupplierRow(supplier: Supplier, productCount: nat, totalStock: Option<int>)

  predicate IsActiveSupplier(r: SupplierRow) { r.productCount > 0 }
  predicate IsInactiveSupplier(r: SupplierRow) { r.productCount == 0 }
  predicate Listed(r: SupplierRow) { IsActiveSupplier(r) || IsInactiveSupplier(r) }

  function ActiveSuppliers(rows: seq<SupplierRow>): seq<SupplierRow>
  {
    Filter(rows, IsActiveSupplier)
  }

  function InactiveSuppliers(rows: seq<SupplierRow>): seq<SupplierRow>
  {
    Filter(rows, IsInactiveSupplier)
  }

  /** Every supplier is listed exactly once: as active or as inactive. */
  lemma SuppliersSplit(rows: seq<SupplierRow>)
    ensures multiset(ActiveSuppliers(rows)) + multiset(InactiveSuppliers(rows)) == multiset(rows)
    ensures |ActiveSuppliers(rows)| + |InactiveSuppliers(rows)| == |rows|
    ensures forall r :: !(r in ActiveSuppliers(rows) && r in InactiveSuppliers(rows))
  {
    FilterSplitsInTwo(rows, Listed, IsActiveSupplier, IsInactiveSupplier);
    FilterKeepsAll(rows, Listed);
  }

  /** The KPI dictionary of the supplier report; the two money figures are
      float arithmetic, given here already formatted. */
  function SupplierMetrics(rows: seq<SupplierRow>, totalValueText: string, averageText: string): (ms: seq<Metric>)
    ensures |ms| == 4
    ensures ms[0].value == Count(|rows|)
    ensures ms[1] == Metric("Active Suppliers", Count(|ActiveSuppliers(rows)|))
  {
    [ Metric("Total Suppliers", Count(|rows|)),
      Metric("Active Suppliers", Count(|ActiveSuppliers(rows)|)),
      Metric("Total Supplier Value", Text("$" + totalValueText)),
      Metric("Average per Supplier", Text("$" + averageText)) ]
  }

  /** The truthy contact fields of a supplier, in the order listed. */
  function Contacts(s: Supplier): seq<string>
  {
    (if Truthy(s.contactPerson) then [s.contactPerson.value] else [])
    + (if Truthy(s.email) then [s.email.value] else [])
    + (if Truthy(s.phone) then [s.phone.value] else [])
  }

  /** The contact cell of the suppliers table. */
  function ContactText(s: Supplier): (t: string)
    ensures Contacts(s) == [] ==> t == "No contact info"
    ensures |Contacts(s)| == 1 ==> t == Contacts(s)[0]
  {
    var info := Contacts(s);
    if info == [] then "No contact info" else Join(info, '\n')
  }

  /** When a supplier has contact details and none of them holds a line
      break, the cell's lines are exactly those details in order. */
  lemma ContactTextLines(s: Supplier)
    requires Contacts(s) != []
    requires forall i :: 0 <= i < |Contacts(s)| ==> '\n' !in Contacts(s)[i]
    ensures Split(ContactText(s), '\n') == Contacts(s)
  {
    SplitJoin(Contacts(s), '\n');
  }

  // ===========================================================================
  // The story: what the report is built from

  datatype Style = CompanyHeader | ReportTitle | SectionHeader | Normal

  /** A cell of the KPI grid: a value above its label, or the empty filler. */
  datatype Cell = MetricCell(value: string, caption: string) | EmptyCell

  datatype GridRow = GridRow(left: Cell, right: Cell)

  /** A flowable of the story; table widths and styles are left out. */
  datatype Block =
    | Para(style: Style, text: string)
    | Spacer(width: nat, height: nat)
    | MetricsTable(grid: seq<GridRow>)
    | Table(rows: seq<seq<string>>)
    | PageBreak

  /** The `story` list the section builders append to. */
  class Story {
    var blocks: seq<Block>

    constructor ()
      ensures blocks == []
    {
      blocks := [];
    }

    method Append(b: Block)
      modifies this
      ensures blocks == old(blocks) + [b]
    {
      blocks := blocks + [b];
    }
  }

  const CompanyName := "Professional Inventory Management"

  function HeaderBlocks(title: string, dateText: string): seq<Block>
  {
    [Para(CompanyHeader, CompanyName), Para(ReportTitle, title), Para(Normal, "Generated on " + dateText), Spacer(1, 20)]
  }

  function FooterBlocks(dateText: string): seq<Block>
  {
    [Spacer(1, 30), Para(Normal, "Report generated by " + CompanyName + " | " + dateText)]
  }

  /** `_create_header`; the date is given already formatted. */
  method CreateHeader(story: Story, title: string, dateText: string)
    modifies story
    ensures story.blocks == old(story.blocks) + HeaderBlocks(title, dateText)
  {
    story.Append(Para(CompanyHeader, CompanyName));
    story.Append(Para(ReportTitle, title));
    story.Append(Para(Normal, "Generated on " + dateText));
    story.Append(Spacer(1, 20));
  }

  method CreateFooter(story: Story, dateText: string)
    modifies story
    ensures story.blocks == old(story.blocks) + FooterBlocks(dateText)
  {
    story.Append(Spacer(1, 30));
    story.Append(Para(Normal, "Report generated by " + CompanyName + " | " + dateText));
  }

  // ---------------------------------------------------------------------------
  // The KPI grid: two metrics per row

  function MetricCellOf(m: Metric): Cell
  {
    MetricCell(Str(m.value), m.caption)
  }

  /** Row k of the grid: metrics 2k and 2k+1, or metric 2k and the filler. */
  function GridRowAt(items: seq<Metric>, k: nat): GridRow
    requires 2 * k < |items|
  {
    GridRow(MetricCellOf(items[2 * k]), if 2 * k + 1 < |items| then MetricCellOf(items[2 * k + 1]) else EmptyCell)
  }

  function MetricsGrid(items: seq<Metric>): (rows: seq<GridRow>)
    ensures |rows| == (|items| + 1) / 2
    decreases |items|
  {
    if |items| == 0 then []
    else if |items| == 1 then [GridRow(MetricCellOf(items[0]), EmptyCell)]
    else [GridRow(MetricCellOf(items[0]), MetricCellOf(items[1]))] + MetricsGrid(items[2..])
  }

  lemma {:induction false} MetricsGridAt(items: seq<Metric>, k: nat)
    requires k < (|items| + 1) / 2
    ensures MetricsGrid(items)[k] == GridRowAt(items, k)
    decreases k
  {
    if k > 0 {
      MetricsGridAt(items[2..], k - 1);
      assert items[2..][2 * (k - 1)] == items[2 * k];
      if 2 * k + 1 < |items| {
        assert items[2..][2 * (k - 1) + 1] == items[2 * k + 1];
      }
    }
  }

  /** The grid read row by row, left cell then right. */
  function Cells(rows: seq<GridRow>): seq<Cell>
  {
    if rows == [] then [] else [rows[0].left, rows[0].right] + Cells(rows[1..])
  }

  /** One cell per metric, in insertion order. */
  function MetricCells(items: seq<Metric>): seq<Cell>
  {
    if items == [] then [] else [MetricCellOf(items[0])] + MetricCells(items[1..])
  }

  /** The filler that completes an odd number of metrics. */
  function Padding(n: nat): (p: seq<Cell>)
    ensures p == [EmptyCell] <==> n % 2 == 1
    ensures p == [] <==> n % 2 == 0
  {
    if n % 2 == 1 then [EmptyCell] else []
  }

  /** Read row-major, the grid is the metrics in insertion order, followed by
      one filler cell exactly when their number is odd. */
  lemma {:induction false} GridReadsRowMajor(items: seq<Metric>)
    ensures Cells(MetricsGrid(items)) == MetricCells(items) + Padding(|items|)
    decreases |items|
  {
    if |items| == 1 {
      assert MetricCells(items) == [MetricCellOf(items[0])] + MetricCells(items[1..]);
    } else if |items| >= 2 {
      var rest := items[2..];
      GridReadsRowMajor(rest);
      GridCellsStep(items);
      MetricCellsStep(items);
      assert Padding(|items|) == Padding(|rest|);
      var head := [MetricCellOf(items[0]), MetricCellOf(items[1])];
      assert head + (MetricCells(rest) + Padding(|rest|)) == (head + MetricCells(rest)) + Padding(|rest|);
    }
  }

  lemma GridCellsStep(items: seq<Metric>)
    requires |items| >= 2
    ensures Cells(MetricsGrid(items)) == [MetricCellOf(items[0]), MetricCellOf(items[1])] + Cells(MetricsGrid(items[2..]))
  {
    var g := MetricsGrid(items);
    assert g[1..] == MetricsGrid(items[2..]);
  }

  lemma MetricCellsStep(items: seq<Metric>)
    requires |items| >= 2
    ensures MetricCells(items) == [MetricCellOf(items[0]), MetricCellOf(items[1])] + MetricCells(items[2..])
  {
    assert items[1..][1..] == items[2..];
  }

  /** The right cell of the last row is the filler exactly when the number of
      metrics is odd. */
  lemma LastRowPadding(items: seq<Metric>)
    requires |items| > 0
    ensures MetricsGrid(items)[(|items| + 1) / 2 - 1].right == EmptyCell <==> |items| % 2 == 1
  {
    var k := (|items| + 1) / 2 - 1;
    assert 2 * k < |items|;
    assert 2 * k + 1 < |items| <==> |items| % 2 == 0;
    MetricsGridAt(items, k);
  }

  /** The loop of `_create_metrics_section` that fills `metrics_data`. */
  method BuildMetricsGrid(items: seq<Metric>) returns (rows: seq<GridRow>)
    ensures rows == MetricsGrid(items)
  {
    rows := [];
    var i := 0;
    while i < |items|
      invariant i % 2 == 0 && 0 <= i <= |items| + 1
      invariant |rows| == i / 2
      invariant forall k :: 0 <= k < |rows| ==> 2 * k < |items| && rows[k] == GridRowAt(items, k)
    {
      var left := MetricCellOf(items[i]);
      var right := if i + 1 < |items| then MetricCellOf(items[i + 1]) else EmptyCell;
      rows := rows + [GridRow(left, right)];
      i := i + 2;
    }
    forall k | 0 <= k < |rows| ensures rows[k] == MetricsGrid(items)[k] {
      MetricsGridAt(items, k);
    }
  }

  function MetricsBlocks(items: seq<Metric>): seq<Block>
  {
    [Para(SectionHeader, "Key Performance Indicators"), MetricsTable(MetricsGrid(items)), Spacer(1, 20)]
  }

  /** `_create_metrics_section`. */
  method CreateMetricsSection(story: Story, items: seq<Metric>)
    modifies story
    ensures story.blocks == old(story.blocks) + MetricsBlocks(items)
  {
    story.Append(Para(SectionHeader, "Key Performance Indicators"));
    var rows := BuildMetricsGrid(items);
    story.Append(MetricsTable(rows));
    story.Append(Spacer(1, 20));
  }

  // ---------------------------------------------------------------------------
  // Tables: a header row, then one row of cells per item

  function Tabulate<T>(headers: seq<string>, items: seq<T>, cells: T -> seq<string>): (t: seq<seq<string>>)
    ensures |t| == |items| + 1 && t[0] == headers
    ensures forall k :: 0 <= k < |items| ==> t[k + 1] == cells(items[k])
  {
    [headers] + seq(|items|, i requires 0 <= i < |items| => cells(items[i]))
  }

  /** The loop every table builder runs: `table_data = [headers]`, then one
      `table_data.append(row)` per item. */
  method BuildTable<T>(headers: seq<string>, items: seq<T>, cells: T -> seq<string>) returns (table: seq<seq<string>>)
    ensures table == Tabulate(headers, items, cells)
  {
    table := [headers];
    var i := 0;
    while i < |items|
      invariant 0 <= i <= |items|
      invariant |table| == i + 1 && table[0] == headers
      invariant forall k :: 0 <= k < i ==> table[k + 1] == cells(items[k])
    {
      var row := cells(items[i]);
      table := table + [row];
      i := i + 1;
    }
  }

  // ---------------------------------------------------------------------------
  // The products table

  /** The column headers; the Price and Total Value columns (floats) are not
      modelled. */
  const ProductHeaders: seq<string> := ["Product Name", "SKU", "Quantity", "Status", "Supplier"]

  function SupplierName(p: Product): string
  {
    if p.supplier.Some? then p.supplier.value.name else "No Supplier"
  }

  /** One cell per column; the quantity cell reads back as the quantity and
      the status cell is the product's one status label. */
  function ProductCells(p: Product): (cells: seq<string>)
    ensures |cells| == |ProductHeaders|
    ensures ReadsBackAs(cells[2], p.quantity)
    ensures cells[3] == StockStatus(p.quantity)
    ensures cells[4] == (if p.supplier.Some? then p.supplier.value.name else "No Supplier")
  {
    IntToStringRoundTrip(p.quantity);
    [p.name, p.sku, IntToString(p.quantity), StockStatus(p.quantity), SupplierName(p)]
  }

  function ProductTable(products: seq<Product>): seq<seq<string>>
  {
    Tabulate(ProductHeaders, products, ProductCells)
  }

  /** Each product row shows the product's quantity, which reads back as that
      number, and the one status label for it. */
  lemma ProductRowsShowStock(products: seq<Product>, k: nat)
    requires k < |products|
    ensures var row := ProductTable(products)[k + 1];
      && |row| == 5
      && AllDigits(if products[k].quantity < 0 then row[2][1..] else row[2])
      && ParseInt(row[2]) == products[k].quantity
      && row[3] == StockStatus(products[k].quantity)
  {
    var row := ProductTable(products)[k + 1];
    assert row == ProductCells(products[k]);
    assert row[2] == IntToString(products[k].quantity);
  }

  function ProductsBlocks(products: seq<Product>, title: string): seq<Block>
  {
    [Para(SectionHeader, title)]
    + if products == [] then [Para(Normal, "No products found."), Spacer(1, 12)]
      else [Table(ProductTable(products)), Spacer(1, 20)]
  }

  /** `_create_products_table`. */
  method CreateProductsTable(story: Story, products: seq<Product>, title: string)
    modifies story
    ensures story.blocks == old(story.blocks) + ProductsBlocks(products, title)
  {
    story.Append(Para(SectionHeader, title));
    if products == [] {
      story.Append(Para(Normal, "No products found."));
      story.Append(Spacer(1, 12));
      return;
    }
    var table := BuildTable(ProductHeaders, products, ProductCells);
    story.Append(Table(table));
    story.Append(Spacer(1, 20));
  }

  // ---------------------------------------------------------------------------
  // The alerts table

  const AlertHeaders: seq<string> := ["Product", "Current Stock", "Minimum", "Alert Level", "Suggested Order", "Supplier"]

  const NoAlertsText := "\U{2705} No active alerts - All products are well-stocked!"

  function LevelName(l: AlertLevel): string
  {
    match l
    case Critical => "critical"
    case Urgent => "urgent"
    case Warning => "warning"
  }

  /** `alert['alert_level'].upper()`. */
  function LevelLabel(l: AlertLevel): string
  {
    Upper(LevelName(l))
  }

  /** The level column reads CRITICAL, URGENT or WARNING, one label per level. */
  lemma LevelLabels()
    ensures LevelLabel(Critical) == "CRITICAL"
    ensures LevelLabel(Urgent) == "URGENT"
    ensures LevelLabel(Warning) == "WARNING"
  {
    UpperCritical();
    UpperUrgent();
    UpperWarning();
  }

  lemma UpperCritical() ensures Upper("critical") == "CRITICAL" { }
  lemma UpperUrgent() ensures Upper("urgent") == "URGENT" { }
  lemma UpperWarning() ensures Upper("warning") == "WARNING" { }

  function AlertCells(a: Alert): (cells: seq<string>)
    ensures |cells| == 6 && cells[3] == LevelLabel(a.level)
  {
    [ a.product.name + "\n(" + a.product.sku + ")",
      IntToString(a.product.quantity),
      IntToString(a.point.minimumQuantity),
      LevelLabel(a.level),
      IntToString(a.suggestedOrder),
      SupplierName(a.product) ]
  }

  function AlertTable(alerts: seq<Alert>): seq<seq<string>>
  {
    Tabulate(AlertHeaders, alerts, AlertCells)
  }

  predicate NoAlerts(d: AlertsData)
  {
    d.critical == [] && d.urgent == [] && d.warning == []
  }

  function AlertsBlocks(d: AlertsData): seq<Block>
  {
    [Para(SectionHeader, "Low Stock Alerts")]
    + if NoAlerts(d) then [Para(Normal, NoAlertsText), Spacer(1, 12)]
      else [Table(AlertTable(AllAlerts(d))), Spacer(1, 20)]
  }

  /** `_create_alerts_table`. */
  method CreateAlertsTable(story: Story, d: AlertsData)
    modifies story
    ensures story.blocks == old(story.blocks) + AlertsBlocks(d)
  {
    story.Append(Para(SectionHeader, "Low Stock Alerts"));
    if d.critical == [] && d.urgent == [] && d.warning == [] {
      story.Append(Para(Normal, NoAlertsText));
      story.Append(Spacer(1, 12));
      return;
    }
    var table := BuildTable(AlertHeaders, d.critical + d.urgent + d.warning, AlertCells);
    story.Append(Table(table));
    story.Append(Spacer(1, 20));
  }

  /** For the alerts of a join: with no non-negative alert the section is
      only the "no active alerts" paragraph; otherwise it is a table of one
      header row and one row per alert, critical rows first, then urgent, then
      warning, each row's level column naming a bucket its row satisfies; the
      rows are the non-negative alerts, each once. */
  lemma AlertsSectionShape(cs: seq<AlertCandidate>)
    ensures var d := CollectAlerts(cs);
      var all := AllAlerts(d);
      && (Filter(cs, IsCountedAlert) == [] <==> NoAlerts(d))
      && (NoAlerts(d) ==> AlertsBlocks(d) == [Para(SectionHeader, "Low Stock Alerts"), Para(Normal, NoAlertsText), Spacer(1, 12)])
      && (!NoAlerts(d) ==>
            && AlertsBlocks(d)[1] == Table(AlertTable(all))
            && multiset(Candidates(all)) == multiset(Filter(cs, IsCountedAlert))
            && |all| == |Filter(cs, IsCountedAlert)|
            && AlertTable(all)[0] == AlertHeaders
            && LevelColumnShows(AlertTable(all), all)
            && SeverityOrdered(all)
            && AllInBucket(all))
  {
    AllAlertsBySeverity(cs);
    AlertTableShowsLevels(AllAlerts(CollectAlerts(cs)));
  }

  /** Row k + 1 of the table shows the level of alert k. */
  predicate LevelColumnShows(t: seq<seq<string>>, all: seq<Alert>)
  {
    |t| == |all| + 1 && forall k :: 0 <= k < |all| ==> |t[k + 1]| == 6 && t[k + 1][3] == LevelLabel(all[k].level)
  }

  lemma AlertTableShowsLevels(all: seq<Alert>)
    ensures LevelColumnShows(AlertTable(all), all)
  {
    var t := AlertTable(all);
    forall k | 0 <= k < |all| ensures |t[k + 1]| == 6 && t[k + 1][3] == LevelLabel(all[k].level) {
      var cells := AlertCells(all[k]);
      assert t[k + 1] == cells;
    }
  }

  // ---------------------------------------------------------------------------
  // The suppliers tables

  /** The column headers; the Inventory Value column (a float) is not modelled. */
  const SupplierHeaders: seq<string> := ["Supplier Name", "Products", "Total Stock", "Contact"]

  /** One cell per column; the two counts read back as the product count and
      the stock total (0 when the sum is NULL). */
  function SupplierCells(r: SupplierRow): (cells: seq<string>)
    ensures |cells| == |SupplierHeaders|
    ensures cells[0] == r.supplier.name
    ensures ReadsBackAs(cells[1], r.productCount)
    ensures ReadsBackAs(cells[2], if r.totalStock.Some? then r.totalStock.value else 0)
    ensures cells[3] == ContactText(r.supplier)
  {
    IntToStringRoundTrip(r.productCount);
    IntToStringRoundTrip(if r.totalStock.Some? then r.totalStock.value else 0);
    [ r.supplier.name,
      IntToString(r.productCount),
      IntToString(if r.totalStock.Some? then r.totalStock.value else 0),
      ContactText(r.supplier) ]
  }

  function SupplierTable(rows: seq<SupplierRow>): seq<seq<string>>
  {
    Tabulate(SupplierHeaders, rows, SupplierCells)
  }

  function SuppliersBlocks(rows: seq<SupplierRow>): seq<Block>
  {
    [Para(SectionHeader, "Supplier Performance Analysis")]
    + if rows == [] then [Para(Normal, "No supplier data available."), Spacer(1, 12)]
      else [Table(SupplierTable(rows)), Spacer(1, 20)]
  }

  /** `_create_suppliers_section`. */
  method CreateSuppliersSection(story: Story, rows: seq<SupplierRow>)
    modifies story
    ensures story.blocks == old(story.blocks) + SuppliersBlocks(rows)
  {
    story.Append(Para(SectionHeader, "Supplier Performance Analysis"));
    if rows == [] {
      story.Append(Para(Normal, "No supplier data available."));
      story.Append(Spacer(1, 12));
      return;
    }
    var table := BuildTable(SupplierHeaders, rows, SupplierCells);
    story.Append(Table(table));
    story.Append(Spacer(1, 20));
  }

  const InactiveHeaders: seq<string> := ["Supplier Name", "Contact Person", "Email", "Phone"]

  /** One cell per column: the name, then each contact field, or
      "Not provided" when it is None or empty. */
  function InactiveCells(r: SupplierRow): (cells: seq<string>)
    ensures |cells| == |InactiveHeaders| && cells[0] == r.supplier.name
    ensures cells[1] == (if Truthy(r.supplier.contactPerson) then r.supplier.contactPerson.value else "Not provided")
    ensures cells[2] == (if Truthy(r.supplier.email) then r.supplier.email.value else "Not provided")
    ensures cells[3] == (if Truthy(r.supplier.phone) then r.supplier.phone.value else "Not provided")
  {
    [ r.supplier.name,
      OrElse(r.supplier.contactPerson, "Not provided"),
      OrElse(r.supplier.email, "Not provided"),
      OrElse(r.supplier.phone, "Not provided") ]
  }

  function InactiveTable(rows: seq<SupplierRow>): seq<seq<string>>
  {
    Tabulate(InactiveHeaders, rows, InactiveCells)
  }

  function InactiveBlocks(rows: seq<SupplierRow>): seq<Block>
  {
    [Para(SectionHeader, "Inactive Suppliers (No Products)"), Table(InactiveTable(rows)), Spacer(1, 20)]
  }

  /** The "Inactive Suppliers (No Products)" section of `generate_supplier_report`. */
  method CreateInactiveSuppliersSection(story: Story, rows: seq<SupplierRow>)
    modifies story
    ensures story.blocks == old(story.blocks) + InactiveBlocks(rows)
  {
    story.Append(Para(SectionHeader, "Inactive Suppliers (No Products)"));
    var table := BuildTable(InactiveHeaders, rows, InactiveCells);
    story.Append(Table(table));
    story.Append(Spacer(1, 20));
  }

  // ===========================================================================
  // The three reports

  /** `generate_inventory_summary_report`. The database answers are inputs:
      all products, the supplier and transaction counts, the formatted
      inventory value, the top products by value, the joined reorder points
      and the top suppliers with products. */
  method GenerateInventorySummaryReport(
    products: seq<Product>, supplierCount: nat, transactionCount: nat, inventoryValueText: string,
    topProducts: seq<Product>, candidates: seq<AlertCandidate>, topSuppliers: seq<SupplierRow>, dateText: string)
    returns (blocks: seq<Block>)
    ensures blocks ==
      HeaderBlocks("Inventory Summary Report", dateText)
      + MetricsBlocks(SummaryMetrics(products, supplierCount, transactionCount, inventoryValueText, candidates))
      + ProductsBlocks(topProducts, "Top Products by Inventory Value")
      + [PageBreak]
      + AlertsBlocks(CollectAlerts(candidates))
      + SuppliersBlocks(topSuppliers)
      + FooterBlocks(dateText)
  {
    var story := new Story();
    CreateHeader(story, "Inventory Summary Report", dateText);
    var counts := SummaryAlertCounts(candidates);
    var metrics := [
      Metric("Total Products", Count(|products|)),
      Metric("Total Suppliers", Count(supplierCount)),
      Metric("Inventory Value", Text("$" + inventoryValueText)),
      Metric("Products in Stock", Count(|Filter(products, HasStock)|)),
      Metric("Out of Stock", Count(|Filter(products, OutOfStock)|)),
      Metric("Low Stock Items", Count(|Filter(products, LowStockItem)|)),
      Metric("Active Alerts", Count(counts.critical + counts.urgent + counts.warning)),
      Metric("Total Transactions", Count(transactionCount)) ];
    assert metrics == SummaryMetrics(products, supplierCount, transactionCount, inventoryValueText, candidates);
    ghost var expected := HeaderBlocks("Inventory Summary Report", dateText);
    assert story.blocks == expected;
    CreateMetricsSection(story, metrics);
    expected := expected + MetricsBlocks(metrics);
    assert story.blocks == expected;
    CreateProductsTable(story, topProducts, "Top Products by Inventory Value");
    expected := expected + ProductsBlocks(topProducts, "Top Products by Inventory Value");
    assert story.blocks == expected;
    story.Append(PageBreak);
    expected := expected + [PageBreak];
    CreateAlertsTable(story, CollectAlerts(candidates));
    expected := expected + AlertsBlocks(CollectAlerts(candidates));
    assert story.blocks == expected;
    CreateSuppliersSection(story, topSuppliers);
    expected := expected + SuppliersBlocks(topSuppliers);
    assert story.blocks == expected;
    CreateFooter(story, dateText);
    blocks := story.blocks;
  }

  /** The "Reorder Summary" section, shown when the total suggested reorder
      value (a float sum over prices) is positive; its formatted amount is
      given, None when it is not positive. */
  function ReorderSummaryBlocks(orderValueText: Option<string>): seq<Block>
  {
    if orderValueText.None? then []
    else [ Para(SectionHeader, "Reorder Summary"),
           Para(Normal, "<b>Total Suggested Reorder Value: $" + orderValueText.value + "</b>"),
           Spacer(1, 12) ]
  }

  /** The closing section of `generate_low_stock_report`. */
  method CreateReorderSummary(story: Story, orderValueText: Option<string>)
    modifies story
    ensures story.blocks == old(story.blocks) + ReorderSummaryBlocks(orderValueText)
  {
    if orderValueText.Some? {
      story.Append(Para(SectionHeader, "Reorder Summary"));
      story.Append(Para(Normal, "<b>Total Suggested Reorder Value: $" + orderValueText.value + "</b>"));
      story.Append(Spacer(1, 12));
    }
  }

  /** `generate_low_stock_report`. */
  method GenerateLowStockReport(candidates: seq<AlertCandidate>, orderValueText: Option<string>, dateText: string)
    returns (blocks: seq<Block>)
    ensures blocks ==
      HeaderBlocks("Low Stock Alert Report", dateText)
      + MetricsBlocks(LowStockMetrics(CollectAlerts(candidates)))
      + AlertsBlocks(CollectAlerts(candidates))
      + ReorderSummaryBlocks(orderValueText)
      + FooterBlocks(dateText)
  {
    var story := new Story();
    CreateHeader(story, "Low Stock Alert Report", dateText);
    var alertsData := CollectAlerts(candidates);
    var totalAlerts := |alertsData.critical| + |alertsData.urgent| + |alertsData.warning|;
    var metrics := [
      Metric("Total Alerts", Count(totalAlerts)),
      Metric("Critical (Out of Stock)", Count(|alertsData.critical|)),
      Metric("Urgent (Very Low)", Count(|alertsData.urgent|)),
      Metric("Warning (Below Min)", Count(|alertsData.warning|)) ];
    assert metrics == LowStockMetrics(alertsData);
    ghost var expected := HeaderBlocks("Low Stock Alert Report", dateText);
    assert story.blocks == expected;
    CreateMetricsSection(story, metrics);
    expected := expected + MetricsBlocks(metrics);
    assert story.blocks == expected;
    CreateAlertsTable(story, alertsData);
    expected := expected + AlertsBlocks(alertsData);
    assert story.blocks == expected;
    CreateReorderSummary(story, orderValueText);
    expected := expected + ReorderSummaryBlocks(orderValueText);
    assert story.blocks == expected;
    CreateFooter(story, dateText);
    blocks := story.blocks;
  }

  /** `generate_supplier_report`: the suppliers with products get the
      performance table, those without get the contact table, each section
      only when it has rows. */
  method GenerateSupplierReport(rows: seq<SupplierRow>, totalValueText: string, averageText: string, dateText: string)
    returns (blocks: seq<Block>)
    ensures blocks ==
      HeaderBlocks("Supplier Performance Report", dateText)
      + MetricsBlocks(SupplierMetrics(rows, totalValueText, averageText))
      + (if ActiveSuppliers(rows) != [] then SuppliersBlocks(ActiveSuppliers(rows)) else [])
      + (if InactiveSuppliers(rows) != [] then InactiveBlocks(InactiveSuppliers(rows)) else [])
      + FooterBlocks(dateText)
  {
    var story := new Story();
    CreateHeader(story, "Supplier Performance Report", dateText);
    var activeSuppliers := Filter(rows, IsActiveSupplier);
    var metrics := [
      Metric("Total Suppliers", Count(|rows|)),
      Metric("Active Suppliers", Count(|activeSuppliers|)),
      Metric("Total Supplier Value", Text("$" + totalValueText)),
      Metric("Average per Supplier", Text("$" + averageText)) ];
    assert metrics == SupplierMetrics(rows, totalValueText, averageText);
    ghost var expected := HeaderBlocks("Supplier Performance Report", dateText);
    assert story.blocks == expected;
    CreateMetricsSection(story, metrics);
    expected := expected + MetricsBlocks(metrics);
    assert story.blocks == expected;
    if activeSuppliers != [] {
      CreateSuppliersSection(story, activeSuppliers);
    }
    expected := expected + (if activeSuppliers != [] then SuppliersBlocks(activeSuppliers) else []);
    assert story.blocks == expected;
    var inactiveSuppliers := Filter(rows, IsInactiveSupplier);
    if inactiveSuppliers != [] {
      CreateInactiveSuppliersSection(story, inactiveSuppliers);
    }
    expected := expected + (if inactiveSuppliers != [] then InactiveBlocks(inactiveSuppliers) else []);
    assert story.blocks == expected;
    CreateFooter(story, dateText);
    blocks := story.blocks;
  }
}
