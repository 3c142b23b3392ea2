/** The profit-and-loss side of the trial balance page, first part: the
    category an account reports under, the order of pl_data, and the
    stair-step buckets with the waterfall computed from them
    (pl_calculations). */
module PlStair {
  import opened Common
  import opened Text
  import opened Catalog
  import opened TrialBalance
  import opened SortKeys
  import opened BalanceSheet

  /** The category an account item reports under on the P/L: pl_category,
      else the middle category, else the small category, stripped. A
      category of blanks is chosen and then stripped to "". */
  function PlCat(ai: AccountItem): (r: string)
    ensures ai.plCategory != "" ==> r == Strip(ai.plCategory)
    ensures ai.plCategory == "" && ai.mid != "" ==> r == Strip(ai.mid)
    ensures ai.plCategory == "" && ai.mid == "" ==> r == Strip(ai.sub)
  {
    Strip(if ai.plCategory != "" then ai.plCategory else if ai.mid != "" then ai.mid else ai.sub)
  }

  // ---------------------------------------------------------------------------
  // The order of pl_data

  /** The stages of the income statement in their printed order; the small
      categories of the cost of sales sit between sales and cost of sales. */
  const PlCatOrder: map<string, int> := map[
    "売上高" := 10,
    "期首商品棚卸" := 11, "当期商品仕入" := 12, "他勘定振替高(商)" := 13, "期末商品棚卸" := 14,
    "売上原価" := 20, "売上総利益" := 30,
    "販売管理費" := 40, "販管費" := 40, "販売費及び一般管理費" := 40,
    "営業利益" := 50, "営業外収益" := 60, "営業外費用" := 70, "経常利益" := 80,
    "特別利益" := 90, "特別損失" := 100, "税引前当期純利益" := 110,
    "法人税等" := 120, "法人税等調整額" := 130, "当期純利益" := 140]

  lemma PlCatOrderRange()
    ensures forall k :: k in PlCatOrder ==> 10 <= PlCatOrder[k] <= 140
  {
  }

  /** The stage of an account: its small category when that is a listed
      stage, else its middle category, else its P/L category, else 999. */
  function PlOrder(ai: AccountItem): int
  {
    Get(PlCatOrder, Strip(ai.sub), Get(PlCatOrder, Strip(ai.mid), Get(PlCatOrder, PlCat(ai), 999)))
  }

  /** The small category decides when it is a listed stage, then the middle
      category; 999 means none of the three categories is listed. */
  lemma PlOrderFacts(ai: AccountItem)
    ensures Strip(ai.sub) in PlCatOrder ==> PlOrder(ai) == PlCatOrder[Strip(ai.sub)]
    ensures Strip(ai.sub) !in PlCatOrder && Strip(ai.mid) in PlCatOrder ==> PlOrder(ai) == PlCatOrder[Strip(ai.mid)]
    ensures PlOrder(ai) == 999 <==> Strip(ai.sub) !in PlCatOrder && Strip(ai.mid) !in PlCatOrder && PlCat(ai) !in PlCatOrder
    ensures 10 <= PlOrder(ai) <= 140 || PlOrder(ai) == 999
  {
    PlCatOrderRange();
  }

  /** The key of pl_data: the stage, pl_rank (else 9999), the account name. */
  function PlSortKey(row: TbRow): (k: seq<KeyPart>)
    ensures |k| == 3 && k[0] == Num(PlOrder(row.item))
  {
    var ai := row.item;
    [Num(PlOrder(ai)), Num(match ai.plRank case Some(r) => r case None => 9999), Str(ai.name)]
  }

  /** Sorted pl_data lists the accounts stage by stage: the stage never
      decreases along the list. */
  lemma PlDataStagesInOrder(rows: seq<TbRow>)
    ensures var s := SortBy(rows, PlSortKey);
      forall i, j :: 0 <= i < j < |s| ==> PlOrder(s[i].item) <= PlOrder(s[j].item)
  {
    var s := SortBy(rows, PlSortKey);
    forall i, j | 0 <= i < j < |s| ensures PlOrder(s[i].item) <= PlOrder(s[j].item) {
      FirstPartDecides(PlSortKey(s[j]), PlSortKey(s[i]));
    }
  }

  // ---------------------------------------------------------------------------
  // Stair-step buckets

  datatype Bucket = Sales | CostOfSales | Sga | NonOperatingIncome | NonOperatingExpense
                  | ExtraordinaryIncome | ExtraordinaryLoss | IncomeTaxes | IncomeTaxesAdjustments

  /** The bucket of a P/L category; categories outside the nine buckets
      (subtotal lines, unknown names) are in none. */
  function BucketOf(cat: string): Option<Bucket>
  {
    if cat == "売上高" then Some(Sales)
    else if cat == "売上原価" then Some(CostOfSales)
    else if cat in {"販管費", "販売費及び一般管理費", "販売管理費"} then Some(Sga)
    else if cat == "営業外収益" then Some(NonOperatingIncome)
    else if cat == "営業外費用" then Some(NonOperatingExpense)
    else if cat == "特別利益" then Some(ExtraordinaryIncome)
    else if cat == "特別損失" then Some(ExtraordinaryLoss)
    else if cat == "法人税等" then Some(IncomeTaxes)
    else if cat == "法人税等調整額" then Some(IncomeTaxesAdjustments)
    else None
  }

  /** The three spellings of selling, general and administrative expenses
      share one bucket, and every bucket has exactly its own category. */
  lemma BucketSpellings(cat: string)
    ensures BucketOf(cat) == Some(Sga) <==> cat in {"販管費", "販売費及び一般管理費", "販売管理費"}
    ensures BucketOf(cat) == Some(Sales) <==> cat == "売上高"
    ensures BucketOf(cat) == Some(CostOfSales) <==> cat == "売上原価"
    ensures BucketOf(cat) == Some(NonOperatingIncome) <==> cat == "営業外収益"
    ensures BucketOf(cat) == Some(NonOperatingExpense) <==> cat == "営業外費用"
    ensures BucketOf(cat) == Some(ExtraordinaryIncome) <==> cat == "特別利益"
    ensures BucketOf(cat) == Some(ExtraordinaryLoss) <==> cat == "特別損失"
    ensures BucketOf(cat) == Some(IncomeTaxes) <==> cat == "法人税等"
    ensures BucketOf(cat) == Some(IncomeTaxesAdjustments) <==> cat == "法人税等調整額"
  {
  }

  function RowBucket(row: TbRow): Option<Bucket>
  {
    BucketOf(PlCat(row.item))
  }

  /** The amount a row contributes: its closing balance. */
  function ClosingOf(row: TbRow): int
  {
    row.closing
  }

  /** The rows of one bucket, in the order of pl_data. */
  function BucketRows(rows: seq<TbRow>, b: Bucket): seq<TbRow>
  {
    if rows == [] then [] else
      var rest := BucketRows(rows[..|rows| - 1], b);
      var x := rows[|rows| - 1];
      if RowBucket(x) == Some(b) then rest + [x] else rest
  }

  /** A bucket's list holds exactly the rows of that bucket. */
  lemma {:induction false} BucketRowsMembers(rows: seq<TbRow>, b: Bucket)
    ensures forall x :: x in BucketRows(rows, b) <==> x in rows && RowBucket(x) == Some(b)
  {
    if rows != [] {
      var prev, x := rows[..|rows| - 1], rows[|rows| - 1];
      BucketRowsMembers(prev, b);
      assert rows == prev + [x];
    }
  }

  datatype StairTotals = StairTotals(
    sales: int, costOfSales: int, sga: int,
    nonOperatingIncome: int, nonOperatingExpense: int,
    extraordinaryIncome: int, extraordinaryLoss: int,
    incomeTaxes: int, incomeTaxesAdjustments: int)

  const NoTotals := StairTotals(0, 0, 0, 0, 0, 0, 0, 0, 0)

  function TotalIn(t: StairTotals, b: Bucket): int
  {
    match b
    case Sales => t.sales
    case CostOfSales => t.costOfSales
    case Sga => t.sga
    case NonOperatingIncome => t.nonOperatingIncome
    case NonOperatingExpense => t.nonOperatingExpense
    case ExtraordinaryIncome => t.extraordinaryIncome
    case ExtraordinaryLoss => t.extraordinaryLoss
    case IncomeTaxes => t.incomeTaxes
    case IncomeTaxesAdjustments => t.incomeTaxesAdjustments
  }

  /** `<bucket>_total += amount`: one total grows, the others stay. */
  function AddIn(t: StairTotals, b: Bucket, amount: int): (u: StairTotals)
    ensures TotalIn(u, b) == TotalIn(t, b) + amount
    ensures forall c :: c != b ==> TotalIn(u, c) == TotalIn(t, c)
  {
    match b
    case Sales => t.(sales := t.sales + amount)
    case CostOfSales => t.(costOfSales := t.costOfSales + amount)
    case Sga => t.(sga := t.sga + amount)
    case NonOperatingIncome => t.(nonOperatingIncome := t.nonOperatingIncome + amount)
    case NonOperatingExpense => t.(nonOperatingExpense := t.nonOperatingExpense + amount)
    case ExtraordinaryIncome => t.(extraordinaryIncome := t.extraordinaryIncome + amount)
    case ExtraordinaryLoss => t.(extraordinaryLoss := t.extraordinaryLoss + amount)
    case IncomeTaxes => t.(incomeTaxes := t.incomeTaxes + amount)
    case IncomeTaxesAdjustments => t.(incomeTaxesAdjustments := t.incomeTaxesAdjustments + amount)
  }

  /** The nine totals after the loop over pl_data. */
  function StairOf(rows: seq<TbRow>): StairTotals
  {
    if rows == [] then NoTotals else
      var t := StairOf(rows[..|rows| - 1]);
      var x := rows[|rows| - 1];
      match RowBucket(x)
      case None => t
      case Some(b) => AddIn(t, b, x.closing)
  }

  /** Each bucket total is the sum of the closing balances of the rows in
      that bucket. */
  lemma {:induction false} StairBucketSum(rows: seq<TbRow>, b: Bucket)
    ensures TotalIn(StairOf(rows), b) == Sum(BucketRows(rows, b), ClosingOf)
  {
    if rows != [] {
      var n := |rows| - 1;
      var x, prev := rows[n], rows[..n];
      StairBucketSum(prev, b);
      var rb := RowBucket(x);
      if rb == Some(b) {
        assert BucketRows(rows, b) == BucketRows(prev, b) + [x];
        assert StairOf(rows) == AddIn(StairOf(prev), b, x.closing);
        SumSnoc(BucketRows(prev, b), x, ClosingOf);
      } else {
        assert BucketRows(rows, b) == BucketRows(prev, b);
        assert TotalIn(StairOf(rows), b) == TotalIn(StairOf(prev), b);
      }
    }
  }

  const AllBuckets: set<Bucket> := {Sales, CostOfSales, Sga, NonOperatingIncome, NonOperatingExpense,
    ExtraordinaryIncome, ExtraordinaryLoss, IncomeTaxes, IncomeTaxesAdjustments}

  lemma AllBucketsListed(b: Bucket)
    ensures b in AllBuckets
  {
  }

  /** A new row joins the list of its own bucket only. */
  lemma BucketRowsSnoc(done: seq<TbRow>, row: TbRow, b: Bucket)
    ensures BucketRows(done + [row], b) == if RowBucket(row) == Some(b) then BucketRows(done, b) + [row] else BucketRows(done, b)
  {
    assert (done + [row])[..|done|] == done;
  }

  lemma StairOfSnoc(done: seq<TbRow>, row: TbRow)
    ensures StairOf(done + [row]) == match RowBucket(row) case None => StairOf(done) case Some(b) => AddIn(StairOf(done), b, row.closing)
  {
    assert (done + [row])[..|done|] == done;
  }

  /** One pass of the loop: the row goes into the list of its bucket and its
      closing balance into that bucket's total. */
  method FileRow(steps: map<Bucket, seq<TbRow>>, totals: StairTotals, ghost done: seq<TbRow>, row: TbRow,
                 ghost next: seq<TbRow>)
    returns (steps': map<Bucket, seq<TbRow>>, totals': StairTotals)
    requires next == done + [row]
    requires forall b: Bucket :: b in steps ==> steps[b] == BucketRows(done, b)
    requires steps.Keys == AllBuckets
    requires totals == StairOf(done)
    ensures forall b: Bucket :: b in steps' ==> steps'[b] == BucketRows(next, b)
    ensures steps'.Keys == AllBuckets
    ensures totals' == StairOf(next)
  {
    StairOfSnoc(done, row);
    var rb := RowBucket(row);
    steps', totals' := steps, totals;
    if rb.Some? {
      var b := rb.value;
      AllBucketsListed(b);
      steps' := steps[b := steps[b] + [row]];
      totals' := AddIn(totals, b, row.closing);
    }
    forall c: Bucket | c in steps'
      ensures steps'[c] == BucketRows(done + [row], c)
    {
      BucketRowsSnoc(done, row, c);
    }
  }

  /** The loop over pl_data: one list and one total per bucket. */
  method PlStairStep(pl: seq<TbRow>) returns (steps: map<Bucket, seq<TbRow>>, totals: StairTotals)
    ensures steps.Keys == AllBuckets
    ensures forall b: Bucket :: b in steps ==> steps[b] == BucketRows(pl, b)
    ensures totals == StairOf(pl)
  {
    steps := map b | b in AllBuckets :: [];
    totals := NoTotals;
    var i := 0;
    assert pl[..i] == [];
    forall b: Bucket | b in steps
      ensures steps[b] == BucketRows(pl[..i], b)
    {
    }
    while i < |pl|
      invariant 0 <= i <= |pl|
      invariant steps.Keys == AllBuckets
      invariant forall b: Bucket :: b in steps ==> steps[b] == BucketRows(pl[..i], b)
      invariant totals == StairOf(pl[..i])
    {
      TakeSnoc(pl, i);
      steps, totals := FileRow(steps, totals, pl[..i], pl[i], pl[..i + 1]);
      i := i + 1;
    }
    assert pl[..i] == pl;
  }

  // ---------------------------------------------------------------------------
  // The waterfall of pl_calculations

  datatype PlCalculations = PlCalculations(
    salesTotal: int, cogsTotal: int, grossProfit: int,
    sgaTotal: int, operatingIncome: int,
    nonOperatingIncomeTotal: int, nonOperatingExpenseTotal: int, ordinaryIncome: int,
    extraordinaryIncomeTotal: int, extraordinaryLossTotal: int, preTaxIncome: int,
    incomeTaxesTotal: int, incomeTaxesAdjustmentsTotal: int, netIncome: int)

  /** Each profit line is the line above it plus the income and minus the
      expense buckets between them. */
  function Waterfall(t: StairTotals): (c: PlCalculations)
    ensures c.salesTotal == t.sales && c.cogsTotal == t.costOfSales && c.sgaTotal == t.sga
    ensures c.incomeTaxesTotal == t.incomeTaxes && c.incomeTaxesAdjustmentsTotal == t.incomeTaxesAdjustments
  {
    var gross := t.sales - t.costOfSales;
    var operating := gross - t.sga;
    var ordinary := operating + t.nonOperatingIncome - t.nonOperatingExpense;
    var preTax := ordinary + t.extraordinaryIncome - t.extraordinaryLoss;
    var net := preTax - t.incomeTaxes - t.incomeTaxesAdjustments;
    PlCalculations(
      t.sales, t.costOfSales, gross, t.sga, operating,
      t.nonOperatingIncome, t.nonOperatingExpense, ordinary,
      t.extraordinaryIncome, t.extraordinaryLoss, preTax,
      t.incomeTaxes, t.incomeTaxesAdjustments, net)
  }

  /** Income buckets add to the profit, expense buckets subtract from it. */
  function Sign(b: Bucket): int
  {
    if b in {Sales, NonOperatingIncome, ExtraordinaryIncome} then 1 else -1
  }

  /** What a row does to net income: its closing balance with the sign of
      its bucket, nothing when it is in no bucket. */
  function SignedClosing(row: TbRow): int
  {
    match RowBucket(row)
    case None => 0
    case Some(b) => Sign(b) * row.closing
  }

  lemma NetStep(t: StairTotals, b: Bucket, amount: int)
    ensures Waterfall(AddIn(t, b, amount)).netIncome == Waterfall(t).netIncome + Sign(b) * amount
  {
  }

  /** Net income is the signed sum of the closing balances of pl_data:
      income buckets count positively, expense buckets negatively, rows in
      no bucket not at all. */
  lemma {:induction false} NetIsSignedSum(rows: seq<TbRow>)
    ensures Waterfall(StairOf(rows)).netIncome == Sum(rows, SignedClosing)
  {
    if rows != [] {
      var n := |rows| - 1;
      NetIsSignedSum(rows[..n]);
      match RowBucket(rows[n])
      case None =>
      case Some(b) => NetStep(StairOf(rows[..n]), b, rows[n].closing);
    }
  }

  /** The profit lines differ by exactly the buckets between them. The
      waterfall is defined line by line in the same way, so these identities
      are its reading step by step; `NetIsSignedSum` is the statement about
      the rows. */
  lemma WaterfallSteps(t: StairTotals)
    ensures var c := Waterfall(t);
      && c.grossProfit == c.salesTotal - c.cogsTotal
      && c.operatingIncome == c.grossProfit - c.sgaTotal
      && c.ordinaryIncome == c.operatingIncome + c.nonOperatingIncomeTotal - c.nonOperatingExpenseTotal
      && c.preTaxIncome == c.ordinaryIncome + c.extraordinaryIncomeTotal - c.extraordinaryLossTotal
      && c.netIncome == c.preTaxIncome - c.incomeTaxesTotal - c.incomeTaxesAdjustmentsTotal
  {
  }
}
