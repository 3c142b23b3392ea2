/** The balance-sheet side of the trial balance page: the orders its rows are
    listed in, the stair-step buckets, and the full account list in which an
    account without postings still appears with zero figures. */
module BalanceSheet {
  import opened Common
  import opened Catalog
  import opened TrialBalance
  import opened SortKeys

  /** `dict.get(k, default)` on an order table. */
  function Get(table: map<string, int>, k: string, default: int): (r: int)
    ensures k in table ==> r == table[k]
    ensures k !in table ==> r == default
  {
    if k in table then table[k] else default
  }

  // ---------------------------------------------------------------------------
  // The order of bs_data

  const MajorOrder: map<string, int> := map["資産" := 1, "負債" := 2, "純資産" := 3]

  /** Middle categories in liquidity order (流動性配列法). */
  const MiddleOrder: map<string, int> := map[
    "流動資産" := 1, "固定資産" := 2, "繰延資産" := 3,
    "流動負債" := 1, "固定負債" := 2,
    "資本金" := 1, "資本剰余金" := 2, "利益剰余金" := 3, "自己株式" := 4,
    "評価換算差額等" := 5, "新株予約権" := 6]

  /** Small categories, the most liquid first. */
  const SmallOrder: map<string, int> := map[
    "現金及び預金" := 1, "売上債権" := 2, "有価証券" := 3, "棚卸資産" := 4, "その他流動資産" := 5,
    "有形固定資産" := 1, "無形固定資産" := 2, "投資その他の資産" := 3,
    "繰延資産" := 1,
    "仕入債務" := 1, "その他流動負債" := 2,
    "固定負債" := 1,
    "資本金" := 1, "新株式申込証拠金" := 1, "資本準備金" := 2, "その他資本剰余金" := 3,
    "利益準備金" := 1, "その他利益剰余金" := 2, "自己株式" := 1, "自己株式申込証拠金" := 2,
    "他有価証券評価差額金" := 1, "繰延ヘッジ損益" := 2, "土地再評価差額金" := 3, "新株予約権" := 1,
    "諸口" := 99]

  /** bs_rank, else liquidity_rank, else 9999. */
  function Rank(ai: AccountItem): int
  {
    match ai.bsRank
    case Some(r) => r
    case None => match ai.liquidityRank case Some(l) => l case None => 9999
  }

  /** The key of bs_data: the three category orders (unknown ones 99, the
      category text taken as stored), the rank, the account name. */
  function BsSortKey(row: TbRow): (k: seq<KeyPart>)
    ensures |k| == 5 && k[0] == Num(MajorRank(row.item.major))
  {
    var ai := row.item;
    [Num(MajorRank(ai.major)), Num(Get(MiddleOrder, ai.mid, 99)), Num(Get(SmallOrder, ai.sub, 99)),
     Num(Rank(ai)), Str(ai.name)]
  }

  function MajorRank(major: string): (r: int)
    ensures r >= 1
    ensures r == 1 <==> major == "資産"
    ensures r == 2 <==> major == "負債"
    ensures r == 3 <==> major == "純資産"
    ensures major !in {"資産", "負債", "純資産"} ==> r == 99
  {
    Get(MajorOrder, major, 99)
  }

  /** In the sorted balance sheet every 資産 row comes before every 負債 row,
      those before every 純資産 row, and those before the rows of any other
      major category. */
  lemma BsDataMajorsInOrder(rows: seq<TbRow>)
    ensures var s := SortBy(rows, BsSortKey);
      forall i, j :: 0 <= i < j < |s| ==> MajorRank(s[i].item.major) <= MajorRank(s[j].item.major)
    ensures var s := SortBy(rows, BsSortKey);
      forall i, j :: 0 <= i < j < |s| && s[j].item.major == "資産" ==> s[i].item.major == "資産"
  {
    var s := SortBy(rows, BsSortKey);
    forall i, j | 0 <= i < j < |s| ensures MajorRank(s[i].item.major) <= MajorRank(s[j].item.major) {
      FirstPartDecides(BsSortKey(s[j]), BsSortKey(s[i]));
    }
  }

  // ---------------------------------------------------------------------------
  // Stair-step buckets of the balance sheet

  /** The eight middle and small categories the stair-step view lists. */
  const StairCategories: seq<string> := ["流動資産", "固定資産", "投資その他の資産", "流動負債", "固定負債", "資本金", "資本剰余金", "利益剰余金"]

  /** The rows whose bs_category is c, in their order. */
  function CategoryRows(rows: seq<TbRow>, c: string): (r: seq<TbRow>)
    ensures forall x :: x in r ==> x in rows && x.item.bsCategory == c
    ensures forall x :: x in rows && x.item.bsCategory == c ==> x in r
  {
    if rows == [] then [] else
      var rest := CategoryRows(rows[..|rows| - 1], c);
      var x := rows[|rows| - 1];
      assert rows == rows[..|rows| - 1] + [x];
      if x.item.bsCategory == c then rest + [x] else rest
  }

  /** bs_stair_step_data: one list per listed category; a row whose
      bs_category is empty or not listed is in none of them. */
  method BsStairStep(bs: seq<TbRow>) returns (steps: map<string, seq<TbRow>>)
    ensures steps.Keys == set c | c in StairCategories
    ensures forall c :: c in steps ==> steps[c] == CategoryRows(bs, c)
  {
    steps := map c | c in StairCategories :: [];
    var i := 0;
    while i < |bs|
      invariant 0 <= i <= |bs|
      invariant steps.Keys == set c | c in StairCategories
      invariant forall c :: c in steps ==> steps[c] == CategoryRows(bs[..i], c)
    {
      assert bs[..i + 1][..i] == bs[..i];
      var c := bs[i].item.bsCategory;
      if c != "" && c in steps {
        steps := steps[c := steps[c] + [bs[i]]];
      }
      i := i + 1;
    }
    assert bs[..i] == bs;
  }

  // ---------------------------------------------------------------------------
  // bs_data_full: every balance-sheet account, with or without postings

  /** The major categories whose accounts the full list takes. */
  const BsMajors: seq<string> := ["資産", "負債", "純資産", "負債及び純資産"]

  /** The organisation's account items with one of those major categories,
      in table order; without an organisation none match. */
  function BsAccounts(items: seq<AccountItem>, org: Option<int>): seq<AccountItem>
  {
    Filter(items, (ai: AccountItem) => org == Some(ai.orgId) && ai.major in BsMajors)
  }

  /** bs_map.get(id): the dict built from bs_data keeps the last row of an id. */
  function MapRow(bs: seq<TbRow>, id: int): (r: Option<TbRow>)
    ensures r.Some? ==> r.value in bs && r.value.item.id == id
    ensures r.None? <==> forall x :: x in bs ==> x.item.id != id
  {
    if bs == [] then None
    else if bs[|bs| - 1].item.id == id then Some(bs[|bs| - 1])
    else
      assert bs == bs[..|bs| - 1] + [bs[|bs| - 1]];
      MapRow(bs[..|bs| - 1], id)
  }

  /** An account without postings in the period: all figures zero. */
  function ZeroRow(ai: AccountItem): TbRow
  {
    TbRow(ai, 0, 0, 0, 0)
  }

  /** The full list: each balance-sheet account of the organisation in table
      order, with its trial-balance row or, lacking one, a zero row. */
  method BsDataFull(items: seq<AccountItem>, org: Option<int>, bs: seq<TbRow>) returns (full: seq<TbRow>)
    ensures var accounts := BsAccounts(items, org);
      && |full| == |accounts|
      && (forall i :: 0 <= i < |full| ==> full[i] == FullRow(bs, accounts[i]))
      && (forall i :: 0 <= i < |full| ==> full[i].item.id == accounts[i].id)
      && (forall i :: 0 <= i < |full| ==> (full[i] in bs || full[i] == ZeroRow(accounts[i])))
      && (forall i :: 0 <= i < |full| ==>
            ((forall x :: x in bs ==> x.item.id != accounts[i].id) <==> full[i] == ZeroRow(accounts[i]) && full[i] !in bs))
  {
    var accounts := BsAccounts(items, org);
    full := [];
    var i := 0;
    while i < |accounts|
      invariant 0 <= i <= |accounts| && |full| == i
      invariant forall k :: 0 <= k < i ==> full[k] == FullRow(bs, accounts[k])
    {
      var row := MapRow(bs, accounts[i].id);
      if row.Some? {
        full := full + [row.value];
      } else {
        full := full + [ZeroRow(accounts[i])];
      }
      i := i + 1;
    }
    forall k | 0 <= k < |full|
      ensures ((forall x :: x in bs ==> x.item.id != accounts[k].id) <==> full[k] == ZeroRow(accounts[k]) && full[k] !in bs)
    {
      ZeroRowNotPosted(bs, accounts[k]);
    }
  }

  function FullRow(bs: seq<TbRow>, ai: AccountItem): TbRow
  {
    match MapRow(bs, ai.id) case Some(row) => row case None => ZeroRow(ai)
  }

  /** When the account has postings its zero row is not what the full list
      takes, and when it has none no trial-balance row is taken for it. */
  lemma ZeroRowNotPosted(bs: seq<TbRow>, ai: AccountItem)
    ensures (forall x :: x in bs ==> x.item.id != ai.id) <==> FullRow(bs, ai) == ZeroRow(ai) && FullRow(bs, ai) !in bs
  {
    if MapRow(bs, ai.id).Some? {
      var row := MapRow(bs, ai.id).value;
      assert row in bs;
    }
  }

  /** Every trial-balance row of a balance-sheet account of the organisation
      is in the full list when no two rows share an account, and every
      balance-sheet account gets a row. */
  lemma BsDataFullKeepsRows(items: seq<AccountItem>, org: Option<int>, bs: seq<TbRow>, full: seq<TbRow>, x: TbRow, ai: AccountItem)
    requires var accounts := BsAccounts(items, org);
      |full| == |accounts| && forall i :: 0 <= i < |full| ==> full[i] == FullRow(bs, accounts[i])
    requires forall i, j :: 0 <= i < j < |bs| ==> bs[i].item.id != bs[j].item.id
    requires ai in items && org == Some(ai.orgId) && ai.major in BsMajors
    requires x in bs && x.item.id == ai.id
    ensures x in full
  {
    var accounts := BsAccounts(items, org);
    var n :| 0 <= n < |items| && items[n] == ai;
    assert ai in accounts;
    var i :| 0 <= i < |accounts| && accounts[i] == ai;
    var row := MapRow(bs, ai.id).value;
    var p :| 0 <= p < |bs| && bs[p] == row;
    var q :| 0 <= q < |bs| && bs[q] == x;
    assert p == q;
    assert full[i] == x;
  }

  // ---------------------------------------------------------------------------
  // The order of bs_data_full

  const FullMajorOrder: map<string, int> := map["資産" := 1, "負債" := 2, "純資産" := 3, "負債及び純資産" := 2]

  /** The middle order of the full list also knows the profit-and-loss
      middle categories. */
  const FullMiddleOrder: map<string, int> := map[
    "流動資産" := 1, "固定資産" := 2, "繰延資産" := 3,
    "流動負債" := 1, "固定負債" := 2,
    "資本金" := 1, "資本剰余金" := 2, "利益剰余金" := 3, "自己株式" := 4,
    "評価換算差額等" := 5, "新株予約権" := 6,
    "売上高" := 1, "売上原価" := 2, "販売費及び一般管理費" := 3, "営業外収益" := 4,
    "営業外費用" := 5, "特別利益" := 6, "特別損失" := 7, "法人税等" := 8, "法人税等調整額" := 9]

  const FullSmallOrder: map<string, int> := map[
    "現金及び預金" := 1, "売上債権" := 2, "有価証券" := 3, "棚卸資産" := 4, "その他流動資産" := 5,
    "有形固定資産" := 1, "無形固定資産" := 2, "投資その他の資産" := 3,
    "繰延資産" := 1,
    "仕入債務" := 1, "その他流動負債" := 2,
    "固定負債" := 1,
    "資本金" := 1, "新株式申込証拠金" := 1, "資本準備金" := 2, "その他資本剰余金" := 3,
    "利益準備金" := 1, "その他利益剰余金" := 2, "自己株式" := 1, "自己株式申込証拠金" := 2,
    "他有価証券評価差額金" := 1, "繰延ヘッジ損益" := 2, "土地再評価差額金" := 3, "新株予約権" := 1,
    "売上高" := 1, "期首商品棚卸" := 1, "当期商品仕入" := 2, "他勘定振替高(商)" := 3, "期末商品棚卸" := 4,
    "販売管理費" := 1, "営業外収益" := 1, "営業外費用" := 1, "特別利益" := 1, "特別損失" := 1,
    "法人税等" := 1, "法人税等調整額" := 1]

  function FullMajorRank(major: string): (r: int)
    ensures r >= 1
    ensures r == 1 <==> major == "資産"
    ensures r == 2 <==> major in {"負債", "負債及び純資産"}
    ensures r == 3 <==> major == "純資産"
  {
    Get(FullMajorOrder, major, 99)
  }

  function BsSortKeyFull(row: TbRow): (k: seq<KeyPart>)
    ensures |k| == 5 && k[0] == Num(FullMajorRank(row.item.major))
  {
    var ai := row.item;
    [Num(FullMajorRank(ai.major)), Num(Get(FullMiddleOrder, ai.mid, 99)), Num(Get(FullSmallOrder, ai.sub, 99)),
     Num(Rank(ai)), Str(ai.name)]
  }

  /** In the sorted full list the assets come first, then liabilities (with
      負債及び純資産 ranked as 負債), then net assets. */
  lemma BsDataFullMajorsInOrder(rows: seq<TbRow>)
    ensures var s := SortBy(rows, BsSortKeyFull);
      forall i, j :: 0 <= i < j < |s| ==> FullMajorRank(s[i].item.major) <= FullMajorRank(s[j].item.major)
    ensures var s := SortBy(rows, BsSortKeyFull);
      forall i, j :: 0 <= i < j < |s| && s[j].item.major == "資産" ==> s[i].item.major == "資産"
  {
    var s := SortBy(rows, BsSortKeyFull);
    forall i, j | 0 <= i < j < |s| ensures FullMajorRank(s[i].item.major) <= FullMajorRank(s[j].item.major) {
      FirstPartDecides(BsSortKeyFull(s[j]), BsSortKeyFull(s[i]));
    }
  }
}
