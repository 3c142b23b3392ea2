/** The profit-and-loss side of the trial balance page, second part: the
    tree of small categories (pl_tree) over every P/L account of the
    organisation, its order, the grouping by middle category (pl_mid_tree)
    and the cascade of subtotals computed from it (pl_subtotals). */
module PlTree {
  import opened Common
  import opened Text
  import opened Catalog
  import opened TrialBalance
  import opened SortKeys
  import opened BalanceSheet
  import opened BsTree
  import opened PlStair

  /** The organisation's account items of major category 損益, in table
      order; without an organisation none match. */
  function PlAccounts(items: seq<AccountItem>, org: Option<int>): seq<AccountItem>
  {
    Filter(items, (ai: AccountItem) => org == Some(ai.orgId) && ai.major == "損益")
  }

  /** One account with what the loop computes for it: its small category
      (`sub_category or "その他"`, stripped), its middle category (likewise),
      its stage, and its figures for the period. */
  datatype PlLine = PlLine(item: AccountItem, sub: string, mid: string, stage: int,
                           debit: int, credit: int, closing: int)

  /** One small category: the totals over its accounts, the accounts in
      table order, and the best (lowest) stage among them. */
  datatype PlGroup = PlGroup(
    name: string, totalDebit: int, totalCredit: int, totalClosing: int,
    lines: seq<PlLine>, priority: int)

  function GroupLabel(g: PlGroup): string { g.name }

  function LineDebit(l: PlLine): int { l.debit }
  function LineCredit(l: PlLine): int { l.credit }
  function LineClosing(l: PlLine): int { l.closing }

  /** An account's figures: those of its pl_data row (the dict built from
      pl_data keeps the last row of an id), else zero. */
  function LineOf(pl: seq<TbRow>, ai: AccountItem): (l: PlLine)
    ensures l.item == ai && l.sub == Label(ai.sub) && l.mid == Label(ai.mid) && l.stage == PlOrder(ai)
    ensures MapRow(pl, ai.id).None? ==> l.debit == 0 && l.credit == 0 && l.closing == 0
    ensures MapRow(pl, ai.id).Some? ==>
      exists r :: r in pl && r.item.id == ai.id && l.debit == r.debit && l.credit == r.credit && l.closing == r.closing
  {
    var sub, mid, stage := Label(ai.sub), Label(ai.mid), PlOrder(ai);
    match MapRow(pl, ai.id)
    case None => PlLine(ai, sub, mid, stage, 0, 0, 0)
    case Some(r) => PlLine(ai, sub, mid, stage, r.debit, r.credit, r.closing)
  }

  /** The lines of the accounts, one per account, in their order. */
  function Lines(accounts: seq<AccountItem>, pl: seq<TbRow>): (r: seq<PlLine>)
    ensures |r| == |accounts|
    ensures forall i :: 0 <= i < |r| ==> r[i] == LineOf(pl, accounts[i])
  {
    if accounts == [] then [] else Lines(accounts[..|accounts| - 1], pl) + [LineOf(pl, accounts[|accounts| - 1])]
  }

  // ---------------------------------------------------------------------------
  // Building pl_tree

  /** A line joins a small category: the totals grow by its figures and the
      priority becomes the better of the two stages. */
  function Grow(g: PlGroup, l: PlLine): PlGroup
  {
    var ord := l.stage;
    g.(totalDebit := g.totalDebit + l.debit, totalCredit := g.totalCredit + l.credit,
       totalClosing := g.totalClosing + l.closing, lines := g.lines + [l],
       priority := if ord < g.priority then ord else g.priority)
  }

  /** One pass of the loop: the line goes under its small category
      (`sub_category or "その他"`, stripped), which is appended the first
      time it is seen. */
  function PlacePl(tree: seq<PlGroup>, l: PlLine): seq<PlGroup>
  {
    var sub := l.sub;
    match FindLabel(tree, GroupLabel, sub)
    case None => tree + [PlGroup(sub, l.debit, l.credit, l.closing, [l], l.stage)]
    case Some(k) => tree[k := Grow(tree[k], l)]
  }

  function PlTreeOfLines(lines: seq<PlLine>): seq<PlGroup>
  {
    if lines == [] then [] else PlacePl(PlTreeOfLines(lines[..|lines| - 1]), lines[|lines| - 1])
  }

  /** pl_tree before it is reordered. */
  function PlTreeOf(accounts: seq<AccountItem>, pl: seq<TbRow>): seq<PlGroup>
  {
    PlTreeOfLines(Lines(accounts, pl))
  }

  method AddLine(tree: seq<PlGroup>, l: PlLine) returns (tree': seq<PlGroup>)
    ensures tree' == PlacePl(tree, l)
  {
    var sub := l.sub;
    var k := FindLabel(tree, GroupLabel, sub);
    match k
    case None =>
      tree' := tree + [PlGroup(sub, l.debit, l.credit, l.closing, [l], l.stage)];
    case Some(i) =>
      var g := tree[i];
      var ord := l.stage;
      var priority := g.priority;
      if ord < priority {
        priority := ord;
      }
      tree' := tree[i := g.(totalDebit := g.totalDebit + l.debit, totalCredit := g.totalCredit + l.credit,
                            totalClosing := g.totalClosing + l.closing, lines := g.lines + [l],
                            priority := priority)];
  }

  lemma PlTreeOfSnoc(done: seq<AccountItem>, ai: AccountItem, pl: seq<TbRow>)
    ensures PlTreeOf(done + [ai], pl) == PlacePl(PlTreeOf(done, pl), LineOf(pl, ai))
  {
    SnocFront(done, ai);
    assert Lines(done + [ai], pl) == Lines(done, pl) + [LineOf(pl, ai)];
    SnocFront(Lines(done, pl), LineOf(pl, ai));
  }

  /** One pass of the loop: the account's figures are looked up and filed
      under its small category. */
  method AddAccount(tree: seq<PlGroup>, ghost done: seq<AccountItem>, ai: AccountItem, pl: seq<TbRow>,
                    ghost next: seq<AccountItem>)
    returns (tree': seq<PlGroup>)
    requires next == done + [ai]
    requires tree == PlTreeOf(done, pl)
    ensures tree' == PlTreeOf(next, pl)
  {
    var line := LineOf(pl, ai);
    PlTreeOfSnoc(done, ai, pl);
    tree' := AddLine(tree, line);
  }

  /** The loop over the P/L accounts of the organisation. */
  method BuildPlTree(items: seq<AccountItem>, org: Option<int>, pl: seq<TbRow>) returns (tree: seq<PlGroup>)
    ensures tree == PlTreeOf(PlAccounts(items, org), pl)
  {
    var accounts := PlAccounts(items, org);
    tree := [];
    var i := 0;
    while i < |accounts|
      invariant 0 <= i <= |accounts|
      invariant tree == PlTreeOf(accounts[..i], pl)
    {
      TakeSnoc(accounts, i);
      tree := AddAccount(tree, accounts[..i], accounts[i], pl, accounts[..i + 1]);
      i := i + 1;
    }
    assert accounts[..i] == accounts;
  }

  // ---------------------------------------------------------------------------
  // What pl_tree holds

  /** The best stage among some lines. */
  function MinOrder(lines: seq<PlLine>): (r: int)
    requires lines != []
    ensures forall l :: l in lines ==> r <= l.stage
    ensures exists l :: l in lines && r == l.stage
  {
    if |lines| == 1 then lines[0].stage else
      var rest := MinOrder(lines[..|lines| - 1]);
      var last := lines[|lines| - 1].stage;
      assert lines == lines[..|lines| - 1] + [lines[|lines| - 1]];
      if last < rest then last else rest
  }

  /** A small category holds at least one account, each total is the sum
      of that figure over its accounts, its priority is the best stage of
      its accounts, and every account in it has that small category. */
  ghost predicate GroupSound(g: PlGroup)
  {
    && g.lines != []
    && g.totalDebit == Sum(g.lines, LineDebit)
    && g.totalCredit == Sum(g.lines, LineCredit)
    && g.totalClosing == Sum(g.lines, LineClosing)
    && g.priority == MinOrder(g.lines)
    && forall l :: l in g.lines ==> l.sub == g.name
  }

  ghost predicate TreeSound(tree: seq<PlGroup>)
  {
    && (forall g :: g in tree ==> GroupSound(g))
    && (forall i, j :: 0 <= i < j < |tree| ==> tree[i].name != tree[j].name)
  }

  lemma GrowSound(g: PlGroup, l: PlLine)
    requires GroupSound(g) && l.sub == g.name
    ensures GroupSound(Grow(g, l))
  {
    var h := Grow(g, l);
    assert h.lines[..|h.lines| - 1] == g.lines;
    SumSnoc(g.lines, l, LineDebit);
    SumSnoc(g.lines, l, LineCredit);
    SumSnoc(g.lines, l, LineClosing);
  }

  lemma PlacePlSound(tree: seq<PlGroup>, l: PlLine)
    requires TreeSound(tree)
    ensures TreeSound(PlacePl(tree, l))
  {
    var sub := l.sub;
    var t := PlacePl(tree, l);
    match FindLabel(tree, GroupLabel, sub)
    case None =>
      var g := PlGroup(sub, l.debit, l.credit, l.closing, [l], l.stage);
      assert t == tree + [g];
      assert [] + [l] == [l];
      SumSnoc([], l, LineDebit);
      SumSnoc([], l, LineCredit);
      SumSnoc([], l, LineClosing);
      assert GroupSound(g);
      forall i, j | 0 <= i < j < |t| ensures t[i].name != t[j].name {
        if j == |tree| {
          assert GroupLabel(tree[i]) != sub;
        } else {
          assert t[i] == tree[i] && t[j] == tree[j];
        }
      }
    case Some(k) =>
      assert tree[k] in tree;
      GrowSound(tree[k], l);
      assert t == tree[k := Grow(tree[k], l)];
      forall g | g in t ensures GroupSound(g) {
        var q :| 0 <= q < |t| && t[q] == g;
        if q != k {
          assert tree[q] in tree;
        }
      }
  }

  /** Every small category of pl_tree is sound and appears once. */
  lemma {:induction false} PlTreeSound(lines: seq<PlLine>)
    ensures TreeSound(PlTreeOfLines(lines))
  {
    if lines != [] {
      PlTreeSound(lines[..|lines| - 1]);
      PlacePlSound(PlTreeOfLines(lines[..|lines| - 1]), lines[|lines| - 1]);
    }
  }

  /** A small category's total closing balance weighted by a factor chosen
      by its name. */
  function GroupWeighted(w: string -> int): PlGroup -> int
  {
    (g: PlGroup) => w(g.name) * g.totalClosing
  }

  /** An account's closing balance weighted by the factor of its small
      category. */
  function LineWeighted(w: string -> int): PlLine -> int
  {
    (l: PlLine) => w(l.sub) * l.closing
  }

  lemma PlacePlWeighted(tree: seq<PlGroup>, l: PlLine, w: string -> int)
    ensures Sum(PlacePl(tree, l), GroupWeighted(w)) == Sum(tree, GroupWeighted(w)) + LineWeighted(w)(l)
  {
    var sub := l.sub;
    match FindLabel(tree, GroupLabel, sub)
    case None =>
      SumSnoc(tree, PlGroup(sub, l.debit, l.credit, l.closing, [l], l.stage), GroupWeighted(w));
    case Some(k) =>
      SumUpdate(tree, k, Grow(tree[k], l), GroupWeighted(w));
      assert w(sub) * (tree[k].totalClosing + l.closing) == w(sub) * tree[k].totalClosing + w(sub) * l.closing;
  }

  /** Regrouping the accounts by small category loses nothing: any sum of
      closing balances weighted by small category is the same over the
      categories of pl_tree as over the accounts. */
  lemma {:induction false} PlTreeWeighted(lines: seq<PlLine>, w: string -> int)
    ensures Sum(PlTreeOfLines(lines), GroupWeighted(w)) == Sum(lines, LineWeighted(w))
  {
    if lines != [] {
      var n := |lines| - 1;
      PlTreeWeighted(lines[..n], w);
      PlacePlWeighted(PlTreeOfLines(lines[..n]), lines[n], w);
    }
  }

  // ---------------------------------------------------------------------------
  // The order of pl_tree

  /** The key of a small category: its priority, then its name. */
  function GroupKey(g: PlGroup): (k: seq<KeyPart>)
    ensures |k| == 2
  {
    [Num(g.priority), Str(g.name)]
  }

  /** `sorted(pl_tree.keys(), key=lambda s: (sub_priority[s], s))`. */
  function OrderedPlTree(tree: seq<PlGroup>): seq<PlGroup>
  {
    SortBy(tree, GroupKey)
  }

  lemma GroupKeyLess(a: PlGroup, b: PlGroup)
    ensures KeyLess(GroupKey(a), GroupKey(b)) <==>
      a.priority < b.priority || (a.priority == b.priority && StrLess(a.name, b.name))
  {
    var ka, kb := GroupKey(a), GroupKey(b);
    assert ka[1..] == [Str(a.name)] && kb[1..] == [Str(b.name)];
    assert ka[1..][1..] == [] && kb[1..][1..] == [];
    assert !KeyLess([], []);
    assert KeyLess(ka[1..], kb[1..]) <==> StrLess(a.name, b.name);
    assert KeyLess(ka, kb) <==> PartLess(ka[0], kb[0]) || (ka[0] == kb[0] && KeyLess(ka[1..], kb[1..]));
  }

  lemma NamesNoRepeat(tree: seq<PlGroup>)
    requires forall i, j :: 0 <= i < j < |tree| ==> tree[i].name != tree[j].name
    ensures forall g :: multiset(tree)[g] <= 1
  {
    if tree != [] {
      var n := |tree| - 1;
      NamesNoRepeat(tree[..n]);
      assert tree == tree[..n] + [tree[n]];
      assert tree[n] !in tree[..n];
    }
  }

  lemma TwoPositions<T>(s: seq<T>, i: nat, j: nat)
    requires i < j < |s|
    ensures s[i] == s[j] ==> multiset(s)[s[i]] >= 2
  {
    assert s == s[..j] + [s[j]] + s[j + 1..];
    assert s[i] in s[..j];
  }

  /** Sorting keeps the names distinct. */
  lemma SortedNamesDistinct(tree: seq<PlGroup>)
    requires forall i, j :: 0 <= i < j < |tree| ==> tree[i].name != tree[j].name
    ensures var s := OrderedPlTree(tree);
      forall i, j :: 0 <= i < j < |s| ==> s[i].name != s[j].name
  {
    var s := OrderedPlTree(tree);
    NamesNoRepeat(tree);
    forall i, j | 0 <= i < j < |s| ensures s[i].name != s[j].name {
      TwoPositions(s, i, j);
      assert s[i] != s[j];
      assert s[i] in multiset(tree) && s[j] in multiset(tree);
      var p :| 0 <= p < |tree| && tree[p] == s[i];
      var q :| 0 <= q < |tree| && tree[q] == s[j];
      assert p != q;
    }
  }

  /** The ordered tree has no ties: priorities never decrease, and under
      equal priority the names increase strictly. */
  lemma PlTreeOrderStrict(tree: seq<PlGroup>)
    requires forall i, j :: 0 <= i < j < |tree| ==> tree[i].name != tree[j].name
    ensures var s := OrderedPlTree(tree);
      forall i, j :: 0 <= i < j < |s| ==>
        s[i].priority < s[j].priority || (s[i].priority == s[j].priority && StrLess(s[i].name, s[j].name))
  {
    var s := OrderedPlTree(tree);
    SortedNamesDistinct(tree);
    forall i, j | 0 <= i < j < |s|
      ensures s[i].priority < s[j].priority || (s[i].priority == s[j].priority && StrLess(s[i].name, s[j].name))
    {
      assert !KeyLess(GroupKey(s[j]), GroupKey(s[i]));
      KeyOrderIsStrictTotal(GroupKey(s[i]), GroupKey(s[j]), GroupKey(s[i]));
      assert GroupKey(s[i])[1] != GroupKey(s[j])[1];
      GroupKeyLess(s[i], s[j]);
    }
  }

  /** The order of the accounts in the table does not affect the order of
      the small categories: two arrangements of the same categories sort
      alike. */
  lemma PlTreeOrderDeterministic(a: seq<PlGroup>, b: seq<PlGroup>)
    requires multiset(a) == multiset(b)
    requires forall i, j :: 0 <= i < j < |a| ==> a[i].name != a[j].name
    ensures OrderedPlTree(a) == OrderedPlTree(b)
  {
    forall x, y | x in a && y in a && GroupKey(x) == GroupKey(y) ensures x == y {
      assert GroupKey(x)[1] == GroupKey(y)[1];
      var p :| 0 <= p < |a| && a[p] == x;
      var q :| 0 <= q < |a| && a[q] == y;
      assert p == q || a[p].name != a[q].name;
    }
    SortIgnoresInputOrder(a, b, GroupKey);
  }

  // ---------------------------------------------------------------------------
  // pl_mid_tree

  /** A middle category with the small categories under it, in order. */
  datatype MidBucket = MidBucket(name: string, groups: seq<PlGroup>)

  function BucketLabel(m: MidBucket): string { m.name }

  /** The middle category of a small category: that of its first account
      (`mid_category or "その他"`, stripped), "その他" when it has none. */
  function FirstMid(g: PlGroup): string
  {
    if g.lines == [] then "その他" else g.lines[0].mid
  }

  function PlaceMidBucket(mids: seq<MidBucket>, g: PlGroup): seq<MidBucket>
  {
    var mid := FirstMid(g);
    match FindLabel(mids, BucketLabel, mid)
    case None => mids + [MidBucket(mid, [g])]
    case Some(k) => mids[k := mids[k].(groups := mids[k].groups + [g])]
  }

  function PlMidOf(tree: seq<PlGroup>): seq<MidBucket>
  {
    if tree == [] then [] else PlaceMidBucket(PlMidOf(tree[..|tree| - 1]), tree[|tree| - 1])
  }

  method AddToMid(mids: seq<MidBucket>, g: PlGroup) returns (mids': seq<MidBucket>)
    ensures mids' == PlaceMidBucket(mids, g)
  {
    var mid := "その他";
    if g.lines != [] {
      mid := g.lines[0].mid;
    }
    var k := FindLabel(mids, BucketLabel, mid);
    match k
    case None =>
      mids' := mids + [MidBucket(mid, [g])];
    case Some(i) =>
      mids' := mids[i := mids[i].(groups := mids[i].groups + [g])];
  }

  /** The loop over the ordered pl_tree. */
  method BuildPlMidTree(tree: seq<PlGroup>) returns (mids: seq<MidBucket>)
    ensures mids == PlMidOf(tree)
  {
    mids := [];
    var i := 0;
    while i < |tree|
      invariant 0 <= i <= |tree|
      invariant mids == PlMidOf(tree[..i])
    {
      assert tree[..i + 1][..i] == tree[..i];
      mids := AddToMid(mids, tree[i]);
      i := i + 1;
    }
    assert tree[..i] == tree;
  }

  /** Each middle category appears once. */
  ghost predicate MidNamesDistinct(mids: seq<MidBucket>)
  {
    forall i, j :: 0 <= i < j < |mids| ==> mids[i].name != mids[j].name
  }

  /** A middle category holds only small categories of the tree whose first
      account has that middle category. */
  ghost predicate MidsHoldOnlyTree(tree: seq<PlGroup>, mids: seq<MidBucket>)
  {
    forall m, g :: m in mids && g in m.groups ==> g in tree && FirstMid(g) == m.name
  }

  /** Every small category of the tree is under its middle category. */
  ghost predicate MidsCoverTree(tree: seq<PlGroup>, mids: seq<MidBucket>)
  {
    forall g :: g in tree ==> exists m :: m in mids && m.name == FirstMid(g) && g in m.groups
  }

  /** Whether a small category's first account has middle category name. */
  function MidIs(name: string): PlGroup -> bool
  {
    (g: PlGroup) => FirstMid(g) == name
  }

  /** A middle category holds its small categories in the order of the tree,
      each once. */
  ghost predicate MidsInTreeOrder(tree: seq<PlGroup>, mids: seq<MidBucket>)
  {
    forall i :: 0 <= i < |mids| ==> mids[i].groups == Filter(tree, MidIs(mids[i].name))
  }

  /** Each middle category appears once and holds exactly the small
      categories whose first account has that middle category, in the order
      of the tree. */
  ghost predicate MidsSound(tree: seq<PlGroup>, mids: seq<MidBucket>)
  {
    && MidNamesDistinct(mids) && MidsHoldOnlyTree(tree, mids) && MidsCoverTree(tree, mids)
    && MidsInTreeOrder(tree, mids)
  }

  lemma PlaceMidNames(mids: seq<MidBucket>, g: PlGroup)
    requires MidNamesDistinct(mids)
    ensures MidNamesDistinct(PlaceMidBucket(mids, g))
  {
    var mid := FirstMid(g);
    var r := PlaceMidBucket(mids, g);
    if FindLabel(mids, BucketLabel, mid).None? {
      forall i, j | 0 <= i < j < |r| ensures r[i].name != r[j].name {
        if j == |mids| {
          assert BucketLabel(mids[i]) != mid;
        } else {
          assert r[i] == mids[i] && r[j] == mids[j];
        }
      }
    }
  }

  lemma PlaceMidOnly(tree: seq<PlGroup>, mids: seq<MidBucket>, g: PlGroup)
    requires MidsHoldOnlyTree(tree, mids)
    ensures MidsHoldOnlyTree(tree + [g], PlaceMidBucket(mids, g))
  {
    var t := tree + [g];
    var r := PlaceMidBucket(mids, g);
    match FindLabel(mids, BucketLabel, FirstMid(g))
    case None =>
      forall m, h | m in r && h in m.groups ensures h in t && FirstMid(h) == m.name {
        var q :| 0 <= q < |r| && r[q] == m;
        if q < |mids| {
          assert mids[q] in mids;
        }
      }
    case Some(k) =>
      forall m, h | m in r && h in m.groups ensures h in t && FirstMid(h) == m.name {
        var q :| 0 <= q < |r| && r[q] == m;
        if q != k {
          assert mids[q] in mids;
        } else if h != g {
          assert mids[k] in mids;
        }
      }
  }

  lemma PlaceMidCover(tree: seq<PlGroup>, mids: seq<MidBucket>, g: PlGroup)
    requires MidsCoverTree(tree, mids)
    ensures MidsCoverTree(tree + [g], PlaceMidBucket(mids, g))
  {
    var t := tree + [g];
    var r := PlaceMidBucket(mids, g);
    match FindLabel(mids, BucketLabel, FirstMid(g))
    case None =>
      forall h | h in t ensures exists m :: m in r && m.name == FirstMid(h) && h in m.groups {
        if h != g {
          assert h in tree;
          var m :| m in mids && m.name == FirstMid(h) && h in m.groups;
          assert m in r;
        } else {
          assert r[|mids|] in r;
        }
      }
    case Some(k) =>
      forall h | h in t ensures exists m :: m in r && m.name == FirstMid(h) && h in m.groups {
        if h != g {
          assert h in tree;
          var m :| m in mids && m.name == FirstMid(h) && h in m.groups;
          var q :| 0 <= q < |mids| && mids[q] == m;
          if q == k {
            assert r[k] in r && h in r[k].groups;
          } else {
            assert r[q] in r;
          }
        } else {
          assert r[k] in r;
        }
      }
  }

  /** Filing g leaves the small categories of every other middle category
      as they were. */
  lemma FilterOtherMid(tree: seq<PlGroup>, g: PlGroup, name: string)
    requires name != FirstMid(g)
    ensures Filter(tree + [g], MidIs(name)) == Filter(tree, MidIs(name))
  {
    FilterSnoc(tree, g, MidIs(name));
  }

  /** A middle category not yet in the tree has no small category in it. */
  lemma NoMidYet(tree: seq<PlGroup>, mids: seq<MidBucket>, mid: string)
    requires MidsCoverTree(tree, mids)
    requires forall i :: 0 <= i < |mids| ==> BucketLabel(mids[i]) != mid
    ensures Filter(tree, MidIs(mid)) == []
  {
    forall j | 0 <= j < |tree| ensures !MidIs(mid)(tree[j]) {
      assert tree[j] in tree;
      var m :| m in mids && m.name == FirstMid(tree[j]) && tree[j] in m.groups;
      var q :| 0 <= q < |mids| && mids[q] == m;
      assert BucketLabel(mids[q]) != mid;
    }
    FilterNone(tree, MidIs(mid));
  }

  lemma PlaceMidOrder(tree: seq<PlGroup>, mids: seq<MidBucket>, g: PlGroup)
    requires MidNamesDistinct(mids) && MidsCoverTree(tree, mids) && MidsInTreeOrder(tree, mids)
    ensures MidsInTreeOrder(tree + [g], PlaceMidBucket(mids, g))
  {
    var mid := FirstMid(g);
    var r := PlaceMidBucket(mids, g);
    FilterSnoc(tree, g, MidIs(mid));
    match FindLabel(mids, BucketLabel, mid)
    case None =>
      NoMidYet(tree, mids, mid);
      forall i | 0 <= i < |r| ensures r[i].groups == Filter(tree + [g], MidIs(r[i].name)) {
        if i < |mids| {
          assert BucketLabel(mids[i]) != mid;
          FilterOtherMid(tree, g, mids[i].name);
        }
      }
    case Some(k) =>
      forall i | 0 <= i < |r| ensures r[i].groups == Filter(tree + [g], MidIs(r[i].name)) {
        if i != k {
          assert i < k || k < i;
          assert mids[i].name != mids[k].name;
          FilterOtherMid(tree, g, mids[i].name);
        }
      }
  }

  lemma PlaceMidBucketSound(tree: seq<PlGroup>, mids: seq<MidBucket>, g: PlGroup)
    requires MidsSound(tree, mids)
    ensures MidsSound(tree + [g], PlaceMidBucket(mids, g))
  {
    PlaceMidNames(mids, g);
    PlaceMidOnly(tree, mids, g);
    PlaceMidCover(tree, mids, g);
    PlaceMidOrder(tree, mids, g);
  }

  /** pl_mid_tree files every small category under its middle category
      once, and holds nothing else. */
  lemma {:induction false} PlMidTreeSound(tree: seq<PlGroup>)
    ensures MidsSound(tree, PlMidOf(tree))
  {
    if tree != [] {
      var n := |tree| - 1;
      PlMidTreeSound(tree[..n]);
      PlaceMidBucketSound(tree[..n], PlMidOf(tree[..n]), tree[n]);
      DropLast(tree);
    }
  }

  // ---------------------------------------------------------------------------
  // pl_subtotals

  const CostOfSalesNames: set<string> := {"期首商品棚卸", "当期商品仕入", "他勘定振替高(商)", "期末商品棚卸", "売上原価"}
  const SgaNames: set<string> := {"販売費", "一般管理費", "販売管理費", "販管費", "販売費及び一般管理費"}
  const TaxNames: set<string> := {"法人税等", "法人税等調整額"}

  /** The closing total of a small category when its name is one of names. */
  function Contribution(names: set<string>): PlGroup -> int
  {
    (g: PlGroup) => if g.name in names then g.totalClosing else 0
  }

  /** `sum(info['total_closing'] for name, info in pl_tree.items() if name in names)`. */
  function ClosingWhere(tree: seq<PlGroup>, names: set<string>): int
  {
    Sum(tree, Contribution(names))
  }

  datatype PlSubtotals = PlSubtotals(
    sales: int, costOfSales: int, grossProfit: int, sga: int, operatingProfit: int,
    nonOperatingIncome: int, nonOperatingExpense: int, ordinaryProfit: int,
    specialIncome: int, specialLoss: int, pretaxProfit: int, tax: int, netProfit: int)

  function PlSubtotalsOf(tree: seq<PlGroup>): PlSubtotals
  {
    var sales := ClosingWhere(tree, {"売上高"});
    var cogs := ClosingWhere(tree, CostOfSalesNames);
    var gross := sales - cogs;
    var sga := ClosingWhere(tree, SgaNames);
    var operating := gross - sga;
    var noi := ClosingWhere(tree, {"営業外収益"});
    var noe := ClosingWhere(tree, {"営業外費用"});
    var ordinary := operating + noi - noe;
    var si := ClosingWhere(tree, {"特別利益"});
    var sl := ClosingWhere(tree, {"特別損失"});
    var pretax := ordinary + si - sl;
    var tax := ClosingWhere(tree, TaxNames);
    PlSubtotals(sales, cogs, gross, sga, operating, noi, noe, ordinary, si, sl, pretax, tax, pretax - tax)
  }

  /** What a small category does to net profit: income categories add,
      expense categories subtract, every other category is left out. */
  function SubSign(name: string): int
  {
    if name in {"売上高", "営業外収益", "特別利益"} then 1
    else if name in CostOfSalesNames || name in SgaNames || name in TaxNames || name in {"営業外費用", "特別損失"} then -1
    else 0
  }

  lemma ContributionsOfOne(g: PlGroup)
    ensures SubSign(g.name) * g.totalClosing ==
      Contribution({"売上高"})(g) - Contribution(CostOfSalesNames)(g) - Contribution(SgaNames)(g)
      + Contribution({"営業外収益"})(g) - Contribution({"営業外費用"})(g)
      + Contribution({"特別利益"})(g) - Contribution({"特別損失"})(g) - Contribution(TaxNames)(g)
  {
  }

  /** Net profit of the cascade is the signed sum of the closing totals of
      the small categories. */
  lemma {:induction false} SubtotalNetIsSignedSum(tree: seq<PlGroup>)
    ensures PlSubtotalsOf(tree).netProfit == Sum(tree, GroupWeighted(SubSign))
  {
    if tree != [] {
      var n := |tree| - 1;
      SubtotalNetIsSignedSum(tree[..n]);
      ContributionsOfOne(tree[n]);
    }
  }

  /** The cascade does not depend on the order of the small categories. */
  lemma SubtotalsIgnoreOrder(a: seq<PlGroup>, b: seq<PlGroup>)
    requires multiset(a) == multiset(b)
    ensures PlSubtotalsOf(a) == PlSubtotalsOf(b)
  {
    SumPermutation(a, b, Contribution({"売上高"}));
    SumPermutation(a, b, Contribution(CostOfSalesNames));
    SumPermutation(a, b, Contribution(SgaNames));
    SumPermutation(a, b, Contribution({"営業外収益"}));
    SumPermutation(a, b, Contribution({"営業外費用"}));
    SumPermutation(a, b, Contribution({"特別利益"}));
    SumPermutation(a, b, Contribution({"特別損失"}));
    SumPermutation(a, b, Contribution(TaxNames));
  }

  /** End to end: the net profit shown by pl_subtotals is the signed sum of
      the closing balances of the organisation's P/L accounts, each signed
      by its small category. */
  lemma PlNetFromAccounts(accounts: seq<AccountItem>, pl: seq<TbRow>)
    ensures PlSubtotalsOf(OrderedPlTree(PlTreeOf(accounts, pl))).netProfit
         == Sum(Lines(accounts, pl), LineWeighted(SubSign))
  {
    var tree := PlTreeOf(accounts, pl);
    SubtotalsIgnoreOrder(OrderedPlTree(tree), tree);
    SubtotalNetIsSignedSum(tree);
    PlTreeWeighted(Lines(accounts, pl), SubSign);
  }
}
