/** The balance-sheet tree of the trial balance page: rows grouped by major,
    middle and small category in order of first appearance, the fixed order
    of the major categories, and the small- and middle-category subtotals. */
module BsTree {
  import opened Common
  import opened Text
  import opened Catalog
  import opened TrialBalance

  /** A category label of the tree: an empty category is その他, and the
      text is stripped. */
  function Label(c: string): string
  {
    Strip(if c == "" then "その他" else c)
  }

  /** The (major, middle, small) labels a row is filed under. */
  function Path(row: TbRow): (string, string, string)
  {
    (Label(row.item.major), Label(row.item.mid), Label(row.item.sub))
  }

  datatype SubGroup = SubGroup(name: string, rows: seq<TbRow>)
  datatype MidGroup = MidGroup(name: string, subs: seq<SubGroup>)
  datatype MajorGroup = MajorGroup(name: string, mids: seq<MidGroup>)

  function SubLabel(g: SubGroup): string { g.name }
  function MidLabel(g: MidGroup): string { g.name }
  function MajorLabel(g: MajorGroup): string { g.name }

  /** Where an ordered dict keeps key x: the first entry with that label. */
  function FindLabel<T>(s: seq<T>, nameOf: T -> string, x: string): (r: Option<nat>)
    ensures r.Some? ==> r.value < |s| && nameOf(s[r.value]) == x
    ensures r.Some? ==> forall i :: 0 <= i < r.value ==> nameOf(s[i]) != x
    ensures r.None? ==> forall i :: 0 <= i < |s| ==> nameOf(s[i]) != x
  {
    if s == [] then None
    else if nameOf(s[0]) == x then Some(0)
    else match FindLabel(s[1..], nameOf, x)
      case None => None
      case Some(k) => Some(k + 1)
  }

  lemma FindIs<T>(s: seq<T>, nameOf: T -> string, x: string, r: Option<nat>)
    requires r.Some? ==> r.value < |s| && nameOf(s[r.value]) == x
    requires r.Some? ==> forall i :: 0 <= i < r.value ==> nameOf(s[i]) != x
    requires r.None? ==> forall i :: 0 <= i < |s| ==> nameOf(s[i]) != x
    ensures FindLabel(s, nameOf, x) == r
  {
  }

  lemma FindSnoc<T>(s: seq<T>, g: T, nameOf: T -> string, x: string)
    ensures FindLabel(s + [g], nameOf, x) ==
      if FindLabel(s, nameOf, x).Some? then FindLabel(s, nameOf, x)
      else if nameOf(g) == x then Some(|s|) else None
  {
    var r := if FindLabel(s, nameOf, x).Some? then FindLabel(s, nameOf, x)
             else if nameOf(g) == x then Some(|s|) else None;
    FindIs(s + [g], nameOf, x, r);
  }

  lemma FindUpdate<T>(s: seq<T>, k: nat, g: T, nameOf: T -> string, x: string)
    requires k < |s| && nameOf(g) == nameOf(s[k])
    ensures FindLabel(s[k := g], nameOf, x) == FindLabel(s, nameOf, x)
  {
    FindIs(s[k := g], nameOf, x, FindLabel(s, nameOf, x));
  }

  // ---------------------------------------------------------------------------
  // Building the tree

  /** `if sub not in d: d[sub] = []` then `d[sub].append(row)`. */
  function PlaceSub(subs: seq<SubGroup>, s: string, row: TbRow): seq<SubGroup>
  {
    var found := FindLabel(subs, SubLabel, s);
    var k := if found.Some? then found.value else |subs|;
    var subs' := if found.Some? then subs else subs + [SubGroup(s, [])];
    subs'[k := subs'[k].(rows := subs'[k].rows + [row])]
  }

  /** `if mid not in d: d[mid] = OrderedDict()`, then the row goes into it. */
  function PlaceMid(mids: seq<MidGroup>, m: string, s: string, row: TbRow): seq<MidGroup>
  {
    var found := FindLabel(mids, MidLabel, m);
    var k := if found.Some? then found.value else |mids|;
    var mids' := if found.Some? then mids else mids + [MidGroup(m, [])];
    mids'[k := mids'[k].(subs := PlaceSub(mids'[k].subs, s, row))]
  }

  /** One step of build_bs_tree: the row is appended under its path, the
      missing levels being created first. */
  function Place(t: seq<MajorGroup>, row: TbRow): seq<MajorGroup>
  {
    var (major, mid, sub) := Path(row);
    var found := FindLabel(t, MajorLabel, major);
    var k := if found.Some? then found.value else |t|;
    var t' := if found.Some? then t else t + [MajorGroup(major, [])];
    t'[k := t'[k].(mids := PlaceMid(t'[k].mids, mid, sub, row))]
  }

  /** The tree of build_bs_tree before its major categories are reordered. */
  function TreeOf(rows: seq<TbRow>): seq<MajorGroup>
  {
    if rows == [] then [] else Place(TreeOf(rows[..|rows| - 1]), rows[|rows| - 1])
  }

  method AddToSubs(subs: seq<SubGroup>, s: string, row: TbRow) returns (r: seq<SubGroup>)
    ensures r == PlaceSub(subs, s, row)
  {
    r := subs;
    var found := FindLabel(r, SubLabel, s);
    if found.None? {
      r := r + [SubGroup(s, [])];
      found := Some(|r| - 1);
    }
    var k := found.value;
    r := r[k := r[k].(rows := r[k].rows + [row])];
  }

  method AddToMids(mids: seq<MidGroup>, m: string, s: string, row: TbRow) returns (r: seq<MidGroup>)
    ensures r == PlaceMid(mids, m, s, row)
  {
    r := mids;
    var found := FindLabel(r, MidLabel, m);
    if found.None? {
      r := r + [MidGroup(m, [])];
      found := Some(|r| - 1);
    }
    var k := found.value;
    var subs := AddToSubs(r[k].subs, s, row);
    r := r[k := r[k].(subs := subs)];
  }

  method AddToTree(t: seq<MajorGroup>, row: TbRow) returns (r: seq<MajorGroup>)
    ensures r == Place(t, row)
  {
    var (major, mid, sub) := Path(row);
    r := t;
    var found := FindLabel(r, MajorLabel, major);
    if found.None? {
      r := r + [MajorGroup(major, [])];
      found := Some(|r| - 1);
    }
    var k := found.value;
    var mids := AddToMids(r[k].mids, mid, sub, row);
    r := r[k := r[k].(mids := mids)];
  }

  /** build_bs_tree's loop over the rows. */
  method BuildTree(rows: seq<TbRow>) returns (t: seq<MajorGroup>)
    ensures t == TreeOf(rows)
  {
    t := [];
    var i := 0;
    while i < |rows|
      invariant 0 <= i <= |rows|
      invariant t == TreeOf(rows[..i])
    {
      TakeSnoc(rows, i);
      t := AddToTree(t, rows[i]);
      i := i + 1;
    }
    assert rows[..i] == rows;
  }

  // ---------------------------------------------------------------------------
  // What the tree holds

  function SubRows(subs: seq<SubGroup>, s: string): seq<TbRow>
  {
    match FindLabel(subs, SubLabel, s) case None => [] case Some(k) => subs[k].rows
  }

  function MidRows(mids: seq<MidGroup>, m: string, s: string): seq<TbRow>
  {
    match FindLabel(mids, MidLabel, m) case None => [] case Some(k) => SubRows(mids[k].subs, s)
  }

  /** The rows the tree lists under a path; none when the path is absent. */
  function RowsUnder(t: seq<MajorGroup>, major: string, mid: string, sub: string): seq<TbRow>
  {
    match FindLabel(t, MajorLabel, major) case None => [] case Some(k) => MidRows(t[k].mids, mid, sub)
  }

  /** The input rows filed under a path, in input order. */
  function RowsAt(rows: seq<TbRow>, p: (string, string, string)): (r: seq<TbRow>)
    ensures forall x :: x in r ==> x in rows && Path(x) == p
  {
    if rows == [] then [] else
      var rest := RowsAt(rows[..|rows| - 1], p);
      var x := rows[|rows| - 1];
      if Path(x) == p then rest + [x] else rest
  }

  lemma PlaceSubRows(subs: seq<SubGroup>, s0: string, row: TbRow, s: string)
    ensures SubRows(PlaceSub(subs, s0, row), s) == SubRows(subs, s) + (if s == s0 then [row] else [])
  {
    var found := FindLabel(subs, SubLabel, s0);
    var k := if found.Some? then found.value else |subs|;
    var subs' := if found.Some? then subs else subs + [SubGroup(s0, [])];
    if found.None? {
      FindSnoc(subs, SubGroup(s0, []), SubLabel, s);
    }
    FindUpdate(subs', k, subs'[k].(rows := subs'[k].rows + [row]), SubLabel, s);
  }

  lemma PlaceMidRows(mids: seq<MidGroup>, m0: string, s0: string, row: TbRow, m: string, s: string)
    ensures MidRows(PlaceMid(mids, m0, s0, row), m, s) == MidRows(mids, m, s) + (if (m, s) == (m0, s0) then [row] else [])
  {
    var found := FindLabel(mids, MidLabel, m0);
    var k := if found.Some? then found.value else |mids|;
    var mids' := if found.Some? then mids else mids + [MidGroup(m0, [])];
    if found.None? {
      FindSnoc(mids, MidGroup(m0, []), MidLabel, m);
    }
    FindUpdate(mids', k, mids'[k].(subs := PlaceSub(mids'[k].subs, s0, row)), MidLabel, m);
    if m == m0 {
      PlaceSubRows(mids'[k].subs, s0, row, s);
    }
  }

  lemma PlaceRows(t: seq<MajorGroup>, row: TbRow, major: string, mid: string, sub: string)
    ensures RowsUnder(Place(t, row), major, mid, sub) ==
      RowsUnder(t, major, mid, sub) + (if Path(row) == (major, mid, sub) then [row] else [])
  {
    var (m0, d0, s0) := Path(row);
    var found := FindLabel(t, MajorLabel, m0);
    var k := if found.Some? then found.value else |t|;
    var t' := if found.Some? then t else t + [MajorGroup(m0, [])];
    if found.None? {
      FindSnoc(t, MajorGroup(m0, []), MajorLabel, major);
    }
    FindUpdate(t', k, t'[k].(mids := PlaceMid(t'[k].mids, d0, s0, row)), MajorLabel, major);
    if major == m0 {
      PlaceMidRows(t'[k].mids, d0, s0, row, mid, sub);
    }
  }

  /** Under every path the tree lists exactly the rows filed under it, in
      their original order. */
  lemma {:induction false} TreeRows(rows: seq<TbRow>, major: string, mid: string, sub: string)
    ensures RowsUnder(TreeOf(rows), major, mid, sub) == RowsAt(rows, (major, mid, sub))
  {
    if rows != [] {
      TreeRows(rows[..|rows| - 1], major, mid, sub);
      PlaceRows(TreeOf(rows[..|rows| - 1]), rows[|rows| - 1], major, mid, sub);
    }
  }

  /** Each level of the tree lists a label once, no group is empty, and every
      row sits under its own path. */
  ghost predicate SubsGrouped(subs: seq<SubGroup>, major: string, mid: string)
  {
    && (forall i, j :: 0 <= i < j < |subs| ==> subs[i].name != subs[j].name)
    && (forall i :: 0 <= i < |subs| ==> subs[i].rows != [])
    && (forall i, x :: 0 <= i < |subs| && x in subs[i].rows ==> Path(x) == (major, mid, subs[i].name))
  }

  ghost predicate MidsGrouped(mids: seq<MidGroup>, major: string)
  {
    && (forall i, j :: 0 <= i < j < |mids| ==> mids[i].name != mids[j].name)
    && (forall i :: 0 <= i < |mids| ==> mids[i].subs != [] && SubsGrouped(mids[i].subs, major, mids[i].name))
  }

  ghost predicate Grouped(t: seq<MajorGroup>)
  {
    && (forall i, j :: 0 <= i < j < |t| ==> t[i].name != t[j].name)
    && (forall i :: 0 <= i < |t| ==> t[i].mids != [] && MidsGrouped(t[i].mids, t[i].name))
  }

  lemma PlaceSubGrouped(subs: seq<SubGroup>, major: string, mid: string, row: TbRow)
    requires SubsGrouped(subs, major, mid) && Path(row).0 == major && Path(row).1 == mid
    ensures SubsGrouped(PlaceSub(subs, Path(row).2, row), major, mid)
    ensures PlaceSub(subs, Path(row).2, row) != []
  {
    var s := Path(row).2;
    var found := FindLabel(subs, SubLabel, s);
    var k := if found.Some? then found.value else |subs|;
    var subs' := if found.Some? then subs else subs + [SubGroup(s, [])];
    var r := PlaceSub(subs, s, row);
    assert r == subs'[k := subs'[k].(rows := subs'[k].rows + [row])];
    forall i, j | 0 <= i < j < |r| ensures r[i].name != r[j].name {
      if found.None? && j == |subs| {
        assert SubLabel(subs[i]) != s;
      } else {
        assert r[i].name == subs[i].name && r[j].name == subs[j].name;
      }
    }
    forall i | 0 <= i < |r| ensures r[i].rows != [] {
      if i != k {
        assert r[i] == subs[i];
      }
    }
    forall i, x | 0 <= i < |r| && x in r[i].rows ensures Path(x) == (major, mid, r[i].name) {
      if i != k {
        assert r[i] == subs[i];
      } else if x != row {
        assert found.Some? && x in subs[k].rows;
      }
    }
  }

  lemma PlaceMidGrouped(mids: seq<MidGroup>, major: string, row: TbRow)
    requires MidsGrouped(mids, major) && Path(row).0 == major
    ensures MidsGrouped(PlaceMid(mids, Path(row).1, Path(row).2, row), major)
    ensures PlaceMid(mids, Path(row).1, Path(row).2, row) != []
  {
    var m := Path(row).1;
    var found := FindLabel(mids, MidLabel, m);
    var k := if found.Some? then found.value else |mids|;
    var mids' := if found.Some? then mids else mids + [MidGroup(m, [])];
    var r := PlaceMid(mids, m, Path(row).2, row);
    assert r == mids'[k := mids'[k].(subs := PlaceSub(mids'[k].subs, Path(row).2, row))];
    PlaceSubGrouped(mids'[k].subs, major, m, row);
    forall i, j | 0 <= i < j < |r| ensures r[i].name != r[j].name {
      if found.None? && j == |mids| {
        assert MidLabel(mids[i]) != m;
      } else {
        assert r[i].name == mids[i].name && r[j].name == mids[j].name;
      }
    }
    forall i | 0 <= i < |r| ensures r[i].subs != [] && SubsGrouped(r[i].subs, major, r[i].name) {
      if i != k {
        assert r[i] == mids[i];
      }
    }
  }

  lemma PlaceGrouped(t: seq<MajorGroup>, row: TbRow)
    requires Grouped(t)
    ensures Grouped(Place(t, row))
  {
    var major := Path(row).0;
    var found := FindLabel(t, MajorLabel, major);
    var k := if found.Some? then found.value else |t|;
    var t' := if found.Some? then t else t + [MajorGroup(major, [])];
    var r := Place(t, row);
    assert r == t'[k := t'[k].(mids := PlaceMid(t'[k].mids, Path(row).1, Path(row).2, row))];
    PlaceMidGrouped(t'[k].mids, major, row);
    forall i, j | 0 <= i < j < |r| ensures r[i].name != r[j].name {
      if found.None? && j == |t| {
        assert MajorLabel(t[i]) != major;
      } else {
        assert r[i].name == t[i].name && r[j].name == t[j].name;
      }
    }
    forall i | 0 <= i < |r| ensures r[i].mids != [] && MidsGrouped(r[i].mids, r[i].name) {
      if i != k {
        assert r[i] == t[i];
      }
    }
  }

  /** build_bs_tree yields a tree: labels unique at every level, no empty
      group, each row under its own path. */
  lemma {:induction false} TreeOfGrouped(rows: seq<TbRow>)
    ensures Grouped(TreeOf(rows))
  {
    if rows != [] {
      TreeOfGrouped(rows[..|rows| - 1]);
      PlaceGrouped(TreeOf(rows[..|rows| - 1]), rows[|rows| - 1]);
    }
  }

  // ---------------------------------------------------------------------------
  // The order of the major categories

  /** The major categories the page lists first, in this order; any other
      follows in tree order. */
  const MajorsFirst: seq<string> := ["資産", "負債", "純資産"]

  function Names(t: seq<MajorGroup>): (r: seq<string>)
    ensures |r| == |t| && forall i :: 0 <= i < |t| ==> r[i] == t[i].name
  {
    if t == [] then [] else Names(t[..|t| - 1]) + [t[|t| - 1].name]
  }

  /** The first loop: the listed groups that exist, in the listed order. */
  function Picked(t: seq<MajorGroup>, order: seq<string>): seq<MajorGroup>
  {
    if order == [] then [] else
      var rest := Picked(t, order[..|order| - 1]);
      match FindLabel(t, MajorLabel, order[|order| - 1])
      case None => rest
      case Some(k) => rest + [t[k]]
  }

  /** The second loop: the remaining groups in tree order. */
  function Unlisted(t: seq<MajorGroup>, order: seq<string>): seq<MajorGroup>
  {
    if t == [] then [] else
      var rest := Unlisted(t[..|t| - 1], order);
      var g := t[|t| - 1];
      if g.name !in order then rest + [g] else rest
  }

  /** The second loop takes exactly the groups whose label is not listed. */
  lemma {:induction false} UnlistedMembers(t: seq<MajorGroup>, order: seq<string>)
    ensures forall g :: g in Unlisted(t, order) <==> g in t && g.name !in order
  {
    if t != [] {
      UnlistedMembers(t[..|t| - 1], order);
      DropLast(t);
    }
  }

  function Reordered(t: seq<MajorGroup>, order: seq<string>): seq<MajorGroup>
  {
    Picked(t, order) + Unlisted(t, order)
  }

  /** The first position of x in the order; |order| when x is not listed. */
  function Pos(order: seq<string>, x: string): (p: nat)
    ensures p <= |order|
    ensures p < |order| <==> x in order
    ensures p < |order| ==> order[p] == x
    ensures forall i :: 0 <= i < p ==> order[i] != x
  {
    if order == [] then 0 else if order[0] == x then 0 else 1 + Pos(order[1..], x)
  }

  lemma PosPrefix(order: seq<string>, n: nat, x: string)
    requires n <= |order| && x in order[..n]
    ensures Pos(order[..n], x) == Pos(order, x)
  {
    var p := Pos(order[..n], x);
    assert order[p] == x;
  }

  /** What the first loop picks: groups of the tree whose labels are listed,
      and every group whose label is listed. */
  lemma {:induction false} PickedMembers(t: seq<MajorGroup>, order: seq<string>)
    ensures forall g :: g in Picked(t, order) ==> g in t && g.name in order
    ensures forall i :: 0 <= i < |t| && t[i].name in order && FindLabel(t, MajorLabel, t[i].name) == Some(i) ==> t[i] in Picked(t, order)
  {
    if order != [] {
      var n := |order| - 1;
      var pre := order[..n];
      PickedMembers(t, pre);
      forall i | 0 <= i < |t| && t[i].name in order && FindLabel(t, MajorLabel, t[i].name) == Some(i)
        ensures t[i] in Picked(t, order)
      {
        if t[i].name != order[n] {
          var q :| 0 <= q < |order| && order[q] == t[i].name;
          assert pre[q] == t[i].name;
        }
      }
    }
  }

  /** The groups picked for the first n listed labels sit at positions
      before n. */
  lemma PickedBelow(t: seq<MajorGroup>, order: seq<string>, n: nat)
    requires n <= |order|
    ensures forall g :: g in Picked(t, order[..n]) ==> Pos(order, g.name) < n
  {
    PickedMembers(t, order[..n]);
    forall g | g in Picked(t, order[..n]) ensures Pos(order, g.name) < n {
      var q :| 0 <= q < n && order[..n][q] == g.name;
      assert order[q] == g.name;
    }
  }

  /** Listed labels appear in the order of their positions in the list. */
  ghost predicate FollowsOrder(p: seq<MajorGroup>, order: seq<string>)
  {
    forall i, j :: 0 <= i < j < |p| ==> Pos(order, p[i].name) < Pos(order, p[j].name)
  }

  lemma {:induction false} PickedOrderedUpTo(t: seq<MajorGroup>, order: seq<string>, n: nat)
    requires n <= |order|
    requires forall i, j :: 0 <= i < j < |order| ==> order[i] != order[j]
    ensures FollowsOrder(Picked(t, order[..n]), order)
  {
    if n > 0 {
      assert order[..n][..n - 1] == order[..n - 1];
      PickedOrderedUpTo(t, order, n - 1);
      PickedBelow(t, order, n - 1);
      var rest := Picked(t, order[..n - 1]);
      var p := Picked(t, order[..n]);
      assert order[..n][n - 1] == order[n - 1];
      assert Pos(order, order[n - 1]) == n - 1;
      match FindLabel(t, MajorLabel, order[n - 1])
      case None =>
        assert p == rest;
      case Some(k) =>
        assert p == rest + [t[k]];
        assert t[k].name == order[n - 1];
        forall i, j | 0 <= i < j < |p| ensures Pos(order, p[i].name) < Pos(order, p[j].name) {
          assert p[i] == rest[i];
          assert rest[i] in rest;
          if j < |rest| {
            assert p[j] == rest[j];
          } else {
            assert p[j] == t[k];
          }
        }
    }
  }

  /** The picked groups follow the listed order. */
  lemma PickedOrdered(t: seq<MajorGroup>, order: seq<string>)
    requires forall i, j :: 0 <= i < j < |order| ==> order[i] != order[j]
    ensures FollowsOrder(Picked(t, order), order)
  {
    assert order[..|order|] == order;
    PickedOrderedUpTo(t, order, |order|);
  }

  /** The reordered tree holds exactly the groups of the tree. */
  lemma ReorderedSameGroups(t: seq<MajorGroup>, order: seq<string>)
    requires forall i, j :: 0 <= i < j < |t| ==> t[i].name != t[j].name
    ensures forall g :: g in Reordered(t, order) <==> g in t
  {
    PickedMembers(t, order);
    UnlistedMembers(t, order);
    forall g | g in t ensures g in Reordered(t, order) {
      var i :| 0 <= i < |t| && t[i] == g;
      if g.name in order {
        FindIs(t, MajorLabel, g.name, Some(i));
      }
    }
  }

  /** The reordered tree shows every label once. */
  lemma ReorderedDistinct(t: seq<MajorGroup>, order: seq<string>)
    requires forall i, j :: 0 <= i < j < |t| ==> t[i].name != t[j].name
    requires forall i, j :: 0 <= i < j < |order| ==> order[i] != order[j]
    ensures var r := Reordered(t, order);
      forall i, j :: 0 <= i < j < |r| ==> r[i].name != r[j].name
  {
    PickedMembers(t, order);
    PickedOrdered(t, order);
    forall i, j | 0 <= i < j < |Reordered(t, order)|
      ensures Reordered(t, order)[i].name != Reordered(t, order)[j].name
    {
      ReorderedPairDistinct(t, order, i, j);
    }
  }

  lemma ReorderedPairDistinct(t: seq<MajorGroup>, order: seq<string>, i: nat, j: nat)
    requires forall i, j :: 0 <= i < j < |t| ==> t[i].name != t[j].name
    requires FollowsOrder(Picked(t, order), order)
    requires forall g :: g in Picked(t, order) ==> g in t && g.name in order
    requires i < j < |Reordered(t, order)|
    ensures Reordered(t, order)[i].name != Reordered(t, order)[j].name
  {
    var p := Picked(t, order);
    var u := Unlisted(t, order);
    var r := Reordered(t, order);
    UnlistedMembers(t, order);
    if j < |p| {
      assert r[i] == p[i] && r[j] == p[j];
      assert Pos(order, p[i].name) < Pos(order, p[j].name);
    } else if i >= |p| {
      assert r[i] == u[i - |p|] && r[j] == u[j - |p|];
      UnlistedDistinct(t, order, i - |p|, j - |p|);
    } else {
      assert r[i] == p[i] && r[j] == u[j - |p|];
      assert r[i] in p && r[j] in u;
    }
  }

  /** The listed major categories come first, in the listed order; the
      others follow. */
  lemma ReorderedListedFirst(t: seq<MajorGroup>, order: seq<string>)
    requires forall i, j :: 0 <= i < j < |order| ==> order[i] != order[j]
    ensures var r := Reordered(t, order);
      && (forall i, j :: 0 <= i < j < |r| && r[j].name in order ==> r[i].name in order)
      && (forall i, j :: 0 <= i < j < |r| && r[j].name in order ==> Pos(order, r[i].name) < Pos(order, r[j].name))
  {
    var p := Picked(t, order);
    var u := Unlisted(t, order);
    var r := Reordered(t, order);
    PickedMembers(t, order);
    PickedOrdered(t, order);
    UnlistedMembers(t, order);
    forall i, j | 0 <= i < j < |r| && r[j].name in order
      ensures r[i].name in order && Pos(order, r[i].name) < Pos(order, r[j].name)
    {
      assert j < |p|;
      assert r[i] == p[i] && r[j] == p[j];
      assert p[i] in p;
    }
  }

  /** Groups of the second loop keep their tree order, so distinct labels
      stay distinct. */
  lemma {:induction false} UnlistedDistinct(t: seq<MajorGroup>, order: seq<string>, a: nat, b: nat)
    requires forall i, j :: 0 <= i < j < |t| ==> t[i].name != t[j].name
    requires a < b < |Unlisted(t, order)|
    ensures Unlisted(t, order)[a].name != Unlisted(t, order)[b].name
  {
    var n := |t| - 1;
    var rest := Unlisted(t[..n], order);
    UnlistedMembers(t[..n], order);
    if b < |rest| {
      UnlistedDistinct(t[..n], order, a, b);
    } else {
      assert Unlisted(t, order)[a] in t[..n];
      var q :| 0 <= q < n && t[..n][q] == Unlisted(t, order)[a];
      assert t[q] == Unlisted(t, order)[a];
    }
  }

  /** In the second loop a group is added exactly when its label is not
      listed: a listed one is already there, and labels are unique. */
  lemma UnlistedStep(t: seq<MajorGroup>, order: seq<string>, j: nat)
    requires forall i, k :: 0 <= i < k < |t| ==> t[i].name != t[k].name
    requires j < |t|
    ensures t[j].name in Names(Picked(t, order) + Unlisted(t[..j], order)) <==> t[j].name in order
  {
    var picked := Picked(t, order);
    var r := picked + Unlisted(t[..j], order);
    PickedMembers(t, order);
    UnlistedMembers(t[..j], order);
    if t[j].name in order {
      FindIs(t, MajorLabel, t[j].name, Some(j));
      var q :| 0 <= q < |picked| && picked[q] == t[j];
      assert Names(r)[q] == t[j].name;
    } else {
      forall q | 0 <= q < |r| ensures Names(r)[q] != t[j].name {
        if q >= |picked| {
          assert r[q] in Unlisted(t[..j], order);
          var w :| 0 <= w < j && t[..j][w] == r[q];
        } else {
          assert r[q] in picked;
        }
      }
    }
  }

  /** The first reordering loop: the listed labels that are in the tree. */
  method PickListed(t: seq<MajorGroup>, order: seq<string>) returns (r: seq<MajorGroup>)
    ensures r == Picked(t, order)
  {
    r := [];
    var i := 0;
    while i < |order|
      invariant 0 <= i <= |order|
      invariant r == Picked(t, order[..i])
    {
      assert order[..i + 1][..i] == order[..i];
      var found := FindLabel(t, MajorLabel, order[i]);
      if found.Some? {
        r := r + [t[found.value]];
      }
      i := i + 1;
    }
    assert order[..i] == order;
  }

  /** The second reordering loop: every group not yet added, in tree order. */
  method AddUnlisted(t: seq<MajorGroup>, order: seq<string>, picked: seq<MajorGroup>) returns (r: seq<MajorGroup>)
    requires forall i, j :: 0 <= i < j < |t| ==> t[i].name != t[j].name
    requires picked == Picked(t, order)
    ensures r == picked + Unlisted(t, order)
  {
    r := picked;
    var j := 0;
    while j < |t|
      invariant 0 <= j <= |t|
      invariant r == picked + Unlisted(t[..j], order)
    {
      assert t[..j + 1][..j] == t[..j];
      UnlistedStep(t, order, j);
      if t[j].name !in Names(r) {
        r := r + [t[j]];
      }
      j := j + 1;
    }
    assert t[..j] == t;
  }

  /** The reordering of build_bs_tree. */
  method OrderMajors(t: seq<MajorGroup>, order: seq<string>) returns (r: seq<MajorGroup>)
    requires forall i, j :: 0 <= i < j < |t| ==> t[i].name != t[j].name
    ensures r == Reordered(t, order)
  {
    var picked := PickListed(t, order);
    r := AddUnlisted(t, order, picked);
  }

  // ---------------------------------------------------------------------------
  // Subtotals

  datatype Totals = Totals(opening: int, debit: int, credit: int, closing: int)

  function Add(a: Totals, b: Totals): Totals
  {
    Totals(a.opening + b.opening, a.debit + b.debit, a.credit + b.credit, a.closing + b.closing)
  }

  /** The four sums over the rows, as the generator sums compute them. */
  function RowsTotal(rows: seq<TbRow>): Totals
  {
    if rows == [] then Totals(0, 0, 0, 0) else
      var x := rows[|rows| - 1];
      Add(RowsTotal(rows[..|rows| - 1]), Totals(x.opening, x.debit, x.credit, x.closing))
  }

  lemma {:induction false} RowsTotalAppend(a: seq<TbRow>, b: seq<TbRow>)
    ensures RowsTotal(a + b) == Add(RowsTotal(a), RowsTotal(b))
  {
    if b == [] {
      assert a + b == a;
    } else {
      var n := |b| - 1;
      assert (a + b)[..|a + b| - 1] == a + b[..n];
      RowsTotalAppend(a, b[..n]);
    }
  }

  datatype SubTotal = SubTotal(name: string, totals: Totals)
  datatype MidTotal = MidTotal(major: string, mid: string, totals: Totals, subs: seq<SubTotal>)

  /** The small-category subtotals of a middle category, in tree order. */
  function SubTotalsOf(subs: seq<SubGroup>): (r: seq<SubTotal>)
    ensures |r| == |subs| && forall k :: 0 <= k < |r| ==> r[k].name == subs[k].name
  {
    if subs == [] then [] else
      var g := subs[|subs| - 1];
      SubTotalsOf(subs[..|subs| - 1]) + [SubTotal(g.name, RowsTotal(g.rows))]
  }

  /** mid_totals[mid]: the small subtotals added up. */
  function SumOf(st: seq<SubTotal>): Totals
  {
    if st == [] then Totals(0, 0, 0, 0) else Add(SumOf(st[..|st| - 1]), st[|st| - 1].totals)
  }

  /** All rows of a middle category, small category after small category. */
  function SubsRows(subs: seq<SubGroup>): seq<TbRow>
  {
    if subs == [] then [] else SubsRows(subs[..|subs| - 1]) + subs[|subs| - 1].rows
  }

  /** A middle subtotal, the sum of its small subtotals, is the sum of all
      rows of the middle category. */
  lemma {:induction false} MidTotalIsRowSum(subs: seq<SubGroup>)
    ensures SumOf(SubTotalsOf(subs)) == RowsTotal(SubsRows(subs))
  {
    if subs != [] {
      var n := |subs| - 1;
      MidTotalIsRowSum(subs[..n]);
      RowsTotalAppend(SubsRows(subs[..n]), subs[n].rows);
      assert SubTotalsOf(subs)[..n] == SubTotalsOf(subs[..n]);
    }
  }

  function MidTotalOf(major: string, g: MidGroup): MidTotal
  {
    var st := SubTotalsOf(g.subs);
    MidTotal(major, g.name, SumOf(st), st)
  }

  function MidTotalsOf(major: string, mids: seq<MidGroup>): (r: seq<MidTotal>)
    ensures |r| == |mids|
    ensures forall j :: 0 <= j < |r| ==> r[j] == MidTotalOf(major, mids[j])
  {
    if mids == [] then [] else MidTotalsOf(major, mids[..|mids| - 1]) + [MidTotalOf(major, mids[|mids| - 1])]
  }

  /** The subtotals of the whole tree, middle category by middle category. */
  function SubtotalsOf(t: seq<MajorGroup>): seq<MidTotal>
  {
    if t == [] then [] else
      var g := t[|t| - 1];
      SubtotalsOf(t[..|t| - 1]) + MidTotalsOf(g.name, g.mids)
  }

  lemma SubTotalsSnoc(done: seq<SubGroup>, s: SubGroup)
    ensures SubTotalsOf(done + [s]) == SubTotalsOf(done) + [SubTotal(s.name, RowsTotal(s.rows))]
  {
    SnocFront(done, s);
  }

  lemma SumOfSnoc(st: seq<SubTotal>, x: SubTotal)
    ensures SumOf(st + [x]) == Add(SumOf(st), x.totals)
  {
    SnocFront(st, x);
  }

  /** The innermost loops of bs_subtotals for one middle category. */
  method MidSubtotal(major: string, g: MidGroup) returns (mt: MidTotal)
    ensures mt == MidTotalOf(major, g)
    ensures |mt.subs| == |g.subs|
    ensures forall k :: 0 <= k < |g.subs| ==> mt.subs[k] == SubTotal(g.subs[k].name, RowsTotal(g.subs[k].rows))
    ensures mt.totals == RowsTotal(SubsRows(g.subs))
  {
    var subs: seq<SubTotal> := [];
    var total := Totals(0, 0, 0, 0);
    var k := 0;
    while k < |g.subs|
      invariant 0 <= k <= |g.subs|
      invariant subs == SubTotalsOf(g.subs[..k]) && total == SumOf(subs)
      invariant forall q :: 0 <= q < k ==> subs[q] == SubTotal(g.subs[q].name, RowsTotal(g.subs[q].rows))
    {
      TakeSnoc(g.subs, k);
      var s := g.subs[k];
      var sums := RowsTotal(s.rows);
      SubTotalsSnoc(g.subs[..k], s);
      SumOfSnoc(subs, SubTotal(s.name, sums));
      subs := subs + [SubTotal(s.name, sums)];
      total := Add(total, sums);
      k := k + 1;
    }
    assert g.subs[..k] == g.subs;
    MidTotalIsRowSum(g.subs);
    mt := MidTotal(major, g.name, total, subs);
  }

  /** The loop of bs_subtotals over the middle categories of one major. */
  method MajorSubtotals(g: MajorGroup) returns (out: seq<MidTotal>)
    ensures out == MidTotalsOf(g.name, g.mids)
  {
    out := [];
    var j := 0;
    while j < |g.mids|
      invariant 0 <= j <= |g.mids|
      invariant out == MidTotalsOf(g.name, g.mids[..j])
    {
      TakeSnoc(g.mids, j);
      var mt := MidSubtotal(g.name, g.mids[j]);
      out := out + [mt];
      j := j + 1;
    }
    assert g.mids[..j] == g.mids;
  }

  /** The loops of bs_subtotals over the tree. */
  method BsSubtotals(t: seq<MajorGroup>) returns (out: seq<MidTotal>)
    ensures out == SubtotalsOf(t)
  {
    out := [];
    var i := 0;
    while i < |t|
      invariant 0 <= i <= |t|
      invariant out == SubtotalsOf(t[..i])
    {
      TakeSnoc(t, i);
      var mids := MajorSubtotals(t[i]);
      out := out + mids;
      i := i + 1;
    }
    assert t[..i] == t;
  }

  // ---------------------------------------------------------------------------
  // Subtotal keys

  /** As written: bs_subtotals is one dict keyed by the text
      major + "_" + mid + "_" + sub for a small subtotal and major + "_" + mid
      for a middle one. */
  function SubKey(major: string, mid: string, sub: string): string
  {
    major + "_" + mid + "_" + sub
  }

  function MidKey(major: string, mid: string): string
  {
    major + "_" + mid
  }

  function WriteSubs(m: map<string, Totals>, major: string, mid: string, st: seq<SubTotal>): map<string, Totals>
  {
    if st == [] then m else
      var last := st[|st| - 1];
      WriteSubs(m, major, mid, st[..|st| - 1])[SubKey(major, mid, last.name) := last.totals]
  }

  /** bs_subtotals as the page builds it: each middle category writes its
      small subtotals, then its own. */
  function FlatSubtotals(out: seq<MidTotal>): map<string, Totals>
  {
    if out == [] then map[] else
      var e := out[|out| - 1];
      WriteSubs(FlatSubtotals(out[..|out| - 1]), e.major, e.mid, e.subs)[MidKey(e.major, e.mid) := e.totals]
  }

  /** Subtotals of two middle categories of 資産, 流動資産 and 流動資産_現金,
      with small categories 現金 (100) and 小口 (5). */
  const CollidingEntries: seq<MidTotal> := [
    MidTotal("資産", "流動資産", Totals(0, 0, 0, 100), [SubTotal("現金", Totals(0, 0, 0, 100))]),
    MidTotal("資産", "流動資産_現金", Totals(0, 0, 0, 5), [SubTotal("小口", Totals(0, 0, 0, 5))])]

  /** The key of small category 現金 under 流動資産 is the key of middle
      category 流動資産_現金, written later: the small subtotal 100 reads 5. */
  lemma FlatSubtotalKeysCollide()
    ensures EntriesDistinct(CollidingEntries)
    ensures CollidingEntries[0].subs[0].totals == Totals(0, 0, 0, 100)
    ensures SubKey("資産", "流動資産", "現金") in FlatSubtotals(CollidingEntries)
    ensures FlatSubtotals(CollidingEntries)[SubKey("資産", "流動資産", "現金")] == Totals(0, 0, 0, 5)
  {
    var out := CollidingEntries;
    assert SubKey("資産", "流動資産", "現金") == MidKey("資産", "流動資産_現金");
    assert out[..1] == [out[0]];
    assert FlatSubtotals(out) == WriteSubs(FlatSubtotals(out[..1]), "資産", "流動資産_現金", out[1].subs)[MidKey("資産", "流動資産_現金") := Totals(0, 0, 0, 5)];
  }

  /** Corrected: the same subtotals keyed by the path itself, so no key of
      one category can be the key of another. */
  datatype SubtotalKey = SmallKey(major: string, mid: string, sub: string) | MiddleKey(major: string, mid: string)

  function KeyedSubs(m: map<SubtotalKey, Totals>, major: string, mid: string, st: seq<SubTotal>): (r: map<SubtotalKey, Totals>)
    ensures forall k :: k in m ==> k in r
    ensures forall k :: k in m && !(k.SmallKey? && k.major == major && k.mid == mid) ==> r[k] == m[k]
  {
    if st == [] then m else
      var last := st[|st| - 1];
      KeyedSubs(m, major, mid, st[..|st| - 1])[SmallKey(major, mid, last.name) := last.totals]
  }

  function KeyedSubtotals(out: seq<MidTotal>): map<SubtotalKey, Totals>
  {
    if out == [] then map[] else
      var e := out[|out| - 1];
      KeyedSubs(KeyedSubtotals(out[..|out| - 1]), e.major, e.mid, e.subs)[MiddleKey(e.major, e.mid) := e.totals]
  }

  /** Each middle category appears once and lists a small category once. */
  ghost predicate EntriesDistinct(out: seq<MidTotal>)
  {
    && (forall i, j :: 0 <= i < j < |out| ==> (out[i].major, out[i].mid) != (out[j].major, out[j].mid))
    && (forall i, a, b :: 0 <= i < |out| && 0 <= a < b < |out[i].subs| ==> out[i].subs[a].name != out[i].subs[b].name)
  }

  lemma {:induction false} KeyedSubsHold(m: map<SubtotalKey, Totals>, major: string, mid: string, st: seq<SubTotal>)
    requires forall a, b :: 0 <= a < b < |st| ==> st[a].name != st[b].name
    ensures forall a :: 0 <= a < |st| ==>
      SmallKey(major, mid, st[a].name) in KeyedSubs(m, major, mid, st) &&
      KeyedSubs(m, major, mid, st)[SmallKey(major, mid, st[a].name)] == st[a].totals
  {
    if st != [] {
      KeyedSubsHold(m, major, mid, st[..|st| - 1]);
    }
  }

  /** With the path as the key, every small and middle subtotal can be read
      back under its own key. */
  lemma {:induction false} KeyedSubtotalsExact(out: seq<MidTotal>)
    requires EntriesDistinct(out)
    ensures forall i :: 0 <= i < |out| ==>
      MiddleKey(out[i].major, out[i].mid) in KeyedSubtotals(out) &&
      KeyedSubtotals(out)[MiddleKey(out[i].major, out[i].mid)] == out[i].totals
    ensures forall i, a :: 0 <= i < |out| && 0 <= a < |out[i].subs| ==>
      SmallKey(out[i].major, out[i].mid, out[i].subs[a].name) in KeyedSubtotals(out) &&
      KeyedSubtotals(out)[SmallKey(out[i].major, out[i].mid, out[i].subs[a].name)] == out[i].subs[a].totals
  {
    if out != [] {
      var n := |out| - 1;
      var e := out[n];
      assert EntriesDistinct(out[..n]);
      KeyedSubtotalsExact(out[..n]);
      KeyedSubsHold(KeyedSubtotals(out[..n]), e.major, e.mid, e.subs);
    }
  }

  /** Every entry of the subtotals names a major category of the tree. */
  lemma {:induction false} SubtotalsMajors(t: seq<MajorGroup>)
    ensures forall e :: e in SubtotalsOf(t) ==> e.major in Names(t)
  {
    if t != [] {
      var n := |t| - 1;
      SubtotalsMajors(t[..n]);
      forall e | e in SubtotalsOf(t) ensures e.major in Names(t) {
        if e in SubtotalsOf(t[..n]) {
          var q :| 0 <= q < n && Names(t[..n])[q] == e.major;
          assert Names(t)[q] == e.major;
        } else {
          assert e in MidTotalsOf(t[n].name, t[n].mids);
          assert Names(t)[n] == t[n].name;
        }
      }
    }
  }

  /** The entries of one major category name each of its middle categories
      once, and each small category once within it. */
  lemma MidTotalsDistinct(major: string, mids: seq<MidGroup>)
    requires MidsGrouped(mids, major)
    ensures EntriesDistinct(MidTotalsOf(major, mids))
    ensures forall e :: e in MidTotalsOf(major, mids) ==> e.major == major
  {
    var out := MidTotalsOf(major, mids);
    forall i, a, b | 0 <= i < |out| && 0 <= a < b < |out[i].subs| ensures out[i].subs[a].name != out[i].subs[b].name {
      assert out[i].subs == SubTotalsOf(mids[i].subs);
    }
  }

  /** The subtotal entries of a tree whose labels are unique name each middle
      category once and each small category once within it. */
  lemma {:induction false} SubtotalsDistinct(t: seq<MajorGroup>)
    requires Grouped(t)
    ensures EntriesDistinct(SubtotalsOf(t))
  {
    if t != [] {
      var n := |t| - 1;
      var g := t[n];
      assert Grouped(t[..n]);
      SubtotalsDistinct(t[..n]);
      SubtotalsMajors(t[..n]);
      MidTotalsDistinct(g.name, g.mids);
      var pre := SubtotalsOf(t[..n]);
      var last := MidTotalsOf(g.name, g.mids);
      var out := SubtotalsOf(t);
      assert out == pre + last;
      forall e | e in pre ensures e.major != g.name {
        var q :| 0 <= q < n && Names(t[..n])[q] == e.major;
        assert t[q].name == e.major;
      }
      EntriesDistinctAppend(pre, last);
    }
  }

  lemma EntriesDistinctAppend(a: seq<MidTotal>, b: seq<MidTotal>)
    requires EntriesDistinct(a) && EntriesDistinct(b)
    requires forall x, y :: x in a && y in b ==> x.major != y.major
    ensures EntriesDistinct(a + b)
  {
    var out := a + b;
    forall i, j | 0 <= i < j < |out| ensures (out[i].major, out[i].mid) != (out[j].major, out[j].mid) {
      if i >= |a| {
        assert out[i] == b[i - |a|] && out[j] == b[j - |a|];
      } else if j >= |a| {
        assert out[i] in a && out[j] in b;
      } else {
        assert out[i] == a[i] && out[j] == a[j];
      }
    }
    forall i, p, q | 0 <= i < |out| && 0 <= p < q < |out[i].subs| ensures out[i].subs[p].name != out[i].subs[q].name {
      if i >= |a| {
        assert out[i] == b[i - |a|];
      } else {
        assert out[i] == a[i];
      }
    }
  }
}
