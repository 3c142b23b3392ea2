/** The chart of accounts: account items (勘定科目) with their category
    hierarchy, and payment accounts (口座) that may point at an account item. */
module Catalog {
  import opened Common
  import opened Text

  /** One row of account_items. Nullable text columns are "" when empty. */
  datatype AccountItem = AccountItem(
    id: int,
    orgId: int,
    name: string,
    major: string,
    mid: string,
    sub: string,
    plCategory: string,
    bsCategory: string,
    bsRank: Option<int>,
    liquidityRank: Option<int>,
    plRank: Option<int>)

  /** One row of accounts: a bank or cash account of an organisation. */
  datatype Account = Account(
    id: int,
    orgId: int,
    name: string,
    accountType: string,
    itemId: Option<int>)

  /** The account item with the given primary key, as a relationship or a
      filter on id returns it. */
  function FindItem(items: seq<AccountItem>, id: int): (r: Option<AccountItem>)
    ensures r.Some? ==> r.value in items && r.value.id == id
    ensures r.None? <==> forall i :: 0 <= i < |items| ==> items[i].id != id
  {
    if items == [] then None
    else if items[0].id == id then Some(items[0])
    else FindItem(items[1..], id)
  }

  /** The first account item of the organisation with the given name. */
  function FindItemByName(items: seq<AccountItem>, org: int, name: string): (r: Option<AccountItem>)
    ensures r.Some? ==> r.value in items && r.value.orgId == org && r.value.name == name
    ensures r.None? <==> forall i :: 0 <= i < |items| ==> !(items[i].orgId == org && items[i].name == name)
  {
    if items == [] then None
    else if items[0].orgId == org && items[0].name == name then Some(items[0])
    else FindItemByName(items[1..], org, name)
  }

  /** The first account item of the organisation named 仮払消費税 or 仮受消費税. */
  function FindTaxItem(items: seq<AccountItem>, org: int): (r: Option<AccountItem>)
    ensures r.Some? ==> r.value in items && r.value.orgId == org && r.value.name in {"仮払消費税", "仮受消費税"}
    ensures r.None? <==> forall i :: 0 <= i < |items| ==> !(items[i].orgId == org && items[i].name in {"仮払消費税", "仮受消費税"})
  {
    if items == [] then None
    else if items[0].orgId == org && items[0].name in {"仮払消費税", "仮受消費税"} then Some(items[0])
    else FindTaxItem(items[1..], org)
  }

  function FindAccount(accounts: seq<Account>, id: int): (r: Option<Account>)
    ensures r.Some? ==> r.value in accounts && r.value.id == id
    ensures r.None? <==> forall i :: 0 <= i < |accounts| ==> accounts[i].id != id
  {
    if accounts == [] then None
    else if accounts[0].id == id then Some(accounts[0])
    else FindAccount(accounts[1..], id)
  }

  /** The account item a payment account posts to: its own account item when
      set, otherwise the organisation's 現金 item for a 'cash' account type or
      its 普通預金 item for a 'bank' account type. None when nothing applies. */
  function PaymentItem(items: seq<AccountItem>, org: int, account: Account): (r: Option<int>)
    ensures Present(account.itemId) ==> r == account.itemId
    ensures !Present(account.itemId) && r.Some? ==>
      exists i :: 0 <= i < |items| && items[i].id == r.value && items[i].orgId == org
        && items[i].name in {"現金", "普通預金"}
    ensures (!Present(account.itemId) && !Contains(Lower(account.accountType), "cash")
             && !Contains(Lower(account.accountType), "bank")) ==> r.None?
  {
    if Present(account.itemId) then account.itemId
    else
      var kind := Lower(account.accountType);
      if Contains(kind, "cash") then
        match FindItemByName(items, org, "現金")
        case Some(it) => Some(it.id)
        case None => None
      else if Contains(kind, "bank") then
        match FindItemByName(items, org, "普通預金")
        case Some(it) => Some(it.id)
        case None => None
      else None
  }
}
