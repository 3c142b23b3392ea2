/** The general ledger (仕訳帳): balanced debit/credit postings, each tagged
    with the kind of record it was derived from and that record's id. */
module Ledger {
  import opened Common

  /** Optional analysis dimensions a journal voucher attaches to its posting. */
  datatype Dims = Dims(
    counterparty: Option<int>,
    department: Option<int>,
    item: Option<int>,
    projectTag: Option<int>,
    memoTag: Option<int>)

  const NoDims := Dims(None, None, None, None, None)

  /** One row of general_ledger. The date is the stored 'YYYY-MM-DD' text. */
  datatype LedgerRow = LedgerRow(
    orgId: Option<int>,
    date: string,
    debitItem: int,
    debitAmount: int,
    debitTax: Option<int>,
    creditItem: int,
    creditAmount: int,
    creditTax: Option<int>,
    summary: string,
    remarks: string,
    dims: Dims,
    sourceType: string,
    sourceId: Option<int>)

  /** Source types of the rows a cash-book batch line derives. */
  const BatchTypes: set<string> := {"batch_entry", "batch_entry_net", "batch_entry_tax"}

  /** A row is balanced when its debit and credit amounts agree. */
  predicate Balanced(r: LedgerRow)
  {
    r.debitAmount == r.creditAmount
  }

  predicate AllBalanced(rows: seq<LedgerRow>)
  {
    forall i :: 0 <= i < |rows| ==> Balanced(rows[i])
  }

  /** The row belongs to the derived set of cash book `id`. */
  predicate DerivedFrom(r: LedgerRow, id: int)
  {
    r.sourceType in BatchTypes && r.sourceId == Some(id)
  }

  /** The derived set of cash book `id`, in ledger order. */
  function DerivedSet(rows: seq<LedgerRow>, id: int): (r: seq<LedgerRow>)
    ensures forall i :: 0 <= i < |r| ==> DerivedFrom(r[i], id) && r[i] in rows
  {
    if rows == [] then []
    else if DerivedFrom(rows[|rows| - 1], id) then DerivedSet(rows[..|rows| - 1], id) + [rows[|rows| - 1]]
    else DerivedSet(rows[..|rows| - 1], id)
  }

  /** The ledger with the derived set of cash book `id` deleted. */
  function WithoutDerived(rows: seq<LedgerRow>, id: int): seq<LedgerRow>
  {
    if rows == [] then []
    else if DerivedFrom(rows[|rows| - 1], id) then WithoutDerived(rows[..|rows| - 1], id)
    else WithoutDerived(rows[..|rows| - 1], id) + [rows[|rows| - 1]]
  }

  /** Deleting the derived set of cash book `id` removes exactly its rows and
      keeps every other row. */
  lemma {:induction false} WithoutDerivedMembers(rows: seq<LedgerRow>, id: int)
    ensures var r := WithoutDerived(rows, id);
      && (forall i :: 0 <= i < |r| ==> !DerivedFrom(r[i], id) && r[i] in rows)
      && (forall i :: 0 <= i < |rows| && !DerivedFrom(rows[i], id) ==> rows[i] in r)
      && |r| <= |rows|
  {
    if rows != [] {
      var n := |rows| - 1;
      WithoutDerivedMembers(rows[..n], id);
      DropLast(rows);
    }
  }

  /** Deleting the old derived set and inserting the new one. */
  function ReplaceDerived(rows: seq<LedgerRow>, id: int, rebuilt: seq<LedgerRow>): seq<LedgerRow>
  {
    WithoutDerived(rows, id) + rebuilt
  }

  lemma {:induction false} DerivedSetAppend(a: seq<LedgerRow>, b: seq<LedgerRow>, id: int)
    ensures DerivedSet(a + b, id) == DerivedSet(a, id) + DerivedSet(b, id)
  {
    if b == [] {
      assert a + b == a;
    } else {
      var n := |b| - 1;
      assert (a + b)[..|a + b| - 1] == a + b[..n];
      DerivedSetAppend(a, b[..n], id);
    }
  }

  lemma {:induction false} WithoutDerivedAppend(a: seq<LedgerRow>, b: seq<LedgerRow>, id: int)
    ensures WithoutDerived(a + b, id) == WithoutDerived(a, id) + WithoutDerived(b, id)
  {
    if b == [] {
      assert a + b == a;
    } else {
      var n := |b| - 1;
      assert (a + b)[..|a + b| - 1] == a + b[..n];
      WithoutDerivedAppend(a, b[..n], id);
    }
  }

  lemma {:induction false} DerivedSetOfAllDerived(rows: seq<LedgerRow>, id: int)
    requires forall i :: 0 <= i < |rows| ==> DerivedFrom(rows[i], id)
    ensures DerivedSet(rows, id) == rows
    ensures WithoutDerived(rows, id) == []
  {
    if rows != [] {
      DerivedSetOfAllDerived(rows[..|rows| - 1], id);
      DropLast(rows);
    }
  }

  lemma {:induction false} WithoutDerivedIdempotent(rows: seq<LedgerRow>, id: int)
    ensures WithoutDerived(WithoutDerived(rows, id), id) == WithoutDerived(rows, id)
    ensures DerivedSet(WithoutDerived(rows, id), id) == []
  {
    if rows != [] {
      var n := |rows| - 1;
      WithoutDerivedIdempotent(rows[..n], id);
      if !DerivedFrom(rows[n], id) {
        var w := WithoutDerived(rows[..n], id);
        assert (w + [rows[n]])[..|w|] == w;
      }
    }
  }

  /** After regeneration the derived set of the source is exactly the new rows,
      and every other row of the ledger is as before, in the same order. */
  lemma ReplaceDerivedExact(rows: seq<LedgerRow>, id: int, rebuilt: seq<LedgerRow>)
    requires forall i :: 0 <= i < |rebuilt| ==> DerivedFrom(rebuilt[i], id)
    ensures DerivedSet(ReplaceDerived(rows, id, rebuilt), id) == rebuilt
    ensures WithoutDerived(ReplaceDerived(rows, id, rebuilt), id) == WithoutDerived(rows, id)
  {
    var w := WithoutDerived(rows, id);
    DerivedSetAppend(w, rebuilt, id);
    WithoutDerivedAppend(w, rebuilt, id);
    WithoutDerivedIdempotent(rows, id);
    DerivedSetOfAllDerived(rebuilt, id);
    assert WithoutDerived(w, id) + [] == w;
  }

  /** Regenerating twice with the same rows stores the same ledger as once. */
  lemma ReplaceDerivedIdempotent(rows: seq<LedgerRow>, id: int, rebuilt: seq<LedgerRow>)
    requires forall i :: 0 <= i < |rebuilt| ==> DerivedFrom(rebuilt[i], id)
    ensures ReplaceDerived(ReplaceDerived(rows, id, rebuilt), id, rebuilt) == ReplaceDerived(rows, id, rebuilt)
  {
    ReplaceDerivedExact(rows, id, rebuilt);
  }

  /** Regeneration keeps every row of the ledger balanced when the new rows are. */
  lemma ReplaceDerivedBalanced(rows: seq<LedgerRow>, id: int, rebuilt: seq<LedgerRow>)
    requires AllBalanced(rows) && AllBalanced(rebuilt)
    ensures AllBalanced(ReplaceDerived(rows, id, rebuilt))
  {
    var w := WithoutDerived(rows, id);
    var r := ReplaceDerived(rows, id, rebuilt);
    WithoutDerivedMembers(rows, id);
    forall i | 0 <= i < |r|
      ensures Balanced(r[i])
    {
      if i < |w| {
        assert r[i] == w[i];
        var j :| 0 <= j < |rows| && rows[j] == w[i];
      } else {
        assert r[i] == rebuilt[i - |w|];
      }
    }
  }
}
