/** Sorting by tuple keys, as the reports sort their rows with
    `list.sort(key=...)` and `sorted(..., key=...)`: keys are tuples of
    integers and strings compared position by position, and the sort is stable. */
module SortKeys {
  import opened Common
  import opened Text

  /** One position of a sort key. */
  datatype KeyPart = Num(n: int) | Str(s: string)

  /** Integers compare numerically and strings by code point; the reports
      never compare an integer with a string at the same position. */
  predicate PartLess(a: KeyPart, b: KeyPart)
  {
    match (a, b)
    case (Num(x), Num(y)) => x < y
    case (Str(x), Str(y)) => StrLess(x, y)
    case (Num(_), Str(_)) => true
    case (Str(_), Num(_)) => false
  }

  /** Python's tuple order: the first differing position decides, and a
      proper prefix comes first. */
  predicate KeyLess(a: seq<KeyPart>, b: seq<KeyPart>)
    decreases |a|
  {
    if a == [] then b != []
    else if b == [] then false
    else PartLess(a[0], b[0]) || (a[0] == b[0] && KeyLess(a[1..], b[1..]))
  }

  lemma PartLessIrreflexive(a: KeyPart)
    ensures !PartLess(a, a)
  {
    if a.Str? {
      StrLessIrreflexive(a.s);
    }
  }

  lemma PartLessTransitive(a: KeyPart, b: KeyPart, c: KeyPart)
    requires PartLess(a, b) && PartLess(b, c)
    ensures PartLess(a, c)
  {
    if a.Str? && b.Str? && c.Str? {
      StrLessTransitive(a.s, b.s, c.s);
    }
  }

  lemma PartLessTrichotomy(a: KeyPart, b: KeyPart)
    ensures a == b || PartLess(a, b) || PartLess(b, a)
  {
    if a.Str? && b.Str? {
      StrLessTrichotomy(a.s, b.s);
    }
  }

  lemma {:induction false} KeyLessIrreflexive(a: seq<KeyPart>)
    ensures !KeyLess(a, a)
    decreases |a|
  {
    if a != [] {
      PartLessIrreflexive(a[0]);
      KeyLessIrreflexive(a[1..]);
    }
  }

  lemma {:induction false} KeyLessTransitive(a: seq<KeyPart>, b: seq<KeyPart>, c: seq<KeyPart>)
    requires KeyLess(a, b) && KeyLess(b, c)
    ensures KeyLess(a, c)
    decreases |a|
  {
    if a != [] {
      assert b != [] && c != [];
      if PartLess(a[0], b[0]) && PartLess(b[0], c[0]) {
        PartLessTransitive(a[0], b[0], c[0]);
      } else if a[0] == b[0] && b[0] == c[0] {
        KeyLessTransitive(a[1..], b[1..], c[1..]);
      }
    }
  }

  lemma {:induction false} KeyLessTrichotomy(a: seq<KeyPart>, b: seq<KeyPart>)
    ensures a == b || KeyLess(a, b) || KeyLess(b, a)
    decreases |a|
  {
    if a != [] && b != [] {
      PartLessTrichotomy(a[0], b[0]);
      KeyLessTrichotomy(a[1..], b[1..]);
      if a[0] == b[0] && a[1..] == b[1..] {
        assert a == [a[0]] + a[1..] && b == [b[0]] + b[1..];
      }
    }
  }

  /** The key order is a strict total order: irreflexive, transitive and
      total, so every sort by these keys is well defined. */
  lemma KeyOrderIsStrictTotal(a: seq<KeyPart>, b: seq<KeyPart>, c: seq<KeyPart>)
    ensures !KeyLess(a, a)
    ensures KeyLess(a, b) && KeyLess(b, c) ==> KeyLess(a, c)
    ensures a == b || KeyLess(a, b) || KeyLess(b, a)
    ensures !(KeyLess(a, b) && KeyLess(b, a))
  {
    if KeyLess(a, b) && KeyLess(b, c) {
      KeyLessTransitive(a, b, c);
    }
    KeyLessIrreflexive(a);
    KeyLessTrichotomy(a, b);
    if KeyLess(a, b) && KeyLess(b, a) {
      KeyLessTransitive(a, b, a);
    }
  }

  /** Keys whose first parts are integers are ordered by those integers
      first. */
  lemma FirstPartDecides(a: seq<KeyPart>, b: seq<KeyPart>)
    requires |a| > 0 && |b| > 0 && a[0].Num? && b[0].Num?
    ensures a[0].n < b[0].n ==> KeyLess(a, b)
  {
  }

  /** No element is followed by one with a smaller key. */
  ghost predicate SortedBy<T>(s: seq<T>, key: T -> seq<KeyPart>)
  {
    forall i, j :: 0 <= i < j < |s| ==> !KeyLess(key(s[j]), key(s[i]))
  }

  /** x placed after every element whose key is not greater: the step that
      keeps the sort stable. */
  function Insert<T>(x: T, s: seq<T>, key: T -> seq<KeyPart>): (r: seq<T>)
    ensures multiset(r) == multiset(s) + multiset{x}
    ensures |r| == |s| + 1
    ensures forall i :: 0 <= i < |r| ==> r[i] == x || r[i] in s
  {
    if s == [] then [x]
    else if KeyLess(key(x), key(s[0])) then [x] + s
    else
      assert s == [s[0]] + s[1..];
      [s[0]] + Insert(x, s[1..], key)
  }

  lemma {:induction false} InsertSorted<T>(x: T, s: seq<T>, key: T -> seq<KeyPart>)
    requires SortedBy(s, key)
    ensures SortedBy(Insert(x, s, key), key)
  {
    if s != [] && !KeyLess(key(x), key(s[0])) {
      InsertSorted(x, s[1..], key);
      var r := Insert(x, s, key);
      forall i, j | 0 <= i < j < |r| ensures !KeyLess(key(r[j]), key(r[i])) {
        if i == 0 && r[j] != x {
          var k :| 0 <= k < |s[1..]| && s[1..][k] == r[j];
          assert s[k + 1] == r[j];
        }
      }
    } else if s != [] {
      var r := Insert(x, s, key);
      forall j | 0 < j < |r| ensures !KeyLess(key(r[j]), key(r[0])) {
        assert r[j] == s[j - 1];
        if j > 1 {
          assert !KeyLess(key(s[j - 1]), key(s[0]));
          KeyOrderIsStrictTotal(key(s[j - 1]), key(x), key(s[0]));
        } else {
          KeyOrderIsStrictTotal(key(x), key(s[0]), key(x));
        }
      }
    }
  }

  /** The stable sort: elements are taken in their order and each is placed
      after the earlier ones with an equal key. */
  function SortBy<T>(s: seq<T>, key: T -> seq<KeyPart>): (r: seq<T>)
    ensures multiset(r) == multiset(s)
    ensures SortedBy(r, key)
  {
    if s == [] then [] else
      var prev := SortBy(s[..|s| - 1], key);
      InsertSorted(s[|s| - 1], prev, key);
      assert s == s[..|s| - 1] + [s[|s| - 1]];
      Insert(s[|s| - 1], prev, key)
  }

  /** Where Insert places x: after the leading elements whose key x's key
      does not precede. */
  function InsertPos<T>(x: T, s: seq<T>, key: T -> seq<KeyPart>): (i: nat)
    ensures i <= |s|
  {
    if s == [] || KeyLess(key(x), key(s[0])) then 0 else 1 + InsertPos(x, s[1..], key)
  }

  lemma {:induction false} InsertAt<T>(x: T, s: seq<T>, key: T -> seq<KeyPart>)
    ensures Insert(x, s, key) == s[..InsertPos(x, s, key)] + [x] + s[InsertPos(x, s, key)..]
    ensures InsertPos(x, s, key) < |s| ==> KeyLess(key(x), key(s[InsertPos(x, s, key)]))
  {
    if s != [] && !KeyLess(key(x), key(s[0])) {
      var t := s[1..];
      var i := InsertPos(x, t, key);
      InsertAt(x, t, key);
      ConsSplit(s, i);
      assert InsertPos(x, s, key) == i + 1;
      assert Insert(x, s, key) == [s[0]] + Insert(x, t, key);
      ConsAssoc(s[0], t[..i], x, t[i..]);
      assert Insert(x, s, key) == s[..i + 1] + [x] + s[i + 1..];
      if i < |t| {
        assert s[i + 1] == t[i];
      }
    }
  }

  lemma ConsAssoc<T>(a: T, u: seq<T>, x: T, v: seq<T>)
    ensures [a] + (u + [x] + v) == ([a] + u) + [x] + v
  {
  }

  /** The elements with key k. */
  function KeyIs<T>(key: T -> seq<KeyPart>, k: seq<KeyPart>): T -> bool
  {
    (x: T) => key(x) == k
  }

  /** In a sorted sequence, nothing from the first element whose key follows
      x's key onwards shares x's key. */
  lemma KeyAbsentAfter<T>(x: T, s: seq<T>, key: T -> seq<KeyPart>, i: nat)
    requires SortedBy(s, key) && i <= |s|
    requires i < |s| ==> KeyLess(key(x), key(s[i]))
    ensures Filter(s[i..], KeyIs(key, key(x))) == []
  {
    var back := s[i..];
    forall j | 0 <= j < |back|
      ensures !KeyIs(key, key(x))(back[j])
    {
      assert back[j] == s[i + j];
      if j > 0 {
        assert !KeyLess(key(s[i + j]), key(s[i]));
        KeyOrderIsStrictTotal(key(x), key(s[i]), key(s[i + j]));
      }
      KeyLessIrreflexive(key(x));
    }
    FilterNone(back, KeyIs(key, key(x)));
  }

  /** Inserting x leaves the elements of every other key as they were. */
  lemma InsertFilterOther<T>(x: T, s: seq<T>, key: T -> seq<KeyPart>, k: seq<KeyPart>)
    requires key(x) != k
    ensures Filter(Insert(x, s, key), KeyIs(key, k)) == Filter(s, KeyIs(key, k))
  {
    var i := InsertPos(x, s, key);
    InsertAt(x, s, key);
    SplitAt(s, i);
    FilterMiddle(s[..i], x, s[i..], KeyIs(key, k));
  }

  /** When nothing after x's place shares its key (as in a sorted sequence),
      inserting x puts it after every element with the same key. */
  lemma InsertFilterSame<T>(x: T, s: seq<T>, key: T -> seq<KeyPart>)
    requires Filter(s[InsertPos(x, s, key)..], KeyIs(key, key(x))) == []
    ensures Filter(Insert(x, s, key), KeyIs(key, key(x))) == Filter(s, KeyIs(key, key(x))) + [x]
  {
    var i := InsertPos(x, s, key);
    InsertAt(x, s, key);
    SplitAt(s, i);
    FilterMiddle(s[..i], x, s[i..], KeyIs(key, key(x)));
    assert KeyIs(key, key(x))(x);
  }

  /** The sort is stable: the elements with any one key appear in the sorted
      result in the order they had in the input. */
  lemma {:induction false} SortByStable<T>(s: seq<T>, key: T -> seq<KeyPart>, k: seq<KeyPart>)
    ensures Filter(SortBy(s, key), KeyIs(key, k)) == Filter(s, KeyIs(key, k))
  {
    if s != [] {
      var init := s[..|s| - 1];
      SortByStable(init, key, k);
      if key(s[|s| - 1]) == k {
        var x, sorted := s[|s| - 1], SortBy(init, key);
        InsertAt(x, sorted, key);
        KeyAbsentAfter(x, sorted, key, InsertPos(x, sorted, key));
        InsertFilterSame(x, sorted, key);
      } else {
        InsertFilterOther(s[|s| - 1], SortBy(init, key), key, k);
      }
    }
  }

  lemma MultisetTail<T>(a: seq<T>, b: seq<T>)
    requires multiset(a) == multiset(b) && a != [] && b != [] && a[0] == b[0]
    ensures multiset(a[1..]) == multiset(b[1..])
  {
    assert a == [a[0]] + a[1..] && b == [b[0]] + b[1..];
    assert multiset(a[1..]) == multiset(a) - multiset{a[0]};
    assert multiset(b[1..]) == multiset(b) - multiset{b[0]};
  }

  /** The first elements of two sorted arrangements of the same elements have
      the same key. */
  lemma SortedHeads<T>(a: seq<T>, b: seq<T>, key: T -> seq<KeyPart>)
    requires multiset(a) == multiset(b) && a != [] && b != []
    requires SortedBy(a, key) && SortedBy(b, key)
    ensures key(a[0]) == key(b[0])
  {
    assert b[0] in multiset(a) && a[0] in multiset(b);
    var i :| 0 <= i < |a| && a[i] == b[0];
    var j :| 0 <= j < |b| && b[j] == a[0];
    assert !KeyLess(key(b[0]), key(a[0])) by {
      if i > 0 {
        assert !KeyLess(key(a[i]), key(a[0]));
      } else {
        KeyLessIrreflexive(key(a[0]));
      }
    }
    assert !KeyLess(key(a[0]), key(b[0])) by {
      if j > 0 {
        assert !KeyLess(key(b[j]), key(b[0]));
      } else {
        KeyLessIrreflexive(key(b[0]));
      }
    }
    KeyLessTrichotomy(key(a[0]), key(b[0]));
  }

  /** Two sorted arrangements of the same elements agree when no two elements
      share a key. */
  lemma {:induction false} SortedUnique<T>(a: seq<T>, b: seq<T>, key: T -> seq<KeyPart>)
    requires multiset(a) == multiset(b)
    requires SortedBy(a, key) && SortedBy(b, key)
    requires forall x, y :: x in a && y in a && key(x) == key(y) ==> x == y
    ensures a == b
  {
    assert |b| == |multiset(b)| == |multiset(a)| == |a|;
    if a != [] {
      SortedHeads(a, b, key);
      assert b[0] in multiset(a);
      assert a[0] == b[0];
      MultisetTail(a, b);
      SortedUnique(a[1..], b[1..], key);
      assert a == [a[0]] + a[1..] && b == [b[0]] + b[1..];
    }
  }

  /** The sort is determined by the elements alone: when no two elements
      share a key, the order the rows came in does not matter. */
  lemma SortIgnoresInputOrder<T>(a: seq<T>, b: seq<T>, key: T -> seq<KeyPart>)
    requires multiset(a) == multiset(b)
    requires forall x, y :: x in a && y in a && key(x) == key(y) ==> x == y
    ensures SortBy(a, key) == SortBy(b, key)
  {
    var sa, sb := SortBy(a, key), SortBy(b, key);
    forall x, y | x in sa && y in sa && key(x) == key(y) ensures x == y {
      assert x in multiset(sa) && y in multiset(sa);
      assert x in a && y in a;
    }
    SortedUnique(sa, sb, key);
  }
}
