/** Shared vocabulary of the bookkeeping model: optional values, results, the
    request values the HTTP handlers receive, and summation over sequences. */
module Common {

  datatype Option<+T> = None | Some(value: T)

  datatype Result<+T, +E> = Ok(value: T) | Err(error: E)

  /** A value of a JSON request body as `dict.get` sees it: a missing key, an
      explicit null, a string, or a number. */
  datatype Json = Absent | JNull | JStr(s: string) | JInt(n: int)

  /** Python truthiness of a request value: missing, null, "" and 0 are false. */
  predicate Truthy(v: Json)
  {
    match v
    case Absent => false
    case JNull => false
    case JStr(s) => s != ""
    case JInt(n) => n != 0
  }

  /** Python truthiness of a nullable integer column (None and 0 are false). */
  predicate Present(o: Option<int>)
  {
    o.Some? && o.value != 0
  }

  /** Python's abs() on integers. */
  function Abs(x: int): (r: nat)
    ensures r == x || r == -x
  {
    if x < 0 then -x else x
  }

  /** Sum of f over a sequence, accumulated front to back as the source's loops do. */
  function Sum<T>(s: seq<T>, f: T -> int): int
  {
    if s == [] then 0 else Sum(s[..|s| - 1], f) + f(s[|s| - 1])
  }

  lemma {:induction false} SumAppend<T>(s: seq<T>, t: seq<T>, f: T -> int)
    ensures Sum(s + t, f) == Sum(s, f) + Sum(t, f)
  {
    if t == [] {
      assert s + t == s;
    } else {
      var n := |t| - 1;
      assert (s + t)[..|s + t| - 1] == s + t[..n];
      SumAppend(s, t[..n], f);
    }
  }

  /** Taking one more element of s appends that element. */
  lemma TakeSnoc<T>(s: seq<T>, i: nat)
    requires i < |s|
    ensures s[..i + 1] == s[..i] + [s[i]]
    ensures s[..i + 1][..i] == s[..i]
  {
  }

  /** A non-empty sequence is its front followed by its last element. */
  lemma DropLast<T>(s: seq<T>)
    requires s != []
    ensures s == s[..|s| - 1] + [s[|s| - 1]]
  {
  }

  /** Cutting a sequence at i and joining the halves gives it back. */
  lemma SplitAt<T>(s: seq<T>, i: nat)
    requires i <= |s|
    ensures s[..i] + s[i..] == s
  {
  }

  /** The first i + 1 elements are the head followed by the first i of the
      tail, and what follows them is the tail from i on. */
  lemma ConsSplit<T>(s: seq<T>, i: nat)
    requires i < |s|
    ensures s[..i + 1] == [s[0]] + s[1..][..i]
    ensures s[i + 1..] == s[1..][i..]
  {
  }

  /** The front of s + [x] is s. */
  lemma SnocFront<T>(s: seq<T>, x: T)
    ensures (s + [x])[..|s|] == s
  {
  }

  lemma SumSnoc<T>(s: seq<T>, x: T, f: T -> int)
    ensures Sum(s + [x], f) == Sum(s, f) + f(x)
  {
    assert (s + [x])[..|s|] == s;
  }

  /** Summing a pointwise sum is the sum of the two sums. */
  lemma {:induction false} SumAdd<T>(s: seq<T>, f: T -> int, g: T -> int, h: T -> int)
    requires forall x :: h(x) == f(x) + g(x)
    ensures Sum(s, h) == Sum(s, f) + Sum(s, g)
  {
    if s != [] {
      SumAdd(s[..|s| - 1], f, g, h);
    }
  }

  /** Summation only depends on the values f takes on the elements. */
  lemma {:induction false} SumCongruent<T>(s: seq<T>, f: T -> int, g: T -> int)
    requires forall i :: 0 <= i < |s| ==> f(s[i]) == g(s[i])
    ensures Sum(s, f) == Sum(s, g)
  {
    if s != [] {
      SumCongruent(s[..|s| - 1], f, g);
    }
  }

  /** Replacing one element changes the sum by the difference of the two values. */
  lemma SumUpdate<T>(s: seq<T>, k: nat, v: T, f: T -> int)
    requires k < |s|
    ensures Sum(s[k := v], f) == Sum(s, f) - f(s[k]) + f(v)
  {
    assert s == s[..k] + [s[k]] + s[k + 1..];
    assert s[k := v] == s[..k] + [v] + s[k + 1..];
    SumAppend(s[..k] + [s[k]], s[k + 1..], f);
    SumAppend(s[..k] + [v], s[k + 1..], f);
    SumSnoc(s[..k], s[k], f);
    SumSnoc(s[..k], v, f);
  }

  /** The sum does not depend on the order of the elements. */
  lemma {:induction false} SumPermutation<T>(a: seq<T>, b: seq<T>, f: T -> int)
    requires multiset(a) == multiset(b)
    ensures Sum(a, f) == Sum(b, f)
    decreases |a|
  {
    if a != [] {
      var n := |a| - 1;
      var x := a[n];
      assert x in multiset(b);
      var q :| 0 <= q < |b| && b[q] == x;
      var rest := b[..q] + b[q + 1..];
      assert b == b[..q] + [x] + b[q + 1..];
      assert a == a[..n] + [x];
      assert multiset(rest) == multiset(b) - multiset{x};
      assert multiset(a[..n]) == multiset(a) - multiset{x};
      SumPermutation(a[..n], rest, f);
      SumAppend(b[..q] + [x], b[q + 1..], f);
      SumSnoc(b[..q], x, f);
      SumAppend(b[..q], b[q + 1..], f);
    }
  }

  /** The elements of s that satisfy p, in their original order. */
  function Filter<T>(s: seq<T>, p: T -> bool): (r: seq<T>)
    ensures |r| <= |s|
    ensures forall i :: 0 <= i < |r| ==> r[i] in s && p(r[i])
    ensures forall i :: 0 <= i < |s| && p(s[i]) ==> s[i] in r
  {
    if s == [] then [] else
      var rest := Filter(s[..|s| - 1], p);
      if p(s[|s| - 1]) then rest + [s[|s| - 1]] else rest
  }

  lemma FilterSnoc<T>(s: seq<T>, x: T, p: T -> bool)
    ensures Filter(s + [x], p) == if p(x) then Filter(s, p) + [x] else Filter(s, p)
  {
    assert (s + [x])[..|s|] == s;
  }

  lemma FilterNone<T>(s: seq<T>, p: T -> bool)
    requires forall i :: 0 <= i < |s| ==> !p(s[i])
    ensures Filter(s, p) == []
  {
  }

  lemma {:induction false} FilterAppend<T>(s: seq<T>, t: seq<T>, p: T -> bool)
    ensures Filter(s + t, p) == Filter(s, p) + Filter(t, p)
  {
    if t == [] {
      assert s + t == s;
    } else {
      var n := |t| - 1;
      assert (s + t)[..|s + t| - 1] == s + t[..n];
      FilterAppend(s, t[..n], p);
    }
  }

  /** Filtering around one element that the filter keeps or drops. */
  lemma FilterMiddle<T>(front: seq<T>, x: T, back: seq<T>, p: T -> bool)
    ensures Filter(front + [x] + back, p) ==
      (if p(x) then Filter(front, p) + [x] else Filter(front, p)) + Filter(back, p)
    ensures Filter(front + back, p) == Filter(front, p) + Filter(back, p)
  {
    FilterAppend(front + [x], back, p);
    FilterSnoc(front, x, p);
    FilterAppend(front, back, p);
  }

  /** The values in s without repetitions, in order of first occurrence: the key
      order of a Python dict filled from s. */
  function Dedup<T(==)>(s: seq<T>): (r: seq<T>)
    ensures forall i :: 0 <= i < |r| ==> r[i] in s
    ensures forall i :: 0 <= i < |s| ==> s[i] in r
    ensures forall i, j :: 0 <= i < j < |r| ==> r[i] != r[j]
  {
    if s == [] then [] else
      var d := Dedup(s[..|s| - 1]);
      if s[|s| - 1] in s[..|s| - 1] then d else d + [s[|s| - 1]]
  }

  lemma DedupSnoc<T>(s: seq<T>, x: T)
    ensures Dedup(s + [x]) == if x in s then Dedup(s) else Dedup(s) + [x]
  {
    assert (s + [x])[..|s|] == s;
  }
}
