/** Strict total orders, lexicographic order and sorting.

    The program orders every deterministic output with `sort.Slice`, `sort.Ints` or
    `sort.Strings`; this module models those calls by one sort, and shows that the result
    of sorting is determined by the elements alone. */
module Ordering {

  ghost predicate StrictTotalOrder<T(!new)>(less: (T, T) -> bool) {
    && (forall a :: !less(a, a))
    && (forall a, b, c :: less(a, b) && less(b, c) ==> less(a, c))
    && (forall a, b :: less(a, b) || a == b || less(b, a))
  }

  predicate IntLess(a: int, b: int) { a < b }

  predicate CharLess(a: char, b: char) { a < b }

  /** Lexicographic comparison: a proper prefix comes first. */
  predicate Lex<T(==)>(less: (T, T) -> bool, a: seq<T>, b: seq<T>) {
    if b == [] then false
    else if a == [] then true
    else less(a[0], b[0]) || (a[0] == b[0] && Lex(less, a[1..], b[1..]))
  }

  /** Go's `<` on strings. */
  predicate StringLess(a: string, b: string) { Lex(CharLess, a, b) }

  /** The comparators of the program: the first field that differs decides. */
  predicate FieldsLess(a: seq<string>, b: seq<string>) { Lex(StringLess, a, b) }

  /** Alphabetic order: after `n` common characters one text ends, or has the smaller character. */
  predicate BeforeAfter(a: string, b: string, n: nat) {
    n <= |a| && n < |b| && a[..n] == b[..n] && (n == |a| || a[n] < b[n])
  }

  ghost predicate TextBefore(a: string, b: string) { exists n: nat :: BeforeAfter(a, b, n) }

  lemma BeforeAfterOneMore(a: string, b: string, n: nat)
    requires a != [] && b != [] && a[0] == b[0]
    ensures BeforeAfter(a, b, n + 1) <==> BeforeAfter(a[1..], b[1..], n)
  {
    if n + 1 <= |a| && n + 1 < |b| {
      assert a[..n + 1] == [a[0]] + a[1..][..n] && b[..n + 1] == [b[0]] + b[1..][..n];
      assert a[..n + 1][1..] == a[1..][..n] && b[..n + 1][1..] == b[1..][..n];
    }
  }

  lemma BeforeAfterNone(a: string, b: string)
    ensures BeforeAfter(a, b, 0) <==> b != [] && (a == [] || a[0] < b[0])
  {
    assert a[..0] == b[..0];
  }

  lemma SameFirst(a: string, b: string, n: nat)
    requires BeforeAfter(a, b, n + 1)
    ensures a != [] && b != [] && a[0] == b[0]
  {
    assert a[..n + 1][0] == a[0] && b[..n + 1][0] == b[0];
  }

  lemma {:induction false} StringLessIff(a: string, b: string)
    ensures StringLess(a, b) <==> TextBefore(a, b)
  {
    BeforeAfterNone(a, b);
    if a != [] && b != [] && a[0] == b[0] {
      StringLessIff(a[1..], b[1..]);
      hide BeforeAfter;
      if n: nat :| BeforeAfter(a, b, n) {
        if n > 0 { BeforeAfterOneMore(a, b, n - 1); }
      }
      if n: nat :| BeforeAfter(a[1..], b[1..], n) { BeforeAfterOneMore(a, b, n); }
    } else if n: nat :| BeforeAfter(a, b, n) {
      if n > 0 { SameFirst(a, b, n - 1); }
    }
  }

  lemma {:induction false} LexIrreflexive<T(!new)>(less: (T, T) -> bool, a: seq<T>)
    requires StrictTotalOrder(less)
    ensures !Lex(less, a, a)
  {
    if a != [] { LexIrreflexive(less, a[1..]); }
  }

  lemma {:induction false} LexTransitive<T(!new)>(less: (T, T) -> bool, a: seq<T>, b: seq<T>, c: seq<T>)
    requires StrictTotalOrder(less)
    requires Lex(less, a, b) && Lex(less, b, c)
    ensures Lex(less, a, c)
  {
    if a != [] && a[0] == b[0] && b[0] == c[0] {
      LexTransitive(less, a[1..], b[1..], c[1..]);
    }
  }

  lemma {:induction false} LexTotal<T(!new)>(less: (T, T) -> bool, a: seq<T>, b: seq<T>)
    requires StrictTotalOrder(less)
    ensures Lex(less, a, b) || a == b || Lex(less, b, a)
  {
    if a != [] && b != [] && a[0] == b[0] {
      LexTotal(less, a[1..], b[1..]);
      assert a == [a[0]] + a[1..] && b == [b[0]] + b[1..];
    }
  }

  lemma FieldsLessIsOrder()
    ensures StrictTotalOrder(StringLess)
    ensures StrictTotalOrder(FieldsLess)
  {
    forall a: string ensures !StringLess(a, a) { LexIrreflexive(CharLess, a); }
    forall a: string, b: string, c: string | StringLess(a, b) && StringLess(b, c)
      ensures StringLess(a, c) { LexTransitive(CharLess, a, b, c); }
    forall a: string, b: string ensures StringLess(a, b) || a == b || StringLess(b, a) { LexTotal(CharLess, a, b); }
    forall a: seq<string> ensures !FieldsLess(a, a) { LexIrreflexive(StringLess, a); }
    forall a: seq<string>, b: seq<string>, c: seq<string> | FieldsLess(a, b) && FieldsLess(b, c)
      ensures FieldsLess(a, c) { LexTransitive(StringLess, a, b, c); }
    forall a: seq<string>, b: seq<string> ensures FieldsLess(a, b) || a == b || FieldsLess(b, a) {
      LexTotal(StringLess, a, b);
    }
  }

  predicate Sorted<T>(less: (T, T) -> bool, s: seq<T>) {
    forall i, j :: 0 <= i < j < |s| ==> !less(s[j], s[i])
  }

  function Insert<T>(less: (T, T) -> bool, x: T, s: seq<T>): (r: seq<T>)
    ensures multiset(r) == multiset(s) + multiset{x}
  {
    if s == [] then [x]
    else if less(s[0], x) then
      assert s == [s[0]] + s[1..];
      [s[0]] + Insert(less, x, s[1..])
    else [x] + s
  }

  function Sort<T>(less: (T, T) -> bool, s: seq<T>): (r: seq<T>)
    ensures multiset(r) == multiset(s)
    ensures |r| == |s|
  {
    if s == [] then [] else
      assert s == [s[0]] + s[1..];
      var r := Insert(less, s[0], Sort(less, s[1..]));
      assert multiset(r) == multiset(s);
      assert |multiset(r)| == |r| && |multiset(s)| == |s|;
      r
  }

  lemma MemberOfPermutation<T>(s: seq<T>, t: seq<T>)
    requires multiset(s) == multiset(t)
    ensures forall x :: x in s <==> x in t
    ensures |s| == |t|
  {
    forall x ensures x in s <==> x in t {
      assert x in s <==> x in multiset(s);
      assert x in t <==> x in multiset(t);
    }
    assert |s| == |multiset(s)| && |t| == |multiset(t)|;
  }

  lemma {:induction false} InsertSorted<T(!new)>(less: (T, T) -> bool, x: T, s: seq<T>)
    requires StrictTotalOrder(less) && Sorted(less, s)
    ensures Sorted(less, Insert(less, x, s))
  {
    if s != [] && less(s[0], x) {
      InsertSorted(less, x, s[1..]);
      var r := Insert(less, x, s[1..]);
      forall i | 0 <= i < |r| ensures !less(r[i], s[0]) {
        assert r[i] in multiset(r);
        assert r[i] in multiset(s[1..]) || r[i] == x;
        assert r[i] in s[1..] || r[i] == x;
      }
    }
  }

  lemma {:induction false} SortSorts<T(!new)>(less: (T, T) -> bool, s: seq<T>)
    requires StrictTotalOrder(less)
    ensures Sorted(less, Sort(less, s))
  {
    if s != [] {
      SortSorts(less, s[1..]);
      InsertSorted(less, s[0], Sort(less, s[1..]));
    }
  }

  lemma {:induction false} SortedUnique<T(!new)>(less: (T, T) -> bool, s: seq<T>, t: seq<T>)
    requires StrictTotalOrder(less) && Sorted(less, s) && Sorted(less, t)
    requires multiset(s) == multiset(t)
    ensures s == t
  {
    hide Sorted, StrictTotalOrder;
    if s != [] {
      SameLeast(less, s, t);
      TailsPermute(s, t);
      SortedTail(less, s);
      SortedTail(less, t);
      SortedUnique(less, s[1..], t[1..]);
      assert s == [s[0]] + s[1..] && t == [t[0]] + t[1..];
    } else {
      MemberOfPermutation(s, t);
    }
  }

  lemma TailsPermute<T>(s: seq<T>, t: seq<T>)
    requires multiset(s) == multiset(t) && s != [] && t != [] && s[0] == t[0]
    ensures multiset(s[1..]) == multiset(t[1..])
  {
    assert s == [s[0]] + s[1..] && t == [t[0]] + t[1..];
    assert multiset(s[1..]) == multiset(s) - multiset{s[0]};
  }

  lemma SortedTail<T>(less: (T, T) -> bool, s: seq<T>)
    requires Sorted(less, s) && s != []
    ensures Sorted(less, s[1..])
  {
  }

  lemma SameLeast<T(!new)>(less: (T, T) -> bool, s: seq<T>, t: seq<T>)
    requires StrictTotalOrder(less) && Sorted(less, s) && Sorted(less, t)
    requires multiset(s) == multiset(t) && s != []
    ensures t != [] && s[0] == t[0]
  {
    MemberOfPermutation(s, t);
    assert s[0] in t && t[0] in s;
    var i :| 0 <= i < |t| && t[i] == s[0];
    var j :| 0 <= j < |s| && s[j] == t[0];
  }

  /** Sorting forgets the order of its input: the ground of every determinism claim. */
  lemma SortIgnoresOrder<T(!new)>(less: (T, T) -> bool, s: seq<T>, t: seq<T>)
    requires StrictTotalOrder(less)
    requires multiset(s) == multiset(t)
    ensures Sort(less, s) == Sort(less, t)
  {
    SortSorts(less, s);
    SortSorts(less, t);
    SortedUnique(less, Sort(less, s), Sort(less, t));
  }

  ghost predicate NoDuplicates<T>(s: seq<T>) {
    forall i, j :: 0 <= i < j < |s| ==> s[i] != s[j]
  }

  lemma NoDuplicatesAppend<T>(s: seq<T>, x: T)
    requires NoDuplicates(s) && x !in s
    ensures NoDuplicates(s + [x])
  {
  }

  lemma {:induction false} NoDuplicatesMultiset<T>(s: seq<T>)
    requires NoDuplicates(s)
    ensures forall x :: multiset(s)[x] == if x in s then 1 else 0
  {
    if s != [] {
      assert s == [s[0]] + s[1..];
      NoDuplicatesMultiset(s[1..]);
    }
  }

  lemma SameElementsPermute<T>(s: seq<T>, t: seq<T>)
    requires NoDuplicates(s) && NoDuplicates(t)
    requires forall x :: x in s <==> x in t
    ensures multiset(s) == multiset(t)
  {
    NoDuplicatesMultiset(s);
    NoDuplicatesMultiset(t);
  }

  /** An element at two positions counts at least twice. */
  lemma CountedTwice<T>(t: seq<T>, i: nat, j: nat)
    requires i < j < |t| && t[i] == t[j]
    ensures multiset(t)[t[i]] >= 2
  {
    var a, b := t[..j], t[j..];
    assert t == a + b;
    assert a[i] == t[i] && b[0] == t[i];
    assert multiset(t) == multiset(a) + multiset(b);
    assert t[i] in a && t[i] in b;
    assert multiset(a)[t[i]] >= 1 && multiset(b)[t[i]] >= 1;
  }

  lemma PermutationNoDuplicates<T>(s: seq<T>, t: seq<T>)
    requires NoDuplicates(s) && multiset(s) == multiset(t)
    ensures NoDuplicates(t)
  {
    NoDuplicatesMultiset(s);
    forall i, j | 0 <= i < j < |t| ensures t[i] != t[j] {
      if t[i] == t[j] { CountedTwice(t, i, j); }
    }
  }
}
