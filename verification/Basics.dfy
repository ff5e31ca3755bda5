/** Go's pointers, its string order and its slice sort, as every controller uses them. */
module Basics {

  /** A Go pointer, or a slice or map that may be nil. */
  datatype Option<+T> = None | Some(value: T) {

    /** pointer.Deref: the value, or a default for nil. */
    function GetOr(default: T): T {
      match this
      case Some(v) => v
      case None => default
    }
  }

  /** How an external-client method ends: all calls succeeded, refused before any mutating call, or
      stopped by a mutating call that failed (or by a refusal after one). */
  datatype Outcome = Completed | Refused | Aborted

  /** What Observe reports. */
  datatype Observation = Failed | Absent | Exists(upToDate: bool, lateInitialized: bool)

  /** IsOptionalUpToDate and its slice and map forms: nil is always up to date. */
  predicate IsOptionalUpToDate<T(==)>(desired: Option<T>, observed: T) {
    desired.None? || desired.value == observed
  }

  /** The value an update request carries for an optional field: the zero value when it is not to change. */
  function ToSend<T(==)>(desired: Option<T>, observed: T, zero: T): T {
    if desired.None? || desired.value == observed then zero else desired.value
  }

  /** A request in which the zero value means "leave alone" can bring the field to its desired value. */
  ghost predicate Sendable<T>(desired: Option<T>, observed: T, zero: T) {
    desired.None? || desired.value == observed || desired.value != zero
  }

  /** The lexicographic order in which Go compares and sorts strings. */
  predicate StrLe(a: string, b: string) {
    a == [] || (b != [] && (a[0] < b[0] || (a[0] == b[0] && StrLe(a[1..], b[1..]))))
  }

  lemma {:induction false} StrLeTotal(a: string, b: string)
    ensures StrLe(a, b) || StrLe(b, a)
  {
    if a != [] && b != [] && a[0] == b[0] {
      StrLeTotal(a[1..], b[1..]);
    }
  }

  lemma {:induction false} StrLeAntisymmetric(a: string, b: string)
    requires StrLe(a, b) && StrLe(b, a)
    ensures a == b
  {
    if a != [] && b != [] {
      StrLeAntisymmetric(a[1..], b[1..]);
      assert a == [a[0]] + a[1..] && b == [b[0]] + b[1..];
    }
  }

  lemma {:induction false} StrLeTransitive(a: string, b: string, c: string)
    requires StrLe(a, b) && StrLe(b, c)
    ensures StrLe(a, c)
  {
    if a != [] && b[0] == a[0] && c[0] == b[0] {
      StrLeTransitive(a[1..], b[1..], c[1..]);
    }
  }

  /** b has a as a prefix, or is greater where they first differ. */
  ghost predicate Precedes(a: string, b: string) {
    a <= b || exists k :: SmallerAt(a, b, k)
  }

  ghost predicate SmallerAt(a: string, b: string, k: int) {
    0 <= k < |a| && k < |b| && a[..k] == b[..k] && a[k] < b[k]
  }

  lemma SmallerAtHead(a: string, b: string, k: nat)
    requires SmallerAt(a, b, k)
    ensures a[0] <= b[0] && (a[0] == b[0] ==> k > 0 && SmallerAt(a[1..], b[1..], k - 1))
  {
    if k > 0 {
      assert a[0] == a[..k][0] == b[..k][0] == b[0];
      assert a[1..][..k - 1] == a[..k][1..] && b[1..][..k - 1] == b[..k][1..];
    }
  }

  lemma SmallerAtTail(a: string, b: string, k: nat)
    requires a != [] && b != [] && a[0] == b[0] && SmallerAt(a[1..], b[1..], k)
    ensures SmallerAt(a, b, k + 1)
  {
    assert a[..k + 1] == [a[0]] + a[1..][..k] && b[..k + 1] == [b[0]] + b[1..][..k];
  }

  /** The recursive order is the one by positions. */
  lemma {:induction false} StrLeIff(a: string, b: string)
    ensures StrLe(a, b) <==> Precedes(a, b)
  {
    if a != [] && b != [] {
      assert a == [a[0]] + a[1..] && b == [b[0]] + b[1..];
      StrLeIff(a[1..], b[1..]);
      if a[0] == b[0] {
        if k :| SmallerAt(a[1..], b[1..], k) {
          SmallerAtTail(a, b, k);
        }
      } else if a[0] < b[0] {
        assert SmallerAt(a, b, 0);
      }
      if k :| SmallerAt(a, b, k) {
        SmallerAtHead(a, b, k);
      }
    }
  }

  predicate Ascending(s: seq<string>) {
    |s| <= 1 || (StrLe(s[0], s[1]) && Ascending(s[1..]))
  }

  function Insert(x: string, s: seq<string>): (r: seq<string>)
  {
    if s == [] || StrLe(x, s[0]) then [x] + s else [s[0]] + Insert(x, s[1..])
  }

  lemma {:induction false} InsertKeepsAscending(x: string, s: seq<string>)
    requires Ascending(s)
    ensures Ascending(Insert(x, s))
  {
    if s == [] || StrLe(x, s[0]) {
      assert ([x] + s)[1..] == s;
    } else {
      InsertKeepsAscending(x, s[1..]);
      StrLeTotal(x, s[0]);
      var rest := Insert(x, s[1..]);
      assert ([s[0]] + rest)[1..] == rest;
      assert rest[0] == x || rest[0] == s[1];
    }
  }

  lemma {:induction false} InsertKeepsElements(x: string, s: seq<string>)
    ensures multiset(Insert(x, s)) == multiset(s) + multiset{x}
  {
    if s != [] {
      assert s == [s[0]] + s[1..];
      InsertKeepsElements(x, s[1..]);
    }
  }

  /** slices.Sort, sort.Strings and slices.Sorted: the ascending rearrangement of a slice. */
  function Sort(s: seq<string>): (r: seq<string>)
    ensures Ascending(r)
    ensures multiset(r) == multiset(s)
  {
    if s == [] then []
    else
      var rest := Sort(s[1..]);
      assert s == [s[0]] + s[1..];
      InsertKeepsAscending(s[0], rest);
      InsertKeepsElements(s[0], rest);
      Insert(s[0], rest)
  }

  /** sort.Strings, in place. */
  method SortStrings(a: array<string>)
    modifies a
    ensures a[..] == Sort(old(a[..]))
  {
    var sorted := Sort(a[..]);
    assert |sorted| == |multiset(sorted)| == |multiset(a[..])| == a.Length;
    forall i | 0 <= i < a.Length {
      a[i] := sorted[i];
    }
  }

  lemma {:induction false} AscendingLeast(s: seq<string>, x: string)
    requires Ascending(s) && x in s
    ensures StrLe(s[0], x)
  {
    if x == s[0] {
      StrLeTotal(x, x);
    } else {
      assert s == [s[0]] + s[1..];
      AscendingLeast(s[1..], x);
      StrLeTransitive(s[0], s[1], x);
    }
  }

  lemma {:induction false} AscendingUnique(a: seq<string>, b: seq<string>)
    requires Ascending(a) && Ascending(b)
    requires multiset(a) == multiset(b)
    ensures a == b
  {
    if a == [] {
      assert |b| == |multiset(b)| == 0;
    } else {
      assert |b| == |multiset(b)| == |multiset(a)| == |a|;
      SameHead(a, b);
      assert a == [a[0]] + a[1..] && b == [b[0]] + b[1..];
      assert multiset(a[1..]) == multiset(a) - multiset{a[0]};
      assert multiset(b[1..]) == multiset(b) - multiset{b[0]};
      AscendingUnique(a[1..], b[1..]);
    }
  }

  lemma SameHead(a: seq<string>, b: seq<string>)
    requires Ascending(a) && Ascending(b) && a != [] && b != []
    requires multiset(a) == multiset(b)
    ensures a[0] == b[0]
  {
    assert a[0] in multiset(a) && b[0] in multiset(b);
    assert a[0] in b && b[0] in a;
    AscendingLeast(a, b[0]);
    AscendingLeast(b, a[0]);
    StrLeAntisymmetric(a[0], b[0]);
  }

  /** Sorting two slices and comparing them decides equality as multisets. */
  lemma SortEqualIff(a: seq<string>, b: seq<string>)
    ensures Sort(a) == Sort(b) <==> multiset(a) == multiset(b)
  {
    if multiset(a) == multiset(b) {
      AscendingUnique(Sort(a), Sort(b));
    }
  }

  ghost predicate NoDuplicates<T>(s: seq<T>) {
    forall i, j | 0 <= i < j < |s| :: s[i] != s[j]
  }

  ghost function Elements<T>(s: seq<T>): set<T> {
    set x | x in s
  }

  lemma ElementsAppend<T>(a: seq<T>, b: seq<T>)
    ensures Elements(a + b) == Elements(a) + Elements(b)
  {
  }

  lemma ElementsInitLast<T>(s: seq<T>)
    requires s != []
    ensures Elements(s) == Elements(s[..|s| - 1]) + {s[|s| - 1]}
  {
    assert s == s[..|s| - 1] + [s[|s| - 1]];
  }

  /** Two duplicate-free slices are rearrangements of each other iff they have the same elements. */
  lemma DuplicateFreeMultisets<T>(a: seq<T>, b: seq<T>)
    requires NoDuplicates(a) && NoDuplicates(b)
    ensures multiset(a) == multiset(b) <==> Elements(a) == Elements(b)
  {
    DuplicateFreeCounts(a);
    DuplicateFreeCounts(b);
    if multiset(a) == multiset(b) {
      forall x ensures x in Elements(a) <==> x in Elements(b) {
        assert x in a <==> x in multiset(a);
        assert x in b <==> x in multiset(b);
      }
    } else {
      var x :| multiset(a)[x] != multiset(b)[x];
      assert x in Elements(a) <==> x !in Elements(b);
    }
  }

  lemma {:induction false} DuplicateFreeCounts<T>(s: seq<T>)
    requires NoDuplicates(s)
    ensures forall x :: multiset(s)[x] == if x in s then 1 else 0
  {
    if s != [] {
      var init, last := s[..|s| - 1], s[|s| - 1];
      assert s == init + [last];
      DuplicateFreeCounts(init);
      assert last !in init;
    }
  }

  /** A slice with a repeated element counts that element more than once. */
  lemma DuplicateCount<T>(s: seq<T>, i: int, j: int)
    requires 0 <= i < j < |s| && s[i] == s[j]
    ensures multiset(s)[s[i]] >= 2
  {
    assert s == s[..i + 1] + s[i + 1..];
    assert s[i] in s[..i + 1];
    assert s[i + 1..][j - i - 1] == s[j];
    assert s[j] in s[i + 1..];
  }

  /** The list without the entries that are to go. */
  function Without<T(==)>(s: seq<T>, gone: seq<T>): (r: seq<T>)
    ensures Elements(r) == Elements(s) - Elements(gone)
  {
    if s == [] then [] else
    var rest := Without(s[1..], gone);
    assert s == [s[0]] + s[1..];
    ElementsAppend([s[0]], s[1..]);
    ElementsAppend([s[0]], rest);
    if s[0] in gone then rest else [s[0]] + rest
  }

  lemma {:induction false} WithoutKeepsDistinct<T>(s: seq<T>, gone: seq<T>)
    requires NoDuplicates(s)
    ensures NoDuplicates(Without(s, gone))
  {
    if s != [] {
      WithoutKeepsDistinct(s[1..], gone);
      var rest := Without(s[1..], gone);
      assert s[0] !in s[1..];
      assert s[0] !in Elements(rest);
    }
  }

  lemma SubsetSize<T>(a: set<T>, b: set<T>)
    requires a <= b
    ensures |a| <= |b|
  {
    assert b == a + (b - a);
  }

  ghost function Iterate<T>(f: T -> T, x: T, n: nat): T {
    if n == 0 then x else f(Iterate(f, x, n - 1))
  }

  lemma IterateTwice<T>(f: T -> T, x: T)
    ensures Iterate(f, x, 1) == f(x) && Iterate(f, x, 2) == f(f(x))
  {
    assert Iterate(f, x, 0) == x;
  }

  /** Once a step changes nothing, no later one does. */
  lemma {:induction false} FixedFrom<T>(f: T -> T, x: T, k: nat, n: nat)
    requires k <= n && f(Iterate(f, x, k)) == Iterate(f, x, k)
    ensures Iterate(f, x, n) == Iterate(f, x, k)
    decreases n
  {
    if k < n {
      FixedFrom(f, x, k, n - 1);
    }
  }

  /** What a step keeps holds from then on. */
  lemma {:induction false} KeptFrom<T(!new)>(f: T -> T, inv: T -> bool, x: T, k: nat, n: nat)
    requires k <= n && inv(Iterate(f, x, k)) && forall y :: inv(y) ==> inv(f(y))
    ensures inv(Iterate(f, x, n))
    decreases n
  {
    if k < n {
      KeptFrom(f, inv, x, k, n - 1);
    }
  }
}
