/** What `std::stable_sort` returns, as a function, with the facts its callers rely on. */
module StableSorting {

  ghost predicate StrictWeakOrder<T(!new)>(less: (T, T) -> bool) {
    && (forall a, b :: less(a, b) ==> !less(b, a))
    && (forall a, b, c :: !less(a, b) && !less(b, c) ==> !less(a, c))
  }

  function Insert<T>(x: T, s: seq<T>, less: (T, T) -> bool): seq<T> {
    if s == [] || !less(s[0], x) then [x] + s else [s[0]] + Insert(x, s[1..], less)
  }

  function Sort<T>(s: seq<T>, less: (T, T) -> bool): seq<T> {
    if s == [] then [] else Insert(s[0], Sort(s[1..], less), less)
  }

  ghost predicate Sorted<T>(s: seq<T>, less: (T, T) -> bool) {
    forall i, j :: 0 <= i < j < |s| ==> !less(s[j], s[i])
  }

  lemma {:induction false} InsertPermutes<T>(x: T, s: seq<T>, less: (T, T) -> bool)
    ensures multiset(Insert(x, s, less)) == multiset(s) + multiset{x}
    ensures |Insert(x, s, less)| == |s| + 1
  {
    if s == [] || !less(s[0], x) {
    } else {
      InsertPermutes(x, s[1..], less);
      assert s == [s[0]] + s[1..];
    }
  }

  lemma {:induction false} SortPermutes<T>(s: seq<T>, less: (T, T) -> bool)
    ensures multiset(Sort(s, less)) == multiset(s)
    ensures |Sort(s, less)| == |s|
  {
    if s == [] {
    } else {
      SortPermutes(s[1..], less);
      InsertPermutes(s[0], Sort(s[1..], less), less);
      assert s == [s[0]] + s[1..];
    }
  }

  lemma {:induction false} InsertSorted<T(!new)>(x: T, s: seq<T>, less: (T, T) -> bool)
    requires StrictWeakOrder(less) && Sorted(s, less)
    ensures Sorted(Insert(x, s, less), less)
  {
    var r := Insert(x, s, less);
    if s == [] {
    } else if !less(s[0], x) {
      forall j | 0 < j < |r| ensures !less(r[j], r[0]) {
        if j > 1 {
          assert !less(s[j - 1], s[0]);
        }
      }
    } else {
      assert Sorted(s[1..], less);
      InsertSorted(x, s[1..], less);
      InsertPermutes(x, s[1..], less);
      var t := Insert(x, s[1..], less);
      forall j | 0 <= j < |t| ensures !less(t[j], s[0]) {
        assert t[j] in multiset(t);
        if t[j] != x {
          assert t[j] in s[1..];
          var i :| 0 <= i < |s[1..]| && s[1..][i] == t[j];
          assert s[i + 1] == t[j];
        }
      }
    }
  }

  lemma {:induction false} SortSorts<T(!new)>(s: seq<T>, less: (T, T) -> bool)
    requires StrictWeakOrder(less)
    ensures Sorted(Sort(s, less), less)
  {
    if s == [] {
    } else {
      SortSorts(s[1..], less);
      InsertSorted(s[0], Sort(s[1..], less), less);
    }
  }

  ghost predicate Distinct<T>(s: seq<T>) {
    forall i, j :: 0 <= i < j < |s| ==> s[i] != s[j]
  }

  lemma {:induction false} InsertDistinct<T>(x: T, s: seq<T>, less: (T, T) -> bool)
    requires Distinct(s) && x !in s
    ensures Distinct(Insert(x, s, less)) && forall y :: y in Insert(x, s, less) <==> y == x || y in s
  {
    if s == [] || !less(s[0], x) {
    } else {
      InsertDistinct(x, s[1..], less);
      assert s == [s[0]] + s[1..];
      var t := Insert(x, s[1..], less);
      forall i, j | 0 <= i < j < |t| + 1 ensures ([s[0]] + t)[i] != ([s[0]] + t)[j] {
        if i == 0 {
          assert t[j - 1] in t;
        } else {
          assert t[i - 1] != t[j - 1];
        }
      }
    }
  }

  /** Sorting keeps a list without duplicates that way. */
  lemma {:induction false} SortDistinct<T>(s: seq<T>, less: (T, T) -> bool)
    requires Distinct(s)
    ensures Distinct(Sort(s, less)) && forall y :: y in Sort(s, less) <==> y in s
  {
    if s == [] {
    } else {
      SortDistinct(s[1..], less);
      InsertDistinct(s[0], Sort(s[1..], less), less);
      assert s == [s[0]] + s[1..];
    }
  }

  /** The first element of the result is the earliest one that nothing precedes. */
  ghost predicate FirstBest<T>(s: seq<T>, less: (T, T) -> bool, i: int) {
    && 0 <= i < |s|
    && (forall j :: 0 <= j < |s| ==> !less(s[j], s[i]))
    && (forall j :: 0 <= j < i ==> less(s[i], s[j]))
  }

  lemma {:induction false} SortFront<T(!new)>(s: seq<T>, less: (T, T) -> bool) returns (i: int)
    requires StrictWeakOrder(less) && s != []
    ensures FirstBest(s, less, i)
    ensures |Sort(s, less)| == |s| && Sort(s, less)[0] == s[i]
  {
    SortPermutes(s, less);
    if |s| == 1 {
      i := 0;
    } else {
      SortPermutes(s[1..], less);
      var k := SortFront(s[1..], less);
      var y := Sort(s[1..], less)[0];
      if !less(y, s[0]) {
        i := 0;
        forall j | 0 <= j < |s| ensures !less(s[j], s[0]) {
          if j > 0 {
            assert !less(s[1..][j - 1], y);
          }
        }
      } else {
        i := k + 1;
        forall j | 0 <= j < i ensures less(s[i], s[j]) {
          if j > 0 {
            assert less(s[1..][k], s[1..][j - 1]);
          }
        }
        forall j | 0 <= j < |s| ensures !less(s[j], s[i]) {
          if j > 0 {
            assert !less(s[1..][j - 1], s[1..][k]);
          }
        }
      }
    }
  }

  /** The elements that tie with `x`, in order. */
  function Ties<T>(s: seq<T>, less: (T, T) -> bool, x: T): seq<T> {
    if s == [] then []
    else (if !less(s[0], x) && !less(x, s[0]) then [s[0]] else []) + Ties(s[1..], less, x)
  }

  lemma {:induction false} InsertStable<T(!new)>(e: T, s: seq<T>, less: (T, T) -> bool, x: T)
    requires StrictWeakOrder(less)
    ensures Ties(Insert(e, s, less), less, x) == Ties([e] + s, less, x)
  {
    if s == [] || !less(s[0], e) {
    } else {
      InsertStable(e, s[1..], less, x);
      assert ([e] + s)[1..] == s;
      assert ([e] + s[1..])[1..] == s[1..];
      assert ([s[0]] + Insert(e, s[1..], less))[1..] == Insert(e, s[1..], less);
    }
  }

  /** Elements that tie keep their order. */
  lemma {:induction false} SortStable<T(!new)>(s: seq<T>, less: (T, T) -> bool, x: T)
    requires StrictWeakOrder(less)
    ensures Ties(Sort(s, less), less, x) == Ties(s, less, x)
  {
    if s == [] {
    } else {
      SortStable(s[1..], less, x);
      var t := Sort(s[1..], less);
      InsertStable(s[0], t, less, x);
      assert ([s[0]] + t)[1..] == t;
    }
  }

  function Mapped<T, U>(s: seq<T>, f: T -> U): (r: seq<U>)
    ensures |r| == |s| && forall i :: 0 <= i < |s| ==> r[i] == f(s[i])
  {
    seq(|s|, i requires 0 <= i < |s| => f(s[i]))
  }

  lemma {:induction false} InsertMapped<T(!new), U(!new)>(x: T, s: seq<T>, f: T -> U, less: (T, T) -> bool, less': (U, U) -> bool)
    requires forall a, b :: less'(f(a), f(b)) == less(a, b)
    ensures Insert(f(x), Mapped(s, f), less') == Mapped(Insert(x, s, less), f)
  {
    if s == [] || !less(s[0], x) {
    } else {
      InsertMapped(x, s[1..], f, less, less');
      assert Mapped(s, f)[1..] == Mapped(s[1..], f);
    }
  }

  /** Sorting commutes with any map that keeps the order relation. */
  lemma {:induction false} SortMapped<T(!new), U(!new)>(s: seq<T>, f: T -> U, less: (T, T) -> bool, less': (U, U) -> bool)
    requires forall a, b :: less'(f(a), f(b)) == less(a, b)
    ensures Sort(Mapped(s, f), less') == Mapped(Sort(s, less), f)
  {
    if s == [] {
    } else {
      assert Mapped(s, f)[1..] == Mapped(s[1..], f);
      SortMapped(s[1..], f, less, less');
      InsertMapped(s[0], Sort(s[1..], less), f, less, less');
    }
  }

  /** The order of `std::string`, in which `std::map` lists its keys. */
  predicate TextLess(a: string, b: string) {
    if a == "" then b != ""
    else if b == "" then false
    else if a[0] != b[0] then a[0] < b[0]
    else TextLess(a[1..], b[1..])
  }

  /** It is a strict total order. */
  lemma {:induction false} TextOrder(a: string, b: string, c: string)
    ensures !TextLess(a, a)
    ensures TextLess(a, b) && TextLess(b, c) ==> TextLess(a, c)
    ensures TextLess(a, b) || TextLess(b, a) || a == b
  {
    if a != "" {
      var b', c' := if b == "" then "" else b[1..], if c == "" then "" else c[1..];
      TextOrder(a[1..], b', c');
      assert a == [a[0]] + a[1..] && (b != "" ==> b == [b[0]] + b[1..]);
    }
  }

  lemma TextsAreOrdered()
    ensures StrictWeakOrder(TextLess)
  {
    forall a, b ensures TextLess(a, b) ==> !TextLess(b, a) {
      TextOrder(a, b, a);
    }
    forall a, b, c ensures !TextLess(a, b) && !TextLess(b, c) ==> !TextLess(a, c) {
      TextOrder(a, b, c);
      TextOrder(c, b, a);
      TextOrder(a, c, b);
    }
  }
}
