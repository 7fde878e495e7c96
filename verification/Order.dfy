/** String order, and sorting as the Go library promises it: the one sorted arrangement that keeps equal
    elements in their original order. */
module Order {
  /** Byte order on strings. */
  predicate LexLess(a: string, b: string) {
    b != [] && (a == [] || a[0] < b[0] || (a[0] == b[0] && LexLess(a[1..], b[1..])))
  }

  lemma {:induction false} LexTrichotomy(a: string, b: string)
    ensures a == b || LexLess(a, b) || LexLess(b, a)
    ensures !(LexLess(a, b) && LexLess(b, a))
    ensures !LexLess(a, a)
  {
    if a != [] && b != [] {
      LexTrichotomy(a[1..], b[1..]);
      assert a == [a[0]] + a[1..] && b == [b[0]] + b[1..];
    }
    if a != [] {
      LexTrichotomy(a[1..], a[1..]);
    }
  }

  lemma {:induction false} LexTransitive(a: string, b: string, c: string)
    requires LexLess(a, b) && LexLess(b, c)
    ensures LexLess(a, c)
  {
    if a != [] && a[0] == b[0] == c[0] {
      LexTransitive(a[1..], b[1..], c[1..]);
    }
  }

  /** Asymmetric, transitive, and "neither is less" is transitive too. */
  ghost predicate StrictWeakOrder<T(!new)>(less: (T, T) -> bool) {
    && (forall x, y :: less(x, y) ==> !less(y, x))
    && (forall x, y, z :: less(x, y) && less(y, z) ==> less(x, z))
    && (forall x, y, z :: !less(x, y) && !less(y, z) ==> !less(x, z))
  }

  /** Of two elements in order, the lower is below `k` or the higher is above it. */
  ghost predicate Separates<T(!new)>(less: (T, T) -> bool, k: T) {
    forall y, z :: less(y, z) ==> less(y, k) || less(k, z)
  }

  lemma EverythingSeparates<T(!new)>(less: (T, T) -> bool, k: T)
    requires StrictWeakOrder(less)
    ensures Separates(less, k)
  {
  }

  ghost predicate Sorted<T>(less: (T, T) -> bool, s: seq<T>) {
    forall i, j :: 0 <= i < j < |s| ==> !less(s[j], s[i])
  }

  ghost predicate Ascending<T>(less: (T, T) -> bool, s: seq<T>) {
    forall i, j :: 0 <= i < j < |s| ==> less(s[i], s[j])
  }

  /** The elements of `s` that are neither less nor greater than `k`, in order. */
  function Class<T>(less: (T, T) -> bool, k: T, s: seq<T>): seq<T> {
    if s == [] then []
    else (if !less(s[0], k) && !less(k, s[0]) then [s[0]] else []) + Class(less, k, s[1..])
  }

  /** In front of the first element that is not less. */
  function Insert<T>(less: (T, T) -> bool, x: T, s: seq<T>): seq<T> {
    if s == [] || !less(s[0], x) then [x] + s else [s[0]] + Insert(less, x, s[1..])
  }

  function StableSort<T>(less: (T, T) -> bool, s: seq<T>): seq<T> {
    if s == [] then [] else Insert(less, s[0], StableSort(less, s[1..]))
  }

  lemma {:induction false} InsertElements<T>(less: (T, T) -> bool, x: T, s: seq<T>)
    ensures multiset(Insert(less, x, s)) == multiset{x} + multiset(s)
  {
    if s != [] && less(s[0], x) {
      InsertElements(less, x, s[1..]);
      assert s == [s[0]] + s[1..];
    }
  }

  lemma {:induction false} InsertSorted<T(!new)>(less: (T, T) -> bool, x: T, s: seq<T>)
    requires StrictWeakOrder(less) && Sorted(less, s)
    ensures Sorted(less, Insert(less, x, s))
  {
    if s != [] && less(s[0], x) {
      var rest := Insert(less, x, s[1..]);
      InsertSorted(less, x, s[1..]);
      InsertElements(less, x, s[1..]);
      forall j | 0 <= j < |rest| ensures !less(rest[j], s[0]) {
        assert rest[j] in multiset(rest);
        assert rest[j] == x || rest[j] in s[1..];
      }
    }
  }

  lemma {:induction false} InsertClass<T(!new)>(less: (T, T) -> bool, x: T, s: seq<T>, k: T)
    requires Separates(less, k)
    ensures Class(less, k, Insert(less, x, s)) == Class(less, k, [x]) + Class(less, k, s)
  {
    if s != [] && less(s[0], x) {
      InsertClass(less, x, s[1..], k);
      assert ([s[0]] + Insert(less, x, s[1..]))[1..] == Insert(less, x, s[1..]);
    } else {
      assert ([x] + s)[1..] == s;
    }
  }

  lemma {:induction false} StableSortElements<T>(less: (T, T) -> bool, s: seq<T>)
    ensures multiset(StableSort(less, s)) == multiset(s)
  {
    if s != [] {
      StableSortElements(less, s[1..]);
      InsertElements(less, s[0], StableSort(less, s[1..]));
      assert s == [s[0]] + s[1..];
    }
  }

  lemma {:induction false} StableSortSorted<T(!new)>(less: (T, T) -> bool, s: seq<T>)
    requires StrictWeakOrder(less)
    ensures Sorted(less, StableSort(less, s))
  {
    if s != [] {
      StableSortSorted(less, s[1..]);
      InsertSorted(less, s[0], StableSort(less, s[1..]));
    }
  }

  lemma {:induction false} StableSortClass<T(!new)>(less: (T, T) -> bool, s: seq<T>, k: T)
    requires Separates(less, k)
    ensures Class(less, k, StableSort(less, s)) == Class(less, k, s)
  {
    if s != [] {
      StableSortClass(less, s[1..], k);
      InsertClass(less, s[0], StableSort(less, s[1..]), k);
    }
  }

  /** The sort arranges all elements in order and keeps equal elements in their original order. */
  lemma StableSortFacts<T(!new)>(less: (T, T) -> bool, s: seq<T>)
    requires StrictWeakOrder(less)
    ensures Sorted(less, StableSort(less, s))
    ensures multiset(StableSort(less, s)) == multiset(s)
    ensures forall k :: Class(less, k, StableSort(less, s)) == Class(less, k, s)
  {
    StableSortSorted(less, s);
    StableSortElements(less, s);
    forall k ensures Class(less, k, StableSort(less, s)) == Class(less, k, s) {
      EverythingSeparates(less, k);
      StableSortClass(less, s, k);
    }
  }

  lemma {:induction false} ClassHead<T(!new)>(less: (T, T) -> bool, k: T, s: seq<T>)
    ensures Class(less, k, s) != [] ==> Class(less, k, s)[0] in s
    ensures forall x :: x in s && !less(x, k) && !less(k, x) ==> Class(less, k, s) != []
  {
    if s != [] {
      ClassHead(less, k, s[1..]);
    }
  }

  /** It is the only such arrangement. */
  lemma {:induction false} StableArrangementUnique<T(!new)>(less: (T, T) -> bool, r: seq<T>, t: seq<T>)
    requires StrictWeakOrder(less) && Sorted(less, r) && Sorted(less, t)
    requires forall k :: Class(less, k, r) == Class(less, k, t)
    ensures r == t
  {
    if t != [] {
      assert Class(less, t[0], r) == Class(less, t[0], t);
    }
    if r != [] {
      var x := r[0];
      ClassHead(less, x, t);
      assert Class(less, x, r)[0] == x;
      assert t != [];
      var y := t[0];
      ClassHead(less, y, r);
      assert Class(less, y, t)[0] == y;
      assert x == y;
      forall k ensures Class(less, k, r[1..]) == Class(less, k, t[1..]) {
        var own := if !less(x, k) && !less(k, x) then [x] else [];
        assert Class(less, k, r) == own + Class(less, k, r[1..]);
        assert Class(less, k, t) == own + Class(less, k, t[1..]);
        assert (own + Class(less, k, r[1..]))[|own|..] == Class(less, k, r[1..]);
        assert (own + Class(less, k, t[1..]))[|own|..] == Class(less, k, t[1..]);
      }
      StableArrangementUnique(less, r[1..], t[1..]);
    }
  }

  /** `r` has the elements of `s` in order, equal ones as they were. */
  ghost predicate IsStableSort<T(!new)>(less: (T, T) -> bool, r: seq<T>, s: seq<T>) {
    && Sorted(less, r)
    && multiset(r) == multiset(s)
    && forall k :: Class(less, k, r) == Class(less, k, s)
  }

  lemma StableSortExact<T(!new)>(less: (T, T) -> bool, r: seq<T>, s: seq<T>)
    requires StrictWeakOrder(less)
    ensures IsStableSort(less, r, s) <==> r == StableSort(less, s)
  {
    StableSortFacts(less, s);
    if IsStableSort(less, r, s) {
      forall k ensures Class(less, k, r) == Class(less, k, StableSort(less, s)) {
        assert Class(less, k, r) == Class(less, k, s);
      }
      StableArrangementUnique(less, r, StableSort(less, s));
    }
  }

  /** Two ascending sequences with the same elements are the same sequence. */
  lemma {:induction false} AscendingUnique<T(!new)>(less: (T, T) -> bool, r: seq<T>, t: seq<T>)
    requires forall x, y :: less(x, y) ==> !less(y, x)
    requires Ascending(less, r) && Ascending(less, t)
    requires forall x :: x in r <==> x in t
    ensures r == t
  {
    if t != [] {
      assert t[0] in r;
    }
    if r != [] {
      assert r[0] in t;
      assert t[0] in r;
      assert r[0] == t[0];
      assert !less(r[0], r[0]);
      forall x ensures x in r[1..] <==> x in t[1..] {
        assert x in r[1..] ==> x in r && x != r[0];
        assert x in t[1..] ==> x in t && x != t[0];
      }
      AscendingUnique(less, r[1..], t[1..]);
    }
  }

  lemma {:induction false} InsertAscends<T(!new)>(less: (T, T) -> bool, x: T, s: seq<T>)
    requires forall x, y, z :: less(x, y) && less(y, z) ==> less(x, z)
    requires Ascending(less, s) && forall e :: e in s ==> less(e, x) || less(x, e)
    ensures Ascending(less, Insert(less, x, s))
  {
    if s != [] && less(s[0], x) {
      var rest := Insert(less, x, s[1..]);
      InsertAscends(less, x, s[1..]);
      InsertElements(less, x, s[1..]);
      forall j | 0 <= j < |rest| ensures less(s[0], rest[j]) {
        assert rest[j] in multiset(rest);
        assert rest[j] == x || rest[j] in s[1..];
      }
    }
  }

  /** Without ties, sorting gives a strictly ascending sequence. */
  lemma {:induction false} StableSortAscends<T(!new)>(less: (T, T) -> bool, s: seq<T>)
    requires forall x, y, z :: less(x, y) && less(y, z) ==> less(x, z)
    requires forall i, j :: 0 <= i < j < |s| ==> less(s[i], s[j]) || less(s[j], s[i])
    ensures Ascending(less, StableSort(less, s))
  {
    if s != [] {
      var rest := StableSort(less, s[1..]);
      StableSortAscends(less, s[1..]);
      StableSortElements(less, s[1..]);
      forall e | e in rest ensures less(e, s[0]) || less(s[0], e) {
        assert e in multiset(rest);
        assert e in s[1..];
      }
      InsertAscends(less, s[0], rest);
    }
  }
}
