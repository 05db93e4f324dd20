/** Option and Result values. */
module Wrappers {
  datatype Option<+T> = None | Some(value: T)

  datatype Result<+T, +E> = Ok(value: T) | Err(error: E) {
    predicate IsFailure() {
      Err?
    }

    function PropagateFailure<U>(): Result<U, E>
      requires Err?
    {
      Err(error)
    }

    function Extract(): T
      requires Ok?
    {
      value
    }
  }
}

/** The order, the case mapping and the number formatting that the program applies to strings. */
module Text {

  /** Go's `<` on strings. */
  predicate Lt(a: string, b: string) {
    |b| > 0 && (|a| == 0 || a[0] < b[0] || (a[0] == b[0] && Lt(a[1..], b[1..])))
  }

  lemma {:induction false} LtIrreflexive(a: string)
    ensures !Lt(a, a)
  {
    if a != [] { LtIrreflexive(a[1..]); }
  }

  lemma {:induction false} LtTransitive(a: string, b: string, c: string)
    requires Lt(a, b) && Lt(b, c)
    ensures Lt(a, c)
  {
    if a != [] && a[0] == b[0] && b[0] == c[0] {
      LtTransitive(a[1..], b[1..], c[1..]);
    }
  }

  lemma {:induction false} LtConnected(a: string, b: string)
    requires a != b
    ensures Lt(a, b) || Lt(b, a)
  {
    if a != [] && b != [] && a[0] == b[0] {
      assert a == [a[0]] + a[1..] && b == [b[0]] + b[1..];
      LtConnected(a[1..], b[1..]);
    }
  }

  lemma LtAsymmetric(a: string, b: string)
    ensures !(Lt(a, b) && Lt(b, a))
  {
    if Lt(a, b) && Lt(b, a) {
      LtTransitive(a, b, a);
      LtIrreflexive(a);
    }
  }

  /** A proper extension of a string is greater than the string. */
  lemma {:induction false} LtExtension(a: string, b: string)
    requires a <= b && a != b
    ensures Lt(a, b)
  {
    if a != [] {
      LtExtension(a[1..], b[1..]);
    }
  }

  function LowerChar(c: char): char {
    if 'A' <= c <= 'Z' then c - 'A' + 'a' else c
  }

  function UpperChar(c: char): char {
    if 'a' <= c <= 'z' then c - 'a' + 'A' else c
  }

  function ToLower(s: string): (r: string)
    ensures |r| == |s|
  {
    seq(|s|, i requires 0 <= i < |s| => LowerChar(s[i]))
  }

  function ToUpper(s: string): (r: string)
    ensures |r| == |s|
  {
    seq(|s|, i requires 0 <= i < |s| => UpperChar(s[i]))
  }

  lemma ToLowerIdempotent(s: string)
    ensures ToLower(ToLower(s)) == ToLower(s)
  {
  }

  function Digit(n: nat): char
    requires n < 10
  {
    '0' + n as char
  }

  function Digits(n: nat): (r: string)
    ensures r != [] && '0' <= r[0] <= '9'
    decreases n
  {
    if n < 10 then [Digit(n)] else Digits(n / 10) + [Digit(n % 10)]
  }

  /** strconv.Itoa */
  function Itoa(n: int): string {
    if n < 0 then ['-'] + Digits(-n) else Digits(n)
  }

  lemma {:induction false} DigitsInjective(m: nat, n: nat)
    requires Digits(m) == Digits(n)
    ensures m == n
    decreases m
  {
    var dm, dn := Digits(m), Digits(n);
    assert dm[|dm| - 1] == Digit(m % 10) && dn[|dn| - 1] == Digit(n % 10);
    if m >= 10 && n >= 10 {
      assert dm[..|dm| - 1] == Digits(m / 10) && dn[..|dn| - 1] == Digits(n / 10);
      DigitsInjective(m / 10, n / 10);
    }
  }

  lemma ItoaInjective(m: int, n: int)
    requires Itoa(m) == Itoa(n)
    ensures m == n
  {
    var a, b := Itoa(m), Itoa(n);
    if m < 0 && n < 0 {
      assert a[1..] == Digits(-m) && b[1..] == Digits(-n);
      DigitsInjective(-m, -n);
    } else if m >= 0 && n >= 0 {
      DigitsInjective(m, n);
    }
  }
}

/** Sorting by a comparison function, as Go's sort package is used: the algorithm is the
    library's, so the facts below speak of any sorted permutation. */
module Sorting {
  import opened Text

  ghost predicate Irreflexive<T(!new)>(less: (T, T) -> bool, dom: set<T>) {
    forall x :: x in dom ==> !less(x, x)
  }

  ghost predicate Transitive<T(!new)>(less: (T, T) -> bool, dom: set<T>) {
    forall x, y, z :: x in dom && y in dom && z in dom && less(x, y) && less(y, z) ==> less(x, z)
  }

  /** Whatever lies strictly between two elements is told apart from one of them. */
  ghost predicate Separating<T(!new)>(less: (T, T) -> bool, dom: set<T>) {
    forall x, y, z :: x in dom && y in dom && z in dom && less(x, z) ==> less(x, y) || less(y, z)
  }

  ghost predicate StrictWeakOrder<T(!new)>(less: (T, T) -> bool, dom: set<T>) {
    Irreflexive(less, dom) && Transitive(less, dom) && Separating(less, dom)
  }

  ghost predicate Sorted<T(!new)>(less: (T, T) -> bool, s: seq<T>) {
    forall i, j :: 0 <= i < j < |s| ==> !less(s[j], s[i])
  }

  function Elements<T>(s: seq<T>): set<T> {
    set x | x in s
  }

  function Insert<T>(less: (T, T) -> bool, x: T, s: seq<T>): seq<T> {
    if s == [] || !less(s[0], x) then [x] + s else [s[0]] + Insert(less, x, s[1..])
  }

  /** A stable sort. */
  function Sort<T>(less: (T, T) -> bool, s: seq<T>): seq<T> {
    if s == [] then [] else Insert(less, s[0], Sort(less, s[1..]))
  }

  lemma {:induction false} InsertPermutes<T>(less: (T, T) -> bool, x: T, s: seq<T>)
    ensures multiset(Insert(less, x, s)) == multiset{x} + multiset(s)
  {
    if s != [] && less(s[0], x) {
      InsertPermutes(less, x, s[1..]);
      assert s == [s[0]] + s[1..];
    }
  }

  lemma {:induction false} SortPermutes<T>(less: (T, T) -> bool, s: seq<T>)
    ensures multiset(Sort(less, s)) == multiset(s)
  {
    if s != [] {
      SortPermutes(less, s[1..]);
      InsertPermutes(less, s[0], Sort(less, s[1..]));
      assert s == [s[0]] + s[1..];
    }
  }

  lemma SameElements<T>(s: seq<T>, t: seq<T>)
    requires multiset(s) == multiset(t)
    ensures |s| == |t| && Elements(s) == Elements(t)
    ensures forall x :: x in s <==> x in t
  {
    assert |s| == |multiset(s)| == |multiset(t)| == |t|;
    forall x ensures x in s <==> x in t {
      assert x in s <==> x in multiset(s);
      assert x in t <==> x in multiset(t);
    }
  }

  lemma {:induction false} InsertKeepsSorted<T(!new)>(less: (T, T) -> bool, x: T, s: seq<T>, dom: set<T>)
    requires StrictWeakOrder(less, dom)
    requires x in dom && forall y :: y in s ==> y in dom
    requires Sorted(less, s)
    ensures Sorted(less, Insert(less, x, s))
  {
    if s == [] {
    } else if !less(s[0], x) {
      var r := [x] + s;
      forall i, j | 0 <= i < j < |r| ensures !less(r[j], r[i]) {
        if i == 0 && j > 1 {
          assert r[j] == s[j - 1] && !less(s[j - 1], s[0]);
        }
      }
    } else {
      var t := Insert(less, x, s[1..]);
      InsertKeepsSorted(less, x, s[1..], dom);
      InsertPermutes(less, x, s[1..]);
      var r := [s[0]] + t;
      forall i, j | 0 <= i < j < |r| ensures !less(r[j], r[i]) {
        if i == 0 {
          assert r[j] in multiset(t);
          assert r[j] == x || r[j] in s[1..];
        } else {
          assert r[i] == t[i - 1] && r[j] == t[j - 1];
        }
      }
    }
  }

  lemma {:induction false} SortSorts<T(!new)>(less: (T, T) -> bool, s: seq<T>, dom: set<T>)
    requires StrictWeakOrder(less, dom)
    requires forall y :: y in s ==> y in dom
    ensures Sorted(less, Sort(less, s))
  {
    if s != [] {
      SortSorts(less, s[1..], dom);
      SortPermutes(less, s[1..]);
      SameElements(Sort(less, s[1..]), s[1..]);
      InsertKeepsSorted(less, s[0], Sort(less, s[1..]), dom);
    }
  }

  lemma ConcatAssociates<T>(a: seq<T>, b: seq<T>, c: seq<T>)
    ensures (a + b) + c == a + (b + c)
  {
  }

  lemma SplitLast<T>(a: seq<T>, b: seq<T>)
    requires b != []
    ensures (a + b)[..|a + b| - 1] == a + b[..|b| - 1] && (a + b)[|a + b| - 1] == b[|b| - 1]
  {
  }

  function Map<T, U>(f: T -> U, s: seq<T>): (r: seq<U>)
    ensures |r| == |s| && forall i :: 0 <= i < |s| ==> r[i] == f(s[i])
  {
    if s == [] then [] else [f(s[0])] + Map(f, s[1..])
  }

  /** Elements that the comparison does not tell apart have the same image. */
  ghost predicate TiesAgree<T(!new), U(!new)>(less: (T, T) -> bool, f: T -> U, dom: set<T>) {
    forall x, y :: x in dom && y in dom && !less(x, y) && !less(y, x) ==> f(x) == f(y)
  }

  function Without<T>(t: seq<T>, j: nat): seq<T>
    requires j < |t|
  {
    t[..j] + t[j + 1..]
  }

  lemma WithoutPermutes<T>(s: seq<T>, t: seq<T>, j: nat)
    requires s != [] && j < |t| && t[j] == s[0] && multiset(s) == multiset(t)
    ensures multiset(s[1..]) == multiset(Without(t, j))
  {
    var head, tail := t[..j], t[j + 1..];
    assert t == head + ([t[j]] + tail);
    assert multiset(t) == multiset(head) + (multiset{t[j]} + multiset(tail));
    assert multiset(head + tail) == multiset(head) + multiset(tail);
    assert s == [s[0]] + s[1..];
    assert multiset(s[1..]) == multiset(s) - multiset{s[0]};
    assert multiset(head + tail) == multiset(t) - multiset{t[j]};
  }

  /** A total over the items of a list. */
  function Total<T, U>(f: T -> multiset<U>, s: seq<T>): multiset<U> {
    if s == [] then multiset{} else f(s[0]) + Total(f, s[1..])
  }

  lemma {:induction false} TotalConcat<T, U>(f: T -> multiset<U>, s: seq<T>, t: seq<T>)
    ensures Total(f, s + t) == Total(f, s) + Total(f, t)
  {
    if s == [] {
      assert s + t == t;
    } else {
      assert (s + t)[0] == s[0] && (s + t)[1..] == s[1..] + t;
      TotalConcat(f, s[1..], t);
    }
  }

  lemma {:induction false} TotalIgnoresOrder<T, U>(f: T -> multiset<U>, s: seq<T>, t: seq<T>)
    requires multiset(s) == multiset(t)
    ensures Total(f, s) == Total(f, t)
    decreases |s|
  {
    SameElements(s, t);
    if s != [] {
      assert s[0] in t;
      var j :| 0 <= j < |t| && t[j] == s[0];
      WithoutPermutes(s, t, j);
      TotalIgnoresOrder(f, s[1..], Without(t, j));
      assert t == t[..j] + ([t[j]] + t[j + 1..]);
      TotalConcat(f, t[..j], [t[j]] + t[j + 1..]);
      TotalConcat(f, t[..j], t[j + 1..]);
      assert ([t[j]] + t[j + 1..])[1..] == t[j + 1..];
    }
  }

  lemma SortedWithout<T(!new)>(less: (T, T) -> bool, t: seq<T>, j: nat)
    requires j < |t| && Sorted(less, t)
    ensures Sorted(less, Without(t, j))
  {
  }

  /** In a sorted permutation everything before the least element ties with it. */
  lemma TiedPrefix<T(!new), U(!new)>(
    less: (T, T) -> bool, f: T -> U, s: seq<T>, t: seq<T>, j: nat, k: nat, dom: set<T>)
    requires StrictWeakOrder(less, dom) && TiesAgree(less, f, dom)
    requires forall y :: y in s ==> y in dom
    requires Sorted(less, s) && Sorted(less, t) && multiset(s) == multiset(t)
    requires s != [] && k <= j < |t| && t[j] == s[0]
    ensures f(t[k]) == f(s[0])
  {
    SameElements(s, t);
    assert t[k] in t;
    var m :| 0 <= m < |s| && s[m] == t[k];
    assert !less(s[m], s[0]);
    assert !less(t[j], t[k]);
  }

  /** Two sorted permutations of the same elements have the same image under a function that
      respects ties, whatever the sorting algorithm does with ties. */
  lemma {:induction false} SortedImagesEqual<T(!new), U(!new)>(
    less: (T, T) -> bool, f: T -> U, s: seq<T>, t: seq<T>, dom: set<T>)
    requires StrictWeakOrder(less, dom) && TiesAgree(less, f, dom)
    requires forall y :: y in s ==> y in dom
    requires Sorted(less, s) && Sorted(less, t) && multiset(s) == multiset(t)
    ensures |s| == |t| && forall i :: 0 <= i < |s| ==> f(s[i]) == f(t[i])
    decreases |s|
  {
    SameElements(s, t);
    if s != [] {
      assert s[0] in t;
      var j :| 0 <= j < |t| && t[j] == s[0];
      var rest := Without(t, j);
      WithoutPermutes(s, t, j);
      SortedWithout(less, t, j);
      assert Sorted(less, s[1..]);
      SortedImagesEqual(less, f, s[1..], rest, dom);
      forall i | 0 <= i < |s| ensures f(s[i]) == f(t[i]) {
        if i <= j {
          TiedPrefix(less, f, s, t, j, i, dom);
        }
        if i > 0 {
          assert s[i] == s[1..][i - 1];
          if i <= j {
            assert rest[i - 1] == t[i - 1];
            TiedPrefix(less, f, s, t, j, i - 1, dom);
          }
        }
      }
    }
  }

  /** A comparison that tells all elements apart leaves one sorted permutation. */
  lemma SortedUnique<T(!new)>(less: (T, T) -> bool, s: seq<T>, t: seq<T>, dom: set<T>)
    requires StrictWeakOrder(less, dom) && TiesAgree(less, (x: T) => x, dom)
    requires forall y :: y in s ==> y in dom
    requires Sorted(less, s) && Sorted(less, t) && multiset(s) == multiset(t)
    ensures s == t
  {
    SortedImagesEqual(less, (x: T) => x, s, t, dom);
  }

  /** The elements of a set, once each, in some order. */
  ghost function Listing<T>(s: set<T>): seq<T>
    decreases |s|
  {
    if s == {} then [] else var x :| x in s; [x] + Listing(s - {x})
  }

  lemma {:induction false} ListingElements<T>(s: set<T>)
    ensures multiset(Listing(s)) == multiset(s)
    ensures forall x :: x in Listing(s) <==> x in s
    decreases |s|
  {
    if s != {} {
      var x := Listing(s)[0];
      ListingElements(s - {x});
      assert Listing(s) == [x] + Listing(s - {x});
      assert s == {x} + (s - {x});
    }
  }

  ghost predicate Distinct<T>(s: seq<T>) {
    forall i, j :: 0 <= i < j < |s| ==> s[i] != s[j]
  }

  method List<T(==)>(s: set<T>) returns (r: seq<T>)
    ensures multiset(r) == multiset(s) && Distinct(r)
    ensures Elements(r) == s && forall x :: x in r <==> x in s
  {
    r := [];
    var rest := s;
    while rest != {}
      invariant rest <= s && multiset(r) + multiset(rest) == multiset(s)
      invariant Distinct(r) && Elements(r) == s - rest
      decreases |rest|
    {
      var x :| x in rest;
      assert rest == {x} + (rest - {x});
      assert x !in Elements(r);
      assert Elements(r + [x]) == Elements(r) + {x};
      r := r + [x];
      rest := rest - {x};
    }
    forall x ensures x in r <==> x in s {
      assert x in r <==> x in multiset(r);
      assert x in s <==> x in multiset(s);
    }
  }

  lemma NextElement<T>(s: seq<T>, i: nat)
    requires i < |s| && Distinct(s)
    ensures s[i] !in Elements(s[..i]) && s[i] in Elements(s) && Elements(s[..i]) <= Elements(s)
    ensures Elements(s[..i + 1]) == Elements(s[..i]) + {s[i]}
  {
    assert s[..i + 1] == s[..i] + [s[i]];
  }

  lemma OneMore<T>(s: seq<T>, i: nat)
    requires i < |s|
    ensures s[..i + 1] == s[..i] + [s[i]] && s[i] in s
  {
  }

  /** However a set is listed, sorting the list gives the same sequence. */
  lemma ListingSorted<T(!new)>(less: (T, T) -> bool, s: set<T>, r: seq<T>)
    requires StrictWeakOrder(less, s) && TiesAgree(less, (x: T) => x, s)
    requires multiset(r) == multiset(s)
    ensures Sort(less, r) == Sort(less, Listing(s))
  {
    ListingElements(s);
    SameElements(r, Listing(s));
    SortPermutes(less, r);
    SortPermutes(less, Listing(s));
    SortSorts(less, r, s);
    SortSorts(less, Listing(s), s);
    SameElements(Sort(less, r), r);
    SortedUnique(less, Sort(less, r), Sort(less, Listing(s)), s);
  }

  predicate IntLess(a: int, b: int) { a < b }

  lemma IntOrder(dom: set<int>)
    ensures StrictWeakOrder(IntLess, dom) && TiesAgree(IntLess, (x: int) => x, dom)
  {
  }

  lemma StringOrder(dom: set<string>)
    ensures StrictWeakOrder(Lt, dom) && TiesAgree(Lt, (x: string) => x, dom)
  {
    forall x: string, y: string ensures !Lt(x, x) && (x != y ==> Lt(x, y) || Lt(y, x)) {
      LtIrreflexive(x);
      if x != y { LtConnected(x, y); }
    }
    forall x: string, y: string, z: string | Lt(x, y) && Lt(y, z) ensures Lt(x, z) {
      LtTransitive(x, y, z);
    }
    forall x: string, y: string, z: string | Lt(x, z) ensures Lt(x, y) || Lt(y, z) {
      if x != y && !Lt(x, y) {
        LtTransitive(y, x, z);
      }
    }
  }
}

/** The "seen" loops: keep the first occurrence of every element. */
module Dedupe {

  function FirstOccurrences<T>(s: seq<T>, seen: set<T>): seq<T> {
    if s == [] then []
    else if s[0] in seen then FirstOccurrences(s[1..], seen)
    else [s[0]] + FirstOccurrences(s[1..], seen + {s[0]})
  }

  method KeepFirst<T(==)>(s: seq<T>) returns (r: seq<T>)
    ensures r == FirstOccurrences(s, {})
  {
    r := [];
    var seen: set<T> := {};
    for i := 0 to |s|
      invariant FirstOccurrences(s, {}) == r + FirstOccurrences(s[i..], seen)
    {
      assert s[i..][0] == s[i] && s[i..][1..] == s[i + 1..];
      if s[i] !in seen {
        seen := seen + {s[i]};
        r := r + [s[i]];
      }
    }
  }

  /** Nothing is lost, nothing is added, and nothing occurs twice. */
  lemma {:induction false} FirstOccurrencesElements<T>(s: seq<T>, seen: set<T>)
    ensures forall x :: x in FirstOccurrences(s, seen) <==> x in s && x !in seen
    ensures forall i, j :: 0 <= i < j < |FirstOccurrences(s, seen)| ==>
      FirstOccurrences(s, seen)[i] != FirstOccurrences(s, seen)[j]
    decreases |s|
  {
    if s != [] {
      assert s == [s[0]] + s[1..];
      FirstOccurrencesElements(s[1..], if s[0] in seen then seen else seen + {s[0]});
      if s[0] !in seen {
        var rest := FirstOccurrences(s[1..], seen + {s[0]});
        assert s[0] !in rest;
        var r := FirstOccurrences(s, seen);
        forall i, j | 0 <= i < j < |r| ensures r[i] != r[j] {
          assert r[j] == rest[j - 1];
          if i > 0 { assert r[i] == rest[i - 1]; }
        }
      }
    }
  }
}

/** Loops that stop at the first error, and induction over them. */
module Folding {
  import opened Wrappers

  function Fold<S, A, E>(step: (S, A) -> Result<S, E>, s: S, xs: seq<A>): Result<S, E>
    decreases |xs|
  {
    if xs == [] then Ok(s) else
      var s' :- step(s, xs[0]);
      Fold(step, s', xs[1..])
  }

  /** A loop over two stretches of items is the first loop followed by the second. */
  lemma {:induction false} FoldConcat<S, A, E>(step: (S, A) -> Result<S, E>, s: S, xs: seq<A>, ys: seq<A>)
    ensures Fold(step, s, xs + ys) == match Fold(step, s, xs) case Err(e) => Err(e) case Ok(s') => Fold(step, s', ys)
    decreases |xs|
  {
    if xs == [] {
      assert xs + ys == ys;
    } else {
      assert (xs + ys)[0] == xs[0] && (xs + ys)[1..] == xs[1..] + ys;
      if step(s, xs[0]).Ok? {
        FoldConcat(step, step(s, xs[0]).value, xs[1..], ys);
      }
    }
  }

  lemma FoldOne<S, A, E>(step: (S, A) -> Result<S, E>, s: S, x: A)
    ensures Fold(step, s, [x]) == step(s, x)
  {
    if step(s, x).Ok? {
      assert Fold(step, step(s, x).value, [x][1..]) == step(s, x);
    }
  }

  lemma FoldFromStart<S(!new), A(!new), E>(
    step: (S, A) -> Result<S, E>, ok: seq<A> -> bool, inv: (seq<A>, S) -> bool, s: S, xs: seq<A>)
    requires PrefixClosed(ok) && StepRespects(step, ok, inv) && ok([]) && inv([], s)
    ensures Fold(step, s, xs).Ok? <==> ok(xs)
    ensures Fold(step, s, xs).Ok? ==> inv(xs, Fold(step, s, xs).value)
  {
    assert [] + xs == xs;
    FoldInvariant(step, ok, inv, s, [], xs);
  }

  /** What every accepted step keeps, the whole loop keeps. */
  lemma {:induction false} FoldKeeps<S(!new), A(!new), E>(step: (S, A) -> Result<S, E>, holds: S -> bool, s: S, xs: seq<A>)
    requires forall t, x :: holds(t) && step(t, x).Ok? ==> holds(step(t, x).value)
    requires holds(s)
    ensures Fold(step, s, xs).Ok? ==> holds(Fold(step, s, xs).value)
    decreases |xs|
  {
    if xs != [] && step(s, xs[0]).Ok? {
      FoldKeeps(step, holds, step(s, xs[0]).value, xs[1..]);
    }
  }

  /** A loop that fails does so at some item, in the state the items before it have led to. */
  lemma {:induction false} FoldFailure<S, A, E>(step: (S, A) -> Result<S, E>, s: S, xs: seq<A>) returns (n: nat)
    requires Fold(step, s, xs).Err?
    ensures n < |xs| && Fold(step, s, xs[..n]).Ok? && step(Fold(step, s, xs[..n]).value, xs[n]) == Fold(step, s, xs)
    decreases |xs|
  {
    if step(s, xs[0]).Err? {
      n := 0;
    } else {
      var m := FoldFailure(step, step(s, xs[0]).value, xs[1..]);
      n := m + 1;
      assert xs[..n][0] == xs[0] && xs[..n][1..] == xs[1..][..m];
    }
  }

  ghost predicate PrefixClosed<A(!new)>(ok: seq<A> -> bool) {
    forall d, e :: ok(d + e) ==> ok(d)
  }

  ghost predicate StepRespects<S(!new), A(!new), E>(step: (S, A) -> Result<S, E>, ok: seq<A> -> bool, inv: (seq<A>, S) -> bool) {
    forall d, s, x :: inv(d, s) ==>
      (step(s, x).Ok? <==> ok(d + [x])) && (step(s, x).Ok? ==> inv(d + [x], step(s, x).value))
  }

  /** A loop whose every step is accepted exactly when the items so far are ok is accepted exactly
      when all the items are, and keeps its invariant. */
  lemma {:induction false} FoldInvariant<S(!new), A(!new), E>(
    step: (S, A) -> Result<S, E>, ok: seq<A> -> bool, inv: (seq<A>, S) -> bool, s: S, done: seq<A>, xs: seq<A>)
    requires PrefixClosed(ok) && StepRespects(step, ok, inv)
    requires ok(done) && inv(done, s)
    ensures Fold(step, s, xs).Ok? <==> ok(done + xs)
    ensures Fold(step, s, xs).Ok? ==> inv(done + xs, Fold(step, s, xs).value)
    decreases |xs|
  {
    if xs == [] {
      assert done + xs == done;
    } else {
      assert done + xs == (done + [xs[0]]) + xs[1..];
      if step(s, xs[0]).Ok? {
        FoldInvariant(step, ok, inv, step(s, xs[0]).value, done + [xs[0]], xs[1..]);
      }
    }
  }
}
