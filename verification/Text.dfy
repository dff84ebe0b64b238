/** Text helpers shared by the models: decimal numbers as `strconv` prints and
    reads them, and strings in the byte order `sort.Strings` uses. */
module Text {

  datatype Option<+T> = None | Some(value: T)

  lemma {:induction false} Associates<T>(a: seq<T>, b: seq<T>, c: seq<T>)
    ensures (a + b) + c == a + (b + c)
  {
  }

  // ---------------------------------------------------------------- decimals

  function Digit(d: nat): char
    requires d < 10
  {
    '0' + d as char
  }

  predicate IsDigit(c: char) {
    '0' <= c <= '9'
  }

  /** A natural number in decimal, without leading zeros. */
  function Itoa(n: nat): (s: string)
    ensures |s| > 0
  {
    if n < 10 then [Digit(n)] else Itoa(n / 10) + [Digit(n % 10)]
  }

  /** The number a run of decimal digits denotes, or None for anything else. */
  function Atou(s: string): Option<nat> {
    if s == [] || !IsDigit(s[|s| - 1]) then None
    else
      var d := (s[|s| - 1] - '0') as nat;
      if |s| == 1 then Some(d)
      else match Atou(s[..|s| - 1])
        case None => None
        case Some(n) => Some(10 * n + d)
  }

  /** Reading back a printed number gives the number. */
  lemma {:induction false} AtouItoa(n: nat)
    ensures Atou(Itoa(n)) == Some(n)
  {
    if n >= 10 {
      AtouItoa(n / 10);
      var s := Itoa(n);
      assert s[..|s| - 1] == Itoa(n / 10);
      assert s[|s| - 1] == Digit(n % 10);
    }
  }

  /** Distinct numbers print differently. */
  lemma {:induction false} ItoaInjective(m: nat, n: nat)
    requires Itoa(m) == Itoa(n)
    ensures m == n
  {
    AtouItoa(m);
    AtouItoa(n);
  }

  lemma {:induction false} ItoaDigits(n: nat)
    ensures forall i :: 0 <= i < |Itoa(n)| ==> IsDigit(Itoa(n)[i])
  {
    if n >= 10 { ItoaDigits(n / 10); }
  }

  // ------------------------------------------------------------------ order

  /** The order of Go string comparison. */
  predicate Le(a: string, b: string) {
    a == [] || (b != [] && (a[0] < b[0] || (a[0] == b[0] && Le(a[1..], b[1..]))))
  }

  lemma {:induction false} LeTotal(a: string, b: string)
    ensures Le(a, b) || Le(b, a)
  {
    if a != [] && b != [] && a[0] == b[0] { LeTotal(a[1..], b[1..]); }
  }

  lemma {:induction false} LeAntisymmetric(a: string, b: string)
    requires Le(a, b) && Le(b, a)
    ensures a == b
  {
    if a != [] {
      LeAntisymmetric(a[1..], b[1..]);
      assert a == [a[0]] + a[1..] && b == [b[0]] + b[1..];
    }
  }

  lemma {:induction false} LeTransitive(a: string, b: string, c: string)
    requires Le(a, b) && Le(b, c)
    ensures Le(a, c)
  {
    if a != [] && a[0] == b[0] && b[0] == c[0] { LeTransitive(a[1..], b[1..], c[1..]); }
  }

  predicate IsLeast(x: string, s: set<string>) {
    x in s && forall y :: y in s ==> Le(x, y)
  }

  lemma {:induction false} LeastExists(s: set<string>)
    requires s != {}
    ensures exists x :: IsLeast(x, s)
    decreases |s|
  {
    var x :| x in s;
    var rest := s - {x};
    LeTotal(x, x);
    if rest == {} {
      assert s == {x};
      assert IsLeast(x, s);
    } else {
      LeastExists(rest);
      var y :| IsLeast(y, rest);
      LeTotal(x, y);
      if Le(x, y) {
        forall z | z in s ensures Le(x, z) {
          if z != x { assert z in rest; LeTransitive(x, y, z); }
        }
        assert IsLeast(x, s);
      } else {
        assert IsLeast(y, s);
      }
    }
  }

  function Least(s: set<string>): (x: string)
    requires s != {}
    ensures x in s
  {
    LeastExists(s);
    assert forall x, y | IsLeast(x, s) && IsLeast(y, s) :: x == y by {
      forall x, y | IsLeast(x, s) && IsLeast(y, s) ensures x == y { LeAntisymmetric(x, y); }
    }
    var x :| IsLeast(x, s);
    x
  }

  ghost predicate Ascending(names: seq<string>) {
    forall i, j :: 0 <= i < j < |names| ==> names[i] != names[j] && Le(names[i], names[j])
  }

  ghost predicate Lists(names: seq<string>, s: set<string>) {
    forall x :: x in names <==> x in s
  }

  /** The elements of a set in ascending order, each once: the keys of a Go
      map collected and sorted. */
  function Sorted(s: set<string>): (names: seq<string>)
    ensures Lists(names, s)
    decreases |s|
  {
    if s == {} then [] else
      var x := Least(s);
      [x] + Sorted(s - {x})
  }

  lemma {:induction false} SortedAscending(s: set<string>)
    ensures Ascending(Sorted(s))
    decreases |s|
  {
    if s != {} {
      var x := Least(s);
      var rest := Sorted(s - {x});
      assert IsLeast(x, s) by { LeastExists(s); }
      SortedAscending(s - {x});
      assert forall j | 0 <= j < |rest| :: rest[j] in s - {x};
    }
  }

  /** `sort.Strings` on a list that may repeat a string. */
  function SortedList(names: seq<string>): seq<string> {
    if names == [] then [] else Inserted(names[0], SortedList(names[1..]))
  }

  function Inserted(x: string, sorted: seq<string>): seq<string> {
    if sorted == [] then [x]
    else if Le(x, sorted[0]) then [x] + sorted
    else [sorted[0]] + Inserted(x, sorted[1..])
  }

  ghost predicate InOrder(names: seq<string>) {
    forall i, j :: 0 <= i < j < |names| ==> Le(names[i], names[j])
  }

  lemma {:induction false} InsertedSorts(x: string, sorted: seq<string>)
    requires InOrder(sorted)
    ensures multiset(Inserted(x, sorted)) == multiset(sorted) + multiset{x}
    ensures InOrder(Inserted(x, sorted))
  {
    if sorted != [] {
      assert sorted == [sorted[0]] + sorted[1..];
      if Le(x, sorted[0]) {
        forall j | 0 <= j < |sorted| ensures Le(x, sorted[j]) {
          if j > 0 { LeTransitive(x, sorted[0], sorted[j]); }
        }
      } else {
        LeTotal(x, sorted[0]);
        var rest := Inserted(x, sorted[1..]);
        InsertedSorts(x, sorted[1..]);
        forall j | 0 <= j < |rest| ensures Le(sorted[0], rest[j]) {
          assert rest[j] in multiset(rest);
          if rest[j] != x { assert rest[j] in sorted[1..]; }
        }
      }
    }
  }

  /** Sorting keeps every string as often as it occurs. */
  lemma {:induction false} SortedListSorts(names: seq<string>)
    ensures multiset(SortedList(names)) == multiset(names)
    ensures InOrder(SortedList(names))
  {
    if names != [] {
      SortedListSorts(names[1..]);
      InsertedSorts(names[0], SortedList(names[1..]));
      assert names == [names[0]] + names[1..];
    }
  }
}
