/** Text handling shared by the printers and parsers: splitting, trimming, decimal numbers
    and byte-wise string order, as Go's strings, strconv and sort packages define them. */
module Text {

  datatype Option<+T> = None | Some(value: T)

  // ---------------------------------------------------------------- split and join

  function IndexOf<T(==)>(s: seq<T>, c: T): (i: nat)
    ensures i <= |s| && c !in s[..i]
    ensures i < |s| ==> s[i] == c
  {
    if s == [] || s[0] == c then 0
    else
      var i := 1 + IndexOf(s[1..], c);
      assert s[..i] == [s[0]] + s[1..][..i - 1];
      i
  }

  function Split<T(==)>(s: seq<T>, sep: T): (parts: seq<seq<T>>)
    ensures parts != []
    decreases |s|
  {
    var i := IndexOf(s, sep);
    if i == |s| then [s] else [s[..i]] + Split(s[i + 1..], sep)
  }

  function Join<T>(parts: seq<seq<T>>, sep: T): seq<T>
  {
    if parts == [] then []
    else if |parts| == 1 then parts[0]
    else parts[0] + [sep] + Join(parts[1..], sep)
  }

  lemma JoinCons<T>(part: seq<T>, rest: seq<seq<T>>, sep: T)
    requires rest != []
    ensures Join([part] + rest, sep) == part + [sep] + Join(rest, sep)
  {
    assert ([part] + rest)[1..] == rest;
  }

  lemma IndexOfFirst<T>(before: seq<T>, c: T, after: seq<T>)
    requires c !in before
    ensures IndexOf(before + [c] + after, c) == |before|
  {
    var s := before + [c] + after;
    assert s[|before|] == c;
    assert s[..|before|] == before;
  }

  lemma SplitCons<T>(part: seq<T>, sep: T, rest: seq<T>)
    requires sep !in part
    ensures Split(part + [sep] + rest, sep) == [part] + Split(rest, sep)
  {
    var s := part + [sep] + rest;
    IndexOfFirst(part, sep, rest);
    assert s[..|part|] == part && s[|part| + 1..] == rest;
  }

  lemma {:induction false} SplitOfJoin<T>(parts: seq<seq<T>>, sep: T)
    requires parts != [] && forall p :: p in parts ==> sep !in p
    ensures Split(Join(parts, sep), sep) == parts
  {
    assert parts[0] in parts;
    if |parts| > 1 {
      SplitCons(parts[0], sep, Join(parts[1..], sep));
      SplitOfJoin(parts[1..], sep);
    }
  }

  lemma {:induction false} SplitParts<T>(s: seq<T>, sep: T)
    ensures forall p :: p in Split(s, sep) ==> sep !in p
    ensures Join(Split(s, sep), sep) == s
    decreases |s|
  {
    var i := IndexOf(s, sep);
    if i < |s| {
      SplitParts(s[i + 1..], sep);
      assert s == s[..i] + [sep] + s[i + 1..];
      assert Split(s, sep)[1..] == Split(s[i + 1..], sep);
    } else {
      assert s[..i] == s;
    }
  }

  // ---------------------------------------------------------------- trimming

  /** unicode.IsSpace. */
  predicate IsSpace(c: char)
  {
    c in {'\t', '\n', '\U{0B}', '\U{0C}', '\r', ' ', '\U{85}', '\U{A0}', '\U{1680}', '\U{2028}', '\U{2029}',
          '\U{202F}', '\U{205F}', '\U{3000}'} || '\U{2000}' <= c <= '\U{200A}'
  }

  function TrimLeft(s: string): string
  {
    if s != "" && IsSpace(s[0]) then TrimLeft(s[1..]) else s
  }

  function TrimRight(s: string): string
  {
    if s != "" && IsSpace(s[|s| - 1]) then TrimRight(s[..|s| - 1]) else s
  }

  function TrimSpace(s: string): string
  {
    TrimRight(TrimLeft(s))
  }

  predicate Trimmed(s: string)
  {
    s == "" || (!IsSpace(s[0]) && !IsSpace(s[|s| - 1]))
  }

  lemma {:induction false} TrimRightKeepsStart(s: string)
    requires s != "" && !IsSpace(s[0])
    ensures TrimRight(s) != "" && TrimRight(s)[0] == s[0] && !IsSpace(TrimRight(s)[|TrimRight(s)| - 1])
    ensures |TrimRight(s)| <= |s| && TrimRight(s) == s[..|TrimRight(s)|]
  {
    if IsSpace(s[|s| - 1]) {
      TrimRightKeepsStart(s[..|s| - 1]);
    }
  }

  lemma TrimLeftStart(s: string)
    ensures TrimLeft(s) == "" || !IsSpace(TrimLeft(s)[0])
    ensures forall c :: c in TrimLeft(s) ==> c in s
  {
  }

  lemma TrimmedResult(s: string)
    ensures Trimmed(TrimSpace(s))
    ensures forall c :: c in TrimSpace(s) ==> c in s
  {
    TrimLeftStart(s);
    if TrimLeft(s) != "" {
      TrimRightKeepsStart(TrimLeft(s));
    }
  }

  lemma TrimOfTrimmed(s: string)
    requires Trimmed(s)
    ensures TrimSpace(s) == s
  {
  }

  /** A string that does not start or end in white space keeps that when text is put between. */
  lemma TrimmedAround(first: string, middle: string, last: string)
    requires Trimmed(first) && Trimmed(last) && middle != ""
    requires first == "" ==> !IsSpace(middle[0])
    requires last == "" ==> !IsSpace(middle[|middle| - 1])
    ensures Trimmed(first + middle + last)
  {
    var s := first + middle + last;
    assert s[0] == if first == "" then middle[0] else first[0];
    assert s[|s| - 1] == if last == "" then middle[|middle| - 1] else last[|last| - 1];
  }

  // ---------------------------------------------------------------- cut

  datatype CutResult = Uncut | Cut(before: string, after: string)

  function CutAt(s: string, c: char): CutResult
  {
    var i := IndexOf(s, c);
    if i == |s| then Uncut else Cut(s[..i], s[i + 1..])
  }

  lemma CutFirst(before: string, c: char, after: string)
    requires c !in before
    ensures CutAt(before + [c] + after, c) == Cut(before, after)
  {
    IndexOfFirst(before, c, after);
    var s := before + [c] + after;
    assert s[..|before|] == before && s[|before| + 1..] == after;
  }

  // ---------------------------------------------------------------- decimal numbers

  const MIN_INT: int := -0x8000_0000_0000_0000
  const MAX_INT: int := 0x7FFF_FFFF_FFFF_FFFF

  predicate IsDigit(c: char)
  {
    '0' <= c <= '9'
  }

  function Digit(n: nat): (c: char)
    requires n < 10
    ensures IsDigit(c) && c as int - '0' as int == n
  {
    '0' + n as char
  }

  function Decimal(n: nat): (s: string)
    ensures s != "" && forall c :: c in s ==> IsDigit(c)
  {
    if n < 10 then [Digit(n)] else Decimal(n / 10) + [Digit(n % 10)]
  }

  function Itoa(n: int): string
  {
    if n < 0 then "-" + Decimal(-n) else Decimal(n)
  }

  function DigitsValue(s: string): nat
    requires forall c :: c in s ==> IsDigit(c)
  {
    if s == "" then 0
    else
      var last := s[|s| - 1];
      assert IsDigit(last);
      10 * DigitsValue(s[..|s| - 1]) + (last as int - '0' as int)
  }

  /** strconv.Atoi: an optional sign, then digits, within 64 bits. */
  function Atoi(s: string): Option<int>
  {
    var signed := s != "" && s[0] in {'+', '-'};
    var digits := if signed then s[1..] else s;
    if digits == "" || exists c :: c in digits && !IsDigit(c) then None
    else
      var value: int := DigitsValue(digits);
      var n: int := if signed && s[0] == '-' then -value else value;
      if MIN_INT <= n <= MAX_INT then Some(n) else None
  }

  lemma {:induction false} DigitsOfDecimal(n: nat)
    ensures DigitsValue(Decimal(n)) == n
  {
    if n >= 10 {
      DigitsOfDecimal(n / 10);
      assert Decimal(n)[..|Decimal(n)| - 1] == Decimal(n / 10);
    }
  }

  lemma AtoiOfNegative(n: int)
    requires 0 <= n <= -MIN_INT
    ensures Atoi("-" + Decimal(n)) == Some(-n)
  {
    DigitsOfDecimal(n);
    assert ("-" + Decimal(n))[1..] == Decimal(n);
  }

  lemma AtoiOfDecimal(n: nat)
    requires n <= MAX_INT
    ensures Atoi(Decimal(n)) == Some(n)
  {
    DigitsOfDecimal(n);
    assert IsDigit(Decimal(n)[0]);
  }

  lemma AtoiOfItoa(n: int)
    requires MIN_INT <= n <= MAX_INT
    ensures Atoi(Itoa(n)) == Some(n)
  {
    if n < 0 {
      AtoiOfNegative(-n);
    } else {
      AtoiOfDecimal(n);
    }
  }

  lemma ItoaTrimmed(n: int)
    ensures Itoa(n) != "" && Trimmed(Itoa(n)) && '\n' !in Itoa(n) && ',' !in Itoa(n) && ';' !in Itoa(n)
  {
    var d := Decimal(if n < 0 then -n else n);
    assert d[0] in d && d[|d| - 1] in d;
    assert forall c :: IsDigit(c) ==> !IsSpace(c);
  }

  // ---------------------------------------------------------------- string order

  /** Byte-wise order; on UTF-8 text it is the order of code points. */
  predicate Leq(a: string, b: string)
  {
    a == "" || (b != "" && (a[0] < b[0] || (a[0] == b[0] && Leq(a[1..], b[1..]))))
  }

  lemma LeqTotal(a: string, b: string)
    ensures Leq(a, b) || Leq(b, a)
  {
  }

  lemma {:induction false} LeqAntisymmetric(a: string, b: string)
    requires Leq(a, b) && Leq(b, a)
    ensures a == b
  {
    if a != "" && b != "" {
      LeqAntisymmetric(a[1..], b[1..]);
      assert a == [a[0]] + a[1..] && b == [b[0]] + b[1..];
    }
  }

  lemma {:induction false} LeqTransitive(a: string, b: string, c: string)
    requires Leq(a, b) && Leq(b, c)
    ensures Leq(a, c)
  {
    if a != "" && a[0] == b[0] && b[0] == c[0] {
      LeqTransitive(a[1..], b[1..], c[1..]);
    }
  }

  predicate Sorted(s: seq<string>)
  {
    forall i, j :: 0 <= i < j < |s| ==> Leq(s[i], s[j])
  }

  predicate Distinct<T(==)>(s: seq<T>)
  {
    forall i, j :: 0 <= i < j < |s| ==> s[i] != s[j]
  }

  lemma LastOfDistinct<T>(s: seq<T>)
    requires s != [] && Distinct(s)
    ensures var n := |s| - 1;
            Distinct(s[..n]) && s[n] !in s[..n] && forall x :: x in s <==> x in s[..n] || x == s[n]
  {
    var n := |s| - 1;
    assert s == s[..n] + [s[n]];
    assert forall i :: 0 <= i < n ==> s[i] != s[n];
  }

  function Insert(x: string, s: seq<string>): seq<string>
  {
    if s == [] || Leq(x, s[0]) then [x] + s else [s[0]] + Insert(x, s[1..])
  }

  /** sort.Strings. */
  function SortStrings(s: seq<string>): seq<string>
  {
    if s == [] then [] else Insert(s[0], SortStrings(s[1..]))
  }

  lemma {:induction false} InsertCounts(x: string, s: seq<string>)
    ensures multiset(Insert(x, s)) == multiset{x} + multiset(s)
  {
    if s != [] {
      InsertCounts(x, s[1..]);
      assert s == [s[0]] + s[1..];
    }
  }

  lemma FirstIsLeast(s: seq<string>, y: string)
    requires Sorted(s) && y in s
    ensures Leq(s[0], y)
  {
    LeqReflexive(y);
  }

  lemma {:induction false} InsertSorted(x: string, s: seq<string>)
    requires Sorted(s)
    ensures Sorted(Insert(x, s))
  {
    if s == [] {
    } else if Leq(x, s[0]) {
      forall y | y in s
        ensures Leq(x, y)
      {
        FirstIsLeast(s, y);
        LeqTransitive(x, s[0], y);
      }
    } else {
      LeqTotal(x, s[0]);
      InsertSorted(x, s[1..]);
      InsertCounts(x, s[1..]);
      forall y | y in Insert(x, s[1..])
        ensures Leq(s[0], y)
      {
        assert y in multiset(Insert(x, s[1..]));
        if y != x {
          FirstIsLeast(s, y);
        }
      }
    }
  }

  lemma {:induction false} SortStringsSorts(s: seq<string>)
    ensures Sorted(SortStrings(s)) && multiset(SortStrings(s)) == multiset(s)
  {
    if s != [] {
      SortStringsSorts(s[1..]);
      InsertSorted(s[0], SortStrings(s[1..]));
      InsertCounts(s[0], SortStrings(s[1..]));
      assert s == [s[0]] + s[1..];
    }
  }

  /** Two sorted sequences with the same elements are the same sequence. */
  lemma {:induction false} SortedUnique(a: seq<string>, b: seq<string>)
    requires Sorted(a) && Sorted(b) && multiset(a) == multiset(b)
    ensures a == b
  {
    if a == [] || b == [] {
      assert |multiset(a)| == |multiset(b)|;
    } else {
      SameHead(a, b);
      assert a == [a[0]] + a[1..] && b == [b[0]] + b[1..];
      assert multiset(a[1..]) == multiset(a) - multiset{a[0]};
      SortedUnique(a[1..], b[1..]);
    }
  }

  lemma SameHead(a: seq<string>, b: seq<string>)
    requires a != [] && b != [] && Sorted(a) && Sorted(b) && multiset(a) == multiset(b)
    ensures a[0] == b[0]
  {
    assert a[0] in multiset(b) && b[0] in multiset(a);
    var i :| 0 <= i < |b| && b[i] == a[0];
    var j :| 0 <= j < |a| && a[j] == b[0];
    LeqReflexive(a[0]);
    assert Leq(b[0], a[0]) && Leq(a[0], b[0]);
    LeqAntisymmetric(a[0], b[0]);
  }

  lemma LeqReflexive(a: string)
    ensures Leq(a, a)
  {
  }

  /** The same distinct keys in any order sort to the same sequence. */
  lemma SortIgnoresOrder(a: seq<string>, b: seq<string>)
    requires Distinct(a) && Distinct(b) && (forall k :: k in a <==> k in b)
    ensures SortStrings(a) == SortStrings(b)
  {
    DistinctMultiset(a);
    DistinctMultiset(b);
    assert multiset(a) == multiset(b);
    SortStringsSorts(a);
    SortStringsSorts(b);
    SortedUnique(SortStrings(a), SortStrings(b));
  }

  lemma {:induction false} DistinctMultiset<T>(s: seq<T>)
    requires Distinct(s)
    ensures forall x :: multiset(s)[x] == if x in s then 1 else 0
  {
    if s != [] {
      DistinctMultiset(s[1..]);
      assert s == [s[0]] + s[1..];
    }
  }

  lemma {:induction false} DistinctByCount(s: seq<string>)
    requires forall x :: multiset(s)[x] <= 1
    ensures Distinct(s)
  {
    if s != [] {
      var n := |s| - 1;
      assert s == s[..n] + [s[n]];
      forall x
        ensures multiset(s[..n])[x] <= 1
      {
        assert multiset(s)[x] <= 1;
      }
      DistinctByCount(s[..n]);
      assert s[n] !in multiset(s[..n]) by {
        assert multiset(s)[s[n]] <= 1;
      }
    }
  }

  /** Sorting distinct strings keeps each of them, once. */
  lemma SortKeepsDistinct(s: seq<string>)
    requires Distinct(s)
    ensures Sorted(SortStrings(s)) && Distinct(SortStrings(s))
    ensures forall x :: x in SortStrings(s) <==> x in s
  {
    var r := SortStrings(s);
    SortStringsSorts(s);
    DistinctMultiset(s);
    forall x
      ensures multiset(r)[x] <= 1
      ensures x in r <==> x in s
    {
      assert multiset(r)[x] == multiset(s)[x];
      assert x in multiset(r) <==> x in multiset(s);
    }
    DistinctByCount(r);
  }

  /** The keys of a map in some order, each once. */
  ghost predicate Enumerates<V>(keys: seq<string>, m: map<string, V>)
  {
    Distinct(keys) && forall k :: k in keys <==> k in m
  }

  /** A walk over a map, in whatever order. */
  method KeysOf<V>(m: map<string, V>) returns (keys: seq<string>)
    ensures Enumerates(keys, m)
  {
    keys := [];
    var left := m.Keys;
    while left != {}
      invariant left <= m.Keys && Distinct(keys)
      invariant forall k :: k in keys <==> k in m && k !in left
    {
      var key :| key in left;
      left := left - {key};
      keys := keys + [key];
    }
  }
}
