/**
  String helpers used by both the Python server and the JavaScript client:
  prefix and substring tests, ASCII case mapping, whitespace trimming,
  splitting on a separator, decimal rendering and code-point ordering.
 */
module Text {

  /** `s.startswith(p)` in Python, `s.startsWith(p)` in JavaScript. */
  predicate StartsWith(s: string, p: string) {
    |p| <= |s| && s[..|p|] == p
  }

  /** `k` occurs in `s` starting at index `i`. */
  predicate OccursAt(s: string, k: string, i: int) {
    0 <= i <= |s| - |k| && s[i..i + |k|] == k
  }

  /** Python's `k in s` and JavaScript's `s.includes(k)` on strings. */
  predicate Contains(s: string, k: string) {
    exists i :: 0 <= i <= |s| - |k| && OccursAt(s, k, i)
  }

  lemma OccursInPrefix(a: string, rest: string, k: string, i: int)
    requires OccursAt(a, k, i)
    ensures OccursAt(a + rest, k, i)
  {
    assert (a + rest)[i..i + |k|] == a[i..i + |k|];
  }

  lemma OccursInSuffix(pre: string, b: string, k: string, i: int)
    requires OccursAt(b, k, i)
    ensures OccursAt(pre + b, k, |pre| + i)
  {
    assert (pre + b)[|pre| + i..|pre| + i + |k|] == b[i..i + |k|];
  }

  /** An occurrence in `a + rest` either lies in `a`, lies in `rest`, or covers index `|a|`. */
  lemma OccursInConcat(a: string, rest: string, k: string, i: int)
    requires OccursAt(a + rest, k, i)
    ensures i + |k| <= |a| ==> OccursAt(a, k, i)
    ensures i >= |a| ==> OccursAt(rest, k, i - |a|)
    ensures i < |a| < i + |k| ==> k[|a| - i] == rest[0]
  {
    var s := a + rest;
    if i + |k| <= |a| {
      assert a[i..i + |k|] == s[i..i + |k|];
    } else if i >= |a| {
      assert rest[i - |a|..i - |a| + |k|] == s[i..i + |k|];
    } else {
      assert k[|a| - i] == s[|a|];
    }
  }

  lemma ContainsInLeft(a: string, b: string, k: string)
    requires Contains(a, k)
    ensures Contains(a + " " + b, k)
  {
    var i :| 0 <= i <= |a| - |k| && OccursAt(a, k, i);
    OccursInPrefix(a, " " + b, k, i);
    assert a + (" " + b) == a + " " + b;
  }

  lemma ContainsInRight(a: string, b: string, k: string)
    requires Contains(b, k)
    ensures Contains(a + " " + b, k)
  {
    var i :| 0 <= i <= |b| - |k| && OccursAt(b, k, i);
    OccursInSuffix(a + " ", b, k, i);
  }

  lemma ContainsSpanning(a: string, b: string, k: string)
    requires ' ' !in k && Contains(a + (" " + b), k)
    ensures Contains(a, k) || Contains(b, k)
  {
    var rest := " " + b;
    var i :| 0 <= i <= |a + rest| - |k| && OccursAt(a + rest, k, i);
    OccursInConcat(a, rest, k, i);
    assert |k| > 0 ==> k[0] != ' ';
    if i > |a| {
      OccursInConcat(" ", b, k, i - |a|);
      assert OccursAt(b, k, i - |a| - 1);
    }
  }

  /** Every occurrence of a space-free word in `a + " " + b` lies inside `a` or inside `b`. */
  lemma ContainsAcrossSpace(a: string, b: string, k: string)
    requires ' ' !in k
    ensures Contains(a + " " + b, k) <==> Contains(a, k) || Contains(b, k)
  {
    if Contains(a, k) {
      ContainsInLeft(a, b, k);
    }
    if Contains(b, k) {
      ContainsInRight(a, b, k);
    }
    assert a + " " + b == a + (" " + b);
    if Contains(a + (" " + b), k) {
      ContainsSpanning(a, b, k);
    }
  }

  /** The part of `s` before the first `sep` (all of `s` when there is none): `s.split(sep)[0]`. */
  function PrefixBefore(s: string, sep: char): (r: string)
    ensures StartsWith(s, r)
    ensures sep !in r
    ensures |r| < |s| ==> s[|r|] == sep
  {
    if |s| == 0 || s[0] == sep then "" else [s[0]] + PrefixBefore(s[1..], sep)
  }

  predicate IsAsciiUpper(c: char) { 'A' <= c <= 'Z' }
  predicate IsAsciiLower(c: char) { 'a' <= c <= 'z' }
  predicate IsAsciiLetter(c: char) { IsAsciiUpper(c) || IsAsciiLower(c) }

  function LowerChar(c: char): (r: char)
    ensures IsAsciiLetter(r) <==> IsAsciiLetter(c)
    ensures !IsAsciiUpper(r)
  {
    if IsAsciiUpper(c) then c - 'A' + 'a' else c
  }

  function UpperChar(c: char): (r: char)
    ensures IsAsciiLetter(r) <==> IsAsciiLetter(c)
    ensures !IsAsciiLower(r)
  {
    if IsAsciiLower(c) then c - 'a' + 'A' else c
  }

  /** Python's `str.lower()` / JavaScript's `toLowerCase()`, on the ASCII letters. */
  function Lower(s: string): (r: string)
    ensures |r| == |s|
    ensures forall i :: 0 <= i < |s| ==> r[i] == LowerChar(s[i])
  {
    if |s| == 0 then "" else [LowerChar(s[0])] + Lower(s[1..])
  }

  // ---------------------------------------------------------------------------
  // Whitespace trimming, parameterised by the language's notion of whitespace.

  /** `s` without its leading characters that satisfy `ws`. */
  function TrimStart(s: string, ws: char -> bool): (r: string)
    ensures |r| <= |s| && r == s[|s| - |r|..]
    ensures forall i :: 0 <= i < |s| - |r| ==> ws(s[i])
    ensures |r| > 0 ==> !ws(r[0])
  {
    if |s| > 0 && ws(s[0]) then
      var r := TrimStart(s[1..], ws);
      assert s[1..][|s| - 1 - |r|..] == s[|s| - |r|..];
      assert forall i :: 1 <= i < |s| ==> s[1..][i - 1] == s[i];
      r
    else s
  }

  /** `s` without its trailing characters that satisfy `ws`. */
  function TrimEnd(s: string, ws: char -> bool): (r: string)
    ensures |r| <= |s| && r == s[..|r|]
    ensures forall i :: |r| <= i < |s| ==> ws(s[i])
    ensures |r| > 0 ==> !ws(r[|r| - 1])
  {
    if |s| > 0 && ws(s[|s| - 1]) then TrimEnd(s[..|s| - 1], ws) else s
  }

  function Trim(s: string, ws: char -> bool): string {
    TrimEnd(TrimStart(s, ws), ws)
  }

  /** A string that starts and ends with a non-whitespace character is its own trim. */
  lemma TrimUntouched(s: string, ws: char -> bool)
    requires |s| > 0 && !ws(s[0]) && !ws(s[|s| - 1])
    ensures Trim(s, ws) == s
  {
    assert TrimStart(s, ws) == s;
  }

  /** A trimmed string is empty exactly when every character of the original is whitespace. */
  lemma TrimEmptyIff(s: string, ws: char -> bool)
    ensures Trim(s, ws) == "" <==> forall i :: 0 <= i < |s| ==> ws(s[i])
  {
    var t := TrimStart(s, ws);
    if Trim(s, ws) == "" {
      // TrimEnd leaves nothing of t only if t[0] is whitespace, which TrimStart rules out.
      assert |t| == 0;
    }
  }

  /** The trimmed text is a contiguous slice of `s` that neither starts nor ends with whitespace. */
  lemma TrimIsCore(s: string, ws: char -> bool)
    ensures Contains(s, Trim(s, ws))
    ensures var r := Trim(s, ws); |r| > 0 ==> !ws(r[0]) && !ws(r[|r| - 1])
  {
    var t := TrimStart(s, ws);
    var r := TrimEnd(t, ws);
    var i := |s| - |t|;
    assert s[i..i + |r|] == r;
    assert OccursAt(s, r, i);
    if |r| > 0 {
      assert r[0] == t[0];
    }
  }

  // ---------------------------------------------------------------------------
  // Splitting and joining on a separator character.

  /** JavaScript's `s.split(sep)`: every piece, empty ones included; never an empty list. */
  function Split(s: string, sep: char): (parts: seq<string>)
    ensures |parts| >= 1
    ensures forall p :: p in parts ==> sep !in p
    decreases |s|
  {
    if |s| == 0 then [""]
    else
      var rest := Split(s[1..], sep);
      if s[0] == sep then [""] + rest
      else [[s[0]] + rest[0]] + rest[1..]
  }

  /** The inverse of `Split`: the pieces with `sep` between them. */
  function Join(parts: seq<string>, sep: char): string
    requires |parts| >= 1
  {
    if |parts| == 1 then parts[0] else parts[0] + [sep] + Join(parts[1..], sep)
  }

  lemma {:induction false} JoinSplit(s: string, sep: char)
    ensures Join(Split(s, sep), sep) == s
    decreases |s|
  {
    if |s| > 0 {
      var rest := Split(s[1..], sep);
      JoinSplit(s[1..], sep);
      if s[0] == sep {
        assert Split(s, sep) == [""] + rest;
        assert ([""] + rest)[1..] == rest;
      } else {
        var parts := [[s[0]] + rest[0]] + rest[1..];
        assert Split(s, sep) == parts;
        if |rest| == 1 {
          assert Join(rest, sep) == rest[0];
        } else {
          assert parts[1..] == rest[1..];
          assert Join(rest, sep) == rest[0] + [sep] + Join(rest[1..], sep);
        }
      }
    }
  }

  /** Splitting a separator-free piece followed by the separator peels that piece off. */
  lemma {:induction false} SplitAfterPiece(x: string, y: string, sep: char)
    requires sep !in x
    ensures Split(x + [sep] + y, sep) == [x] + Split(y, sep)
    decreases |x|
  {
    if |x| == 0 {
      assert x + [sep] + y == [sep] + y;
      assert ([sep] + y)[1..] == y;
    } else {
      SplitAfterPiece(x[1..], y, sep);
      assert (x + [sep] + y)[1..] == x[1..] + [sep] + y;
      assert [x[0]] + x[1..] == x;
    }
  }

  lemma {:induction false} SplitPiece(x: string, sep: char)
    requires sep !in x
    ensures Split(x, sep) == [x]
    decreases |x|
  {
    if |x| > 0 {
      SplitPiece(x[1..], sep);
      assert [x[0]] + x[1..] == x;
    }
  }

  lemma {:induction false} SplitJoin(parts: seq<string>, sep: char)
    requires |parts| >= 1
    requires forall p :: p in parts ==> sep !in p
    ensures Split(Join(parts, sep), sep) == parts
    decreases |parts|
  {
    if |parts| == 1 {
      SplitPiece(parts[0], sep);
    } else {
      SplitJoin(parts[1..], sep);
      SplitAfterPiece(parts[0], Join(parts[1..], sep), sep);
      assert [parts[0]] + parts[1..] == parts;
    }
  }

  // ---------------------------------------------------------------------------
  // Decimal rendering of naturals (`${n}` in JavaScript, `json.dumps` of an int in Python).

  function DigitChar(d: nat): (c: char)
    requires d < 10
    ensures '0' <= c <= '9'
  {
    "0123456789"[d]
  }

  function DigitValue(c: char): nat
    requires '0' <= c <= '9'
  {
    (c - '0') as nat
  }

  function NatToString(n: nat): (s: string)
    ensures |s| >= 1
    ensures forall i :: 0 <= i < |s| ==> '0' <= s[i] <= '9'
    ensures |s| > 1 ==> s[0] != '0'
    decreases n
  {
    if n < 10 then [DigitChar(n)] else NatToString(n / 10) + [DigitChar(n % 10)]
  }

  /** The value of a string of decimal digits. */
  function DecimalValue(s: string): nat
    requires forall i :: 0 <= i < |s| ==> '0' <= s[i] <= '9'
  {
    if |s| == 0 then 0 else 10 * DecimalValue(s[..|s| - 1]) + DigitValue(s[|s| - 1])
  }

  lemma {:induction false} DecimalRoundTrip(n: nat)
    ensures DecimalValue(NatToString(n)) == n
    decreases n
  {
    var s := NatToString(n);
    if n < 10 {
      assert DigitValue(DigitChar(n)) == n;
    } else {
      DecimalRoundTrip(n / 10);
      assert s[..|s| - 1] == NatToString(n / 10);
      assert DigitValue(DigitChar(n % 10)) == n % 10;
    }
  }

  /** Distinct naturals render differently. */
  lemma NatToStringInjective(m: nat, n: nat)
    requires NatToString(m) == NatToString(n)
    ensures m == n
  {
    DecimalRoundTrip(m);
    DecimalRoundTrip(n);
  }

  // ---------------------------------------------------------------------------
  // Python's `<` on `str`: lexicographic order of code points.

  predicate LexLess(a: string, b: string) {
    if |a| == 0 then |b| > 0
    else if |b| == 0 then false
    else a[0] < b[0] || (a[0] == b[0] && LexLess(a[1..], b[1..]))
  }

  lemma {:induction false} LexLessIrreflexive(a: string)
    ensures !LexLess(a, a)
  {
    if |a| > 0 {
      LexLessIrreflexive(a[1..]);
    }
  }

  lemma {:induction false} LexLessTransitive(a: string, b: string, c: string)
    requires LexLess(a, b) && LexLess(b, c)
    ensures LexLess(a, c)
  {
    if |a| > 0 && a[0] == b[0] && b[0] == c[0] {
      LexLessTransitive(a[1..], b[1..], c[1..]);
    }
  }

  lemma {:induction false} LexLessTotal(a: string, b: string)
    ensures a == b || LexLess(a, b) || LexLess(b, a)
  {
    if |a| > 0 && |b| > 0 && a[0] == b[0] {
      LexLessTotal(a[1..], b[1..]);
      if a[1..] == b[1..] {
        assert a == [a[0]] + a[1..] && b == [b[0]] + b[1..];
      }
    }
  }

  /** `m` is the least string of `s` in code-point order. */
  predicate IsLeast(m: string, s: set<string>) {
    m in s && forall x :: x in s && x != m ==> LexLess(m, x)
  }

  /** Adding a string to a set keeps the least element or makes the new string the least one. */
  lemma LeastOfInsert(m: string, rest: set<string>, y: string)
    requires IsLeast(m, rest) && y !in rest
    ensures LexLess(m, y) ==> IsLeast(m, rest + {y})
    ensures !LexLess(m, y) ==> IsLeast(y, rest + {y})
  {
    LexLessTotal(m, y);
    if !LexLess(m, y) {
      forall x | x in rest + {y} && x != y ensures LexLess(y, x) {
        if x != m {
          LexLessTransitive(y, m, x);
        }
      }
    }
  }

  /** Every finite non-empty set of strings has a least element. */
  lemma {:induction false} LeastExists(s: set<string>)
    requires s != {}
    ensures exists m :: IsLeast(m, s)
    decreases |s|
  {
    var y :| y in s;
    var rest := s - {y};
    assert s == rest + {y};
    if rest == {} {
      assert IsLeast(y, s);
    } else {
      LeastExists(rest);
      var m :| IsLeast(m, rest);
      LeastOfInsert(m, rest, y);
    }
  }

  // ---------------------------------------------------------------------------
  // Order-preserving de-duplication.

  predicate NoDuplicates<T(==)>(s: seq<T>) {
    forall i, j :: 0 <= i < j < |s| ==> s[i] != s[j]
  }

  /** `s` with every element after its first occurrence removed. */
  function Dedup<T(==,!new)>(s: seq<T>): (r: seq<T>)
    ensures NoDuplicates(r)
    ensures forall x :: x in r <==> x in s
    ensures |r| <= |s|
  {
    if |s| == 0 then []
    else
      var r := Dedup(s[..|s| - 1]);
      if s[|s| - 1] in r then r else r + [s[|s| - 1]]
  }

  // ---------------------------------------------------------------------------
  // Order-preserving filtering (a list comprehension with an `if`, `Array.filter`).

  function Filter<T>(s: seq<T>, keep: T -> bool): (r: seq<T>)
    ensures |r| <= |s|
    ensures forall x :: x in r ==> x in s && keep(x)
  {
    if |s| == 0 then []
    else Filter(s[..|s| - 1], keep) + (if keep(s[|s| - 1]) then [s[|s| - 1]] else [])
  }

  lemma {:induction false} FilterKeeps<T>(s: seq<T>, keep: T -> bool, x: T)
    requires x in s && keep(x)
    ensures x in Filter(s, keep)
  {
    if x != s[|s| - 1] {
      assert x in s[..|s| - 1];
      FilterKeeps(s[..|s| - 1], keep, x);
    }
  }

  /** A sequence with an element has its first element among its members. */
  lemma FirstIsMember<T>(s: seq<T>)
    ensures |s| > 0 ==> s[0] in s
  {
  }

  /** Two filters that agree on the elements give the same result. */
  lemma {:induction false} FilterSame<T>(s: seq<T>, keep: T -> bool, keep': T -> bool)
    requires forall x :: x in s ==> keep(x) == keep'(x)
    ensures Filter(s, keep) == Filter(s, keep')
  {
    if |s| > 0 {
      assert forall x :: x in s[..|s| - 1] ==> x in s;
      FilterSame(s[..|s| - 1], keep, keep');
    }
  }

  /** Filtering distributes over concatenation: the kept elements stay in their original order. */
  lemma {:induction false} FilterConcat<T>(a: seq<T>, b: seq<T>, keep: T -> bool)
    ensures Filter(a + b, keep) == Filter(a, keep) + Filter(b, keep)
    decreases |b|
  {
    if |b| > 0 {
      var b' := b[..|b| - 1];
      var x := b[|b| - 1];
      var last := if keep(x) then [x] else [];
      FilterConcat(a, b', keep);
      LastSplit(b);
      ConcatAssoc(a, b', [x]);
      FilterSnoc(a + b', x, keep);
      FilterSnoc(b', x, keep);
      ConcatAssoc(Filter(a, keep), Filter(b', keep), last);
    } else {
      assert a + b == a;
    }
  }

  /** Filtering twice is filtering once by both tests. */
  lemma {:induction false} FilterTwice<T>(s: seq<T>, keep: T -> bool, keep': T -> bool, both: T -> bool)
    requires forall x :: both(x) == (keep(x) && keep'(x))
    ensures Filter(Filter(s, keep), keep') == Filter(s, both)
  {
    if |s| > 0 {
      var s', x := s[..|s| - 1], s[|s| - 1];
      var last := if keep(x) then [x] else [];
      FilterTwice(s', keep, keep', both);
      FilterConcat(Filter(s', keep), last, keep');
      assert Filter(last, keep') == if both(x) then [x] else [] by {
        if keep(x) { FilterSnoc([], x, keep'); assert [] + [x] == [x]; }
      }
    }
  }

  /** A non-empty sequence is its front followed by its last element. */
  lemma LastSplit<T>(s: seq<T>)
    requires |s| > 0
    ensures s == s[..|s| - 1] + [s[|s| - 1]]
  {
  }

  /** A concatenation with a non-empty front starts with the front's first element. */
  lemma HeadOfConcat<T>(a: seq<T>, b: seq<T>)
    requires |a| > 0
    ensures (a + b)[0] == a[0] && (a + b)[1..] == a[1..] + b
  {
  }

  /** Concatenation is associative. */
  lemma ConcatAssoc<T>(a: seq<T>, b: seq<T>, c: seq<T>)
    ensures a + (b + c) == (a + b) + c
  {
  }

  /** Filtering a sequence extended by one element. */
  lemma FilterSnoc<T>(s: seq<T>, x: T, keep: T -> bool)
    ensures Filter(s + [x], keep) == Filter(s, keep) + (if keep(x) then [x] else [])
  {
    assert (s + [x])[..|s|] == s;
  }

  /** One element joins one of two sequences that split a multiset: they now split it with the element added. */
  lemma SplitGrows<T>(whole: multiset<T>, a: seq<T>, b: seq<T>, x: T, toA: bool)
    requires multiset(a) + multiset(b) == whole
    ensures multiset(a + (if toA then [x] else [])) + multiset(b + (if toA then [] else [x])) == whole + multiset{x}
  {
    if toA {
      assert multiset(a + [x]) == multiset(a) + multiset{x};
      assert b + [] == b;
    } else {
      assert multiset(b + [x]) == multiset(b) + multiset{x};
      assert a + [] == a;
    }
  }

  /** The multiset of a non-empty sequence is that of all but its last element, plus the last. */
  lemma MultisetInit<T>(s: seq<T>)
    requires |s| > 0
    ensures multiset(s) == multiset(s[..|s| - 1]) + multiset{s[|s| - 1]}
  {
    assert s == s[..|s| - 1] + [s[|s| - 1]];
  }

  /** A filter and its complement split a sequence: together they hold every element exactly once. */
  lemma {:induction false} FilterPartition<T>(s: seq<T>, keep: T -> bool, drop: T -> bool)
    requires forall x :: drop(x) == !keep(x)
    ensures multiset(Filter(s, keep)) + multiset(Filter(s, drop)) == multiset(s)
  {
    if |s| > 0 {
      var s', x := s[..|s| - 1], s[|s| - 1];
      FilterPartition(s', keep, drop);
      MultisetInit(s);
      assert drop(x) == !keep(x);
      SplitGrows(multiset(s'), Filter(s', keep), Filter(s', drop), x, keep(x));
    }
  }

  /** A filter that keeps every element changes nothing. */
  lemma {:induction false} FilterAll<T>(s: seq<T>, keep: T -> bool)
    requires forall i :: 0 <= i < |s| ==> keep(s[i])
    ensures Filter(s, keep) == s
  {
    if |s| > 0 {
      var s', x := s[..|s| - 1], s[|s| - 1];
      FilterAll(s', keep);
      LastSplit(s);
    }
  }
}
