/** Shared vocabulary: error-carrying results, the JavaScript whitespace class and
    `trim`, substring tests, decimal rendering of naturals, and the stable
    ascending sort by an integer key that the database queries and
    `Array.prototype.sort` are modelled with. */
module Common {

  datatype Option<T> = None | Some(value: T) {
    function GetOr(default: T): T {
      if Some? then value else default
    }
  }

  /** The outcome of an operation that may throw: `Err` carries `error.message`. */
  datatype Result<T> = Ok(value: T) | Err(msg: string)

  /** The outcome of an operation that returns nothing but may throw. */
  datatype Outcome = Pass | Fail(msg: string)

  /** `m || d` where `m` is an error message: the empty string is falsy. */
  function MessageOr(m: string, d: string): string {
    if m == "" then d else m
  }

  /** A string field that is present and truthy (`!x` is false): neither
      absent nor empty. */
  predicate Given(o: Option<string>) {
    o.Some? && o.value != ""
  }

  function Min(a: int, b: int): int { if a <= b then a else b }
  function Max(a: int, b: int): int { if a >= b then a else b }

  // ---------------------------------------------------------------------------
  // Whitespace and trimming, as in ECMAScript's `\s` class and `String.prototype.trim`
  // (WhiteSpace and LineTerminator code points).
  // ---------------------------------------------------------------------------

  predicate IsSpace(c: char) {
    c == '\t' || c == '\n' || c == '\U{000B}' || c == '\U{000C}' || c == '\r' || c == ' '
    || c == '\U{00A0}' || c == '\U{1680}' || ('\U{2000}' <= c <= '\U{200A}')
    || c == '\U{2028}' || c == '\U{2029}' || c == '\U{202F}' || c == '\U{205F}'
    || c == '\U{3000}' || c == '\U{FEFF}'
  }

  predicate AllSpace(s: string) {
    forall i :: 0 <= i < |s| ==> IsSpace(s[i])
  }

  /** No leading and no trailing whitespace. */
  predicate IsTrimmed(s: string) {
    s == [] || (!IsSpace(s[0]) && !IsSpace(s[|s| - 1]))
  }

  /** Index of the first character at or after `i` that is not whitespace, or `|s|`. */
  function SkipSpaces(s: string, i: nat): (j: nat)
    requires i <= |s|
    ensures i <= j <= |s|
    decreases |s| - i
  {
    if i < |s| && IsSpace(s[i]) then SkipSpaces(s, i + 1) else i
  }

  /** Index just past the last character before `j` that is not whitespace, or `i`
      when `s[i..j]` is all whitespace. */
  function SkipSpacesBack(s: string, i: nat, j: nat): (k: nat)
    requires i <= j <= |s|
    ensures i <= k <= j
    decreases j
  {
    if i < j && IsSpace(s[j - 1]) then SkipSpacesBack(s, i, j - 1) else j
  }

  lemma {:induction false} SkipSpacesShape(s: string, i: nat)
    requires i <= |s|
    ensures forall k :: i <= k < SkipSpaces(s, i) ==> IsSpace(s[k])
    ensures SkipSpaces(s, i) == |s| || !IsSpace(s[SkipSpaces(s, i)])
    decreases |s| - i
  {
    if i < |s| && IsSpace(s[i]) {
      SkipSpacesShape(s, i + 1);
    }
  }

  lemma {:induction false} SkipSpacesBackShape(s: string, i: nat, j: nat)
    requires i <= j <= |s|
    ensures forall k :: SkipSpacesBack(s, i, j) <= k < j ==> IsSpace(s[k])
    ensures SkipSpacesBack(s, i, j) == i || !IsSpace(s[SkipSpacesBack(s, i, j) - 1])
    decreases j
  {
    if i < j && IsSpace(s[j - 1]) {
      SkipSpacesBackShape(s, i, j - 1);
    }
  }

  /** `String.prototype.trimStart`. */
  function TrimStart(s: string): string {
    s[SkipSpaces(s, 0)..]
  }

  /** `String.prototype.trim`. */
  function Trim(s: string): string {
    var a := SkipSpaces(s, 0);
    s[a..SkipSpacesBack(s, a, |s|)]
  }

  /** `trim` returns a contiguous slice of its input with no whitespace at either
      end, and only whitespace was cut away. */
  lemma TrimSlice(s: string) returns (a: nat, b: nat)
    ensures a <= b <= |s| && Trim(s) == s[a..b]
    ensures IsTrimmed(Trim(s))
    ensures AllSpace(s[..a]) && AllSpace(s[b..])
  {
    a := SkipSpaces(s, 0);
    b := SkipSpacesBack(s, a, |s|);
    SkipSpacesShape(s, 0);
    SkipSpacesBackShape(s, a, |s|);
    forall k | 0 <= k < |s[..a]|
      ensures IsSpace(s[..a][k])
    {
      assert s[..a][k] == s[k];
    }
    forall k | 0 <= k < |s[b..]|
      ensures IsSpace(s[b..][k])
    {
      assert s[b..][k] == s[b + k];
    }
    assert Trim(s) == s[a..b];
    if a < b {
      assert Trim(s)[0] == s[a] && Trim(s)[|Trim(s)| - 1] == s[b - 1];
    }
  }

  /** `trimStart` cuts exactly the leading whitespace. */
  lemma TrimStartShape(s: string)
    ensures |TrimStart(s)| <= |s| && TrimStart(s) == s[|s| - |TrimStart(s)|..]
    ensures TrimStart(s) == [] || !IsSpace(TrimStart(s)[0])
    ensures AllSpace(s[..|s| - |TrimStart(s)|])
  {
    var a := SkipSpaces(s, 0);
    SkipSpacesShape(s, 0);
    assert forall k :: 0 <= k < a ==> s[..a][k] == s[k];
  }

  /** `trim()` is empty exactly for whitespace-only input. */
  lemma TrimEmpty(s: string)
    ensures Trim(s) == [] <==> AllSpace(s)
  {
    var a, b := TrimSlice(s);
    if Trim(s) == [] {
      assert a == b;
      forall i | 0 <= i < |s| ensures IsSpace(s[i]) {
        if i < a { assert s[..a][i] == s[i]; } else { assert s[b..][i - b] == s[i]; }
      }
    }
  }

  /** Trimming an already trimmed string changes nothing. */
  lemma TrimmedFixpoint(s: string)
    requires IsTrimmed(s)
    ensures Trim(s) == s
  {
  }

  // ---------------------------------------------------------------------------
  // Prefixes, suffixes and substrings (`startsWith`, `endsWith`, `includes`).
  // ---------------------------------------------------------------------------

  predicate StartsWith(s: string, p: string) {
    |p| <= |s| && s[..|p|] == p
  }

  predicate EndsWith(s: string, p: string) {
    |p| <= |s| && s[|s| - |p|..] == p
  }

  predicate Contains(s: string, p: string)
    decreases |s|
  {
    StartsWith(s, p) || (s != [] && Contains(s[1..], p))
  }

  /** A pattern whose first character does not occur in `s` is not a substring of it. */
  lemma {:induction false} NotContainsByFirstChar(s: string, p: string)
    requires p != [] && forall i :: 0 <= i < |s| ==> s[i] != p[0]
    ensures !Contains(s, p)
    decreases |s|
  {
    if s != [] {
      assert s[0] != p[0];
      NotContainsByFirstChar(s[1..], p);
    }
  }

  /** A pattern longer than `s` is not a substring of it. */
  lemma {:induction false} NotContainsLonger(s: string, p: string)
    requires |s| < |p|
    ensures !Contains(s, p)
    decreases |s|
  {
    if s != [] {
      NotContainsLonger(s[1..], p);
    }
  }

  /** A substring occurs at some position. */
  lemma {:induction false} ContainsAt(s: string, p: string) returns (i: nat)
    requires Contains(s, p)
    ensures i + |p| <= |s| && s[i..i + |p|] == p
    decreases |s|
  {
    if StartsWith(s, p) {
      i := 0;
    } else {
      var j := ContainsAt(s[1..], p);
      i := j + 1;
      assert s[i..i + |p|] == s[1..][j..j + |p|];
    }
  }

  // ---------------------------------------------------------------------------
  // Decimal rendering of a natural (template-literal interpolation of an index).
  // ---------------------------------------------------------------------------

  predicate IsDigit(c: char) { '0' <= c <= '9' }

  function DigitChar(d: nat): char
    requires d < 10
  {
    (d + '0' as int) as char
  }

  function NatToString(n: nat): (r: string)
    decreases n
  {
    if n < 10 then [DigitChar(n)] else NatToString(n / 10) + [DigitChar(n % 10)]
  }

  /** The rendering is a non-empty string of decimal digits, at least two of them
      from 10 on. */
  lemma {:induction false} NatToStringDigits(n: nat)
    ensures |NatToString(n)| >= 1 && (n >= 10 ==> |NatToString(n)| >= 2)
    ensures forall i :: 0 <= i < |NatToString(n)| ==> IsDigit(NatToString(n)[i])
    decreases n
  {
    if n >= 10 {
      NatToStringDigits(n / 10);
      var p := NatToString(n / 10);
      assert NatToString(n) == p + [DigitChar(n % 10)];
      forall i | 0 <= i < |NatToString(n)| ensures IsDigit(NatToString(n)[i]) {
        if i < |p| { assert NatToString(n)[i] == p[i]; }
      }
    }
  }

  /** Different naturals render differently. */
  lemma {:induction false} NatToStringInjective(m: nat, n: nat)
    requires NatToString(m) == NatToString(n)
    ensures m == n
    decreases m
  {
    NatToStringDigits(m);
    NatToStringDigits(n);
    var a, b := NatToString(m), NatToString(n);
    if m < 10 && n < 10 {
      assert a[0] == DigitChar(m) && b[0] == DigitChar(n);
    } else if m >= 10 && n >= 10 {
      assert a[|a| - 1] == DigitChar(m % 10);
      assert b[|b| - 1] == DigitChar(n % 10);
      assert a[..|a| - 1] == NatToString(m / 10);
      assert b[..|b| - 1] == NatToString(n / 10);
      NatToStringInjective(m / 10, n / 10);
    }
  }

  // ---------------------------------------------------------------------------
  // Stable sort by an integer key, ascending (ORDER BY key ASC; Array sort with a
  // comparator, which is stable since ES2019).
  // ---------------------------------------------------------------------------

  ghost predicate SortedBy<T>(s: seq<T>, key: T -> int) {
    forall i, j :: 0 <= i < j < |s| ==> key(s[i]) <= key(s[j])
  }

  /** Insert `x` before the first element whose key is not smaller. */
  function InsertBy<T>(x: T, s: seq<T>, key: T -> int): (r: seq<T>)
    ensures |r| == |s| + 1
  {
    if s == [] || key(x) <= key(s[0]) then [x] + s else [s[0]] + InsertBy(x, s[1..], key)
  }

  function SortBy<T>(s: seq<T>, key: T -> int): (r: seq<T>)
    ensures |r| == |s|
  {
    if s == [] then [] else InsertBy(s[0], SortBy(s[1..], key), key)
  }

  /** Inserting keeps every element of the input and adds `x`. */
  lemma {:induction false} InsertByPerm<T>(x: T, s: seq<T>, key: T -> int)
    ensures multiset(InsertBy(x, s, key)) == multiset(s) + multiset{x}
  {
    if s != [] && key(x) > key(s[0]) {
      InsertByPerm(x, s[1..], key);
      assert s == [s[0]] + s[1..];
    }
  }

  /** A lower bound on the keys of `x` and of `s` bounds the result too. */
  lemma {:induction false} InsertByLower<T>(x: T, s: seq<T>, key: T -> int, b: int)
    requires b <= key(x) && forall i :: 0 <= i < |s| ==> b <= key(s[i])
    ensures forall i :: 0 <= i < |InsertBy(x, s, key)| ==> b <= key(InsertBy(x, s, key)[i])
  {
    var r := InsertBy(x, s, key);
    if s == [] || key(x) <= key(s[0]) {
      forall i | 0 <= i < |r| ensures b <= key(r[i]) {
        if i > 0 { assert r[i] == s[i - 1]; }
      }
    } else {
      var u := InsertBy(x, s[1..], key);
      InsertByLower(x, s[1..], key, b);
      forall i | 0 <= i < |r| ensures b <= key(r[i]) {
        if i > 0 { assert r[i] == u[i - 1]; }
      }
    }
  }

  lemma {:induction false} InsertByCorrect<T>(x: T, s: seq<T>, key: T -> int)
    requires SortedBy(s, key)
    ensures SortedBy(InsertBy(x, s, key), key)
    ensures multiset(InsertBy(x, s, key)) == multiset(s) + multiset{x}
  {
    InsertByPerm(x, s, key);
    if s == [] || key(x) <= key(s[0]) {
      SortedCons(x, s, key);
    } else {
      var t := s[1..];
      assert SortedBy(t, key);
      InsertByCorrect(x, t, key);
      InsertByLower(x, t, key, key(s[0]));
      SortedCons(s[0], InsertBy(x, t, key), key);
    }
  }

  lemma SortedCons<T>(h: T, u: seq<T>, key: T -> int)
    requires SortedBy(u, key)
    requires forall i :: 0 <= i < |u| ==> key(h) <= key(u[i])
    ensures SortedBy([h] + u, key)
  {
    var r := [h] + u;
    forall i, j | 0 <= i < j < |r| ensures key(r[i]) <= key(r[j]) {
      assert r[j] == u[j - 1];
      if i > 0 { assert r[i] == u[i - 1]; }
    }
  }

  /** The sort returns its input reordered (a permutation), ascending by key. */
  lemma {:induction false} SortByCorrect<T>(s: seq<T>, key: T -> int)
    ensures SortedBy(SortBy(s, key), key)
    ensures multiset(SortBy(s, key)) == multiset(s)
  {
    if s != [] {
      SortByCorrect(s[1..], key);
      InsertByCorrect(s[0], SortBy(s[1..], key), key);
      assert s == [s[0]] + s[1..];
    }
  }

  /** A slice of a sorted sequence is sorted and drawn from it. */
  lemma SortedSlice<T>(s: seq<T>, key: T -> int, lo: nat, hi: nat)
    requires SortedBy(s, key) && lo <= hi <= |s|
    ensures SortedBy(s[lo..hi], key)
    ensures multiset(s[lo..hi]) <= multiset(s)
  {
    assert s == s[..lo] + s[lo..hi] + s[hi..];
    assert multiset(s) == multiset(s[..lo]) + multiset(s[lo..hi]) + multiset(s[hi..]);
    forall i, j | 0 <= i < j < hi - lo ensures key(s[lo..hi][i]) <= key(s[lo..hi][j]) {
      assert s[lo..hi][i] == s[lo + i] && s[lo..hi][j] == s[lo + j];
    }
  }

  /** In a sorted sequence, no element left out of a prefix has a smaller key
      than one inside it. */
  lemma SortedRest<T>(s: seq<T>, key: T -> int, k: nat)
    requires SortedBy(s, key) && k <= |s|
    ensures forall i, x :: 0 <= i < k && x in multiset(s) - multiset(s[..k]) ==> key(s[i]) <= key(x)
  {
    assert s == s[..k] + s[k..];
    assert multiset(s) == multiset(s[..k]) + multiset(s[k..]);
    forall i, x | 0 <= i < k && x in multiset(s) - multiset(s[..k]) ensures key(s[i]) <= key(x) {
      assert x in s[k..];
      var j :| 0 <= j < |s| - k && s[k..][j] == x;
      assert x == s[k + j];
    }
  }

  /** In a sorted sequence, no element left out of a suffix has a larger key
      than one inside it. */
  lemma SortedRestSuffix<T>(s: seq<T>, key: T -> int, k: nat)
    requires SortedBy(s, key) && k <= |s|
    ensures forall i, x :: k <= i < |s| && x in multiset(s) - multiset(s[k..]) ==> key(x) <= key(s[i])
  {
    assert s == s[..k] + s[k..];
    assert multiset(s) == multiset(s[..k]) + multiset(s[k..]);
    forall i, x | k <= i < |s| && x in multiset(s) - multiset(s[k..]) ensures key(x) <= key(s[i]) {
      assert x in s[..k];
      var j :| 0 <= j < k && s[..k][j] == x;
      assert x == s[j];
    }
  }

  /** Sorting input that is already in order returns it unchanged. */
  lemma {:induction false} SortBySorted<T>(s: seq<T>, key: T -> int)
    requires SortedBy(s, key)
    ensures SortBy(s, key) == s
  {
    if s != [] {
      assert SortedBy(s[1..], key);
      SortBySorted(s[1..], key);
      assert s == [s[0]] + s[1..];
    }
  }

  /** Elements of a sequence are the elements of its multiset. */
  lemma MultisetMembers<T>(a: seq<T>, b: seq<T>)
    requires multiset(a) == multiset(b)
    ensures forall x :: x in a <==> x in b
  {
    forall x ensures x in a <==> x in b {
      assert x in a <==> x in multiset(a);
      assert x in b <==> x in multiset(b);
    }
  }

  /** `arr.slice(0, n)` / `LIMIT n`. */
  function Take<T>(s: seq<T>, n: nat): (r: seq<T>)
    ensures |r| == Min(n, |s|) && r == s[..|r|]
  {
    if n <= |s| then s[..n] else s
  }

  // ---------------------------------------------------------------------------
  // `WHERE` / `Array.prototype.filter`: the elements that satisfy `p`, in order.
  // ---------------------------------------------------------------------------

  function Filter<T>(xs: seq<T>, p: T -> bool): (r: seq<T>)
    ensures |r| <= |xs|
  {
    if xs == [] then [] else (if p(xs[0]) then [xs[0]] else []) + Filter(xs[1..], p)
  }

  /** `findFirst` / `Array.prototype.find`: the first element that satisfies `p`. */
  function FindFirst<T>(xs: seq<T>, p: T -> bool): (r: Option<T>)
    ensures r.Some? ==> r.value in xs && p(r.value)
    ensures r.None? ==> forall i :: 0 <= i < |xs| ==> !p(xs[i])
  {
    if xs == [] then None
    else if p(xs[0]) then Some(xs[0])
    else FindFirst(xs[1..], p)
  }

  lemma {:induction false} FilterAppend<T>(a: seq<T>, b: seq<T>, p: T -> bool)
    ensures Filter(a + b, p) == Filter(a, p) + Filter(b, p)
  {
    if a == [] {
      assert a + b == b;
    } else {
      var ab := a + b;
      var h := if p(a[0]) then [a[0]] else [];
      assert ab[0] == a[0] && ab[1..] == a[1..] + b;
      FilterAppend(a[1..], b, p);
      calc {
        Filter(ab, p);
        h + Filter(a[1..] + b, p);
        h + (Filter(a[1..], p) + Filter(b, p));
        (h + Filter(a[1..], p)) + Filter(b, p);
      }
    }
  }

  /** The filter keeps exactly the elements that satisfy `p`. */
  lemma {:induction false} FilterMembers<T>(xs: seq<T>, p: T -> bool)
    ensures forall x :: x in Filter(xs, p) <==> x in xs && p(x)
  {
    if xs != [] {
      FilterMembers(xs[1..], p);
      assert xs == [xs[0]] + xs[1..];
    }
  }

  lemma {:induction false} FilterAll<T>(xs: seq<T>, p: T -> bool)
    requires forall x :: x in xs ==> p(x)
    ensures Filter(xs, p) == xs
  {
    if xs != [] {
      FilterAll(xs[1..], p);
      assert xs == [xs[0]] + xs[1..];
    }
  }

  lemma {:induction false} FilterNone<T>(xs: seq<T>, p: T -> bool)
    requires forall x :: x in xs ==> !p(x)
    ensures Filter(xs, p) == []
  {
    if xs != [] {
      FilterNone(xs[1..], p);
    }
  }

  /** Taking element `j` out of a sequence takes one copy of it out of the
      multiset, and out of the filtered multiset when it passes the filter. */
  lemma FilterMiddle<T>(l: seq<T>, x: T, r: seq<T>, p: T -> bool)
    ensures multiset(Filter(l + [x] + r, p)) == multiset(Filter(l + r, p)) + multiset(Filter([x], p))
  {
    FilterAppend(l + [x], r, p);
    FilterAppend(l, [x], p);
    FilterAppend(l, r, p);
    MultisetMiddle(Filter(l, p), Filter([x], p), Filter(r, p));
  }

  lemma MultisetMiddle<T>(u: seq<T>, v: seq<T>, w: seq<T>)
    ensures multiset(u + v + w) == multiset(u + w) + multiset(v)
  {
  }

  lemma MultisetCancel<T>(m: multiset<T>, n: multiset<T>, x: T)
    requires m + multiset{x} == n + multiset{x}
    ensures m == n
  {
    forall y ensures m[y] == n[y] {
      assert (m + multiset{x})[y] == (n + multiset{x})[y];
    }
  }

  /** One step of `FilterPermutation`: putting `x` in front of one side and
      between `l` and `r` on the other keeps the filtered multisets equal. */
  lemma FilterPermutationStep<T>(x: T, a: seq<T>, l: seq<T>, r: seq<T>, p: T -> bool)
    requires multiset(Filter(a, p)) == multiset(Filter(l + r, p))
    ensures multiset(Filter([x] + a, p)) == multiset(Filter(l + [x] + r, p))
  {
    FilterAppend([x], a, p);
    FilterMiddle(l, x, r, p);
  }

  /** An element of `b` that `a` holds besides `x`: `b` is `l + [x] + r`, and
      `l + r` holds what `a` does. */
  lemma Extract<T>(x: T, a: seq<T>, b: seq<T>) returns (l: seq<T>, r: seq<T>)
    requires multiset([x] + a) == multiset(b)
    ensures b == l + [x] + r && multiset(a) == multiset(l + r)
  {
    assert x in multiset([x] + a);
    assert x in b;
    var j :| 0 <= j < |b| && b[j] == x;
    l, r := b[..j], b[j + 1..];
    assert b == l + [x] + r;
    MultisetMiddle(l, [x], r);
    MultisetCancel(multiset(l + r), multiset(a), x);
  }

  /** Filtering two orderings of the same elements keeps the same elements. */
  lemma {:induction false} FilterPermutation<T>(a: seq<T>, b: seq<T>, p: T -> bool)
    requires multiset(a) == multiset(b)
    ensures multiset(Filter(a, p)) == multiset(Filter(b, p))
    decreases |a|
  {
    if a != [] {
      assert a == [a[0]] + a[1..];
      var l, r := Extract(a[0], a[1..], b);
      FilterPermutation(a[1..], l + r, p);
      FilterPermutationStep(a[0], a[1..], l, r, p);
    }
  }

  /** ... in particular the two filters have the same length. */
  lemma FilterPermutationLength<T>(a: seq<T>, b: seq<T>, p: T -> bool)
    requires multiset(a) == multiset(b)
    ensures |Filter(a, p)| == |Filter(b, p)|
  {
    FilterPermutation(a, b, p);
    assert |Filter(a, p)| == |multiset(Filter(a, p))|;
  }

  /** Two filters commute. */
  lemma {:induction false} FilterCommute<T>(xs: seq<T>, p: T -> bool, q: T -> bool)
    ensures Filter(Filter(xs, p), q) == Filter(Filter(xs, q), p)
  {
    if xs != [] {
      var x := xs[0];
      var hp := if p(x) then [x] else [];
      var hq := if q(x) then [x] else [];
      FilterCommute(xs[1..], p, q);
      FilterAppend(hp, Filter(xs[1..], p), q);
      FilterAppend(hq, Filter(xs[1..], q), p);
    }
  }
}
