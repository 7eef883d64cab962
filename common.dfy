/** Shared vocabulary of the model: optional values with JavaScript's
    truthiness, the string operations the client and the server use
    (`trim`, `toLowerCase`, `includes`, `join`, number formatting), a
    lexicographic order standing in for `localeCompare`, first-occurrence
    de-duplication (`[...new Set(xs)]`) and a stable insertion sort standing
    in for `Array.prototype.sort`. */
module Common {

  datatype Option<+T> = None | Some(value: T)

  // ---------------------------------------------------------------------------
  // JavaScript truthiness of the values the model carries
  // ---------------------------------------------------------------------------

  /** `!!x` for a numeric field that may be absent (`undefined`/`null`). */
  predicate TruthyInt(x: Option<int>) { x.Some? && x.value != 0 }

  /** `!!s` for a text field that may be absent. */
  predicate TruthyText(s: Option<string>) { s.Some? && s.value != "" }

  /** `s || fallback` for a text field. */
  function TextOr(s: Option<string>, fallback: string): string {
    if TruthyText(s) then s.value else fallback
  }

  /** `x || null` for a numeric field. */
  function IntOrNull(x: Option<int>): Option<int> {
    if TruthyInt(x) then x else None
  }

  // ---------------------------------------------------------------------------
  // String.prototype.trim
  // ---------------------------------------------------------------------------

  /** The white space `trim` removes (ASCII white space, no-break space and
      the byte-order mark; the other Unicode space separators are not
      modelled). */
  predicate IsSpace(c: char) {
    c == ' ' || c == '\t' || c == '\n' || c == '\r' || c == '\U{B}' || c == '\U{C}'
    || c == '\U{A0}' || c == '\U{FEFF}'
  }

  predicate AllSpace(s: string) { forall i :: 0 <= i < |s| ==> IsSpace(s[i]) }

  /** The number of white-space characters `s` starts with. */
  function LeadingSpaces(s: string): (n: nat)
    ensures n <= |s|
    ensures forall k :: 0 <= k < n ==> IsSpace(s[k])
    ensures n < |s| ==> !IsSpace(s[n])
    decreases |s|
  {
    if s != [] && IsSpace(s[0]) then 1 + LeadingSpaces(s[1..]) else 0
  }

  /** Where the white space `s` ends with begins. */
  function TrailingStart(s: string): (n: nat)
    ensures n <= |s|
    ensures forall k :: n <= k < |s| ==> IsSpace(s[k])
    ensures 0 < n ==> !IsSpace(s[n - 1])
    decreases |s|
  {
    if s != [] && IsSpace(s[|s| - 1]) then TrailingStart(s[..|s| - 1]) else |s|
  }

  /** `s.trim()`: the longest infix of `s` that neither starts nor ends with
      white space, found by dropping white space from both ends. */
  function Trim(s: string): (r: string)
    ensures |r| <= |s|
    ensures r == [] || (!IsSpace(r[0]) && !IsSpace(r[|r| - 1]))
    ensures var i := LeadingSpaces(s);
      i + |r| <= |s| && r == s[i..i + |r|] &&
      (forall k :: 0 <= k < i ==> IsSpace(s[k])) && (forall k :: i + |r| <= k < |s| ==> IsSpace(s[k]))
  {
    var i := LeadingSpaces(s);
    if i == |s| then [] else s[i..TrailingStart(s)]
  }

  /** Trimming is idempotent. */
  lemma TrimIdempotent(s: string)
    ensures Trim(Trim(s)) == Trim(s)
  {
    var t := Trim(s);
    if t != [] {
      assert LeadingSpaces(t) == 0;
      assert TrailingStart(t) == |t|;
      assert t[0..|t|] == t;
    }
  }

  /** A string trims to the empty string exactly when it is all white space. */
  lemma TrimEmptyIffAllSpace(s: string)
    ensures Trim(s) == "" <==> AllSpace(s)
  {
    if AllSpace(s) {
      assert LeadingSpaces(s) == |s|;
    }
  }

  // ---------------------------------------------------------------------------
  // toLowerCase, includes, join
  // ---------------------------------------------------------------------------

  /** `toLowerCase` on one character; only the ASCII letters are mapped. */
  function LowerChar(c: char): char {
    if 'A' <= c <= 'Z' then (c as int + 32) as char else c
  }

  function ToLower(s: string): (r: string)
    ensures |r| == |s| && forall i :: 0 <= i < |s| ==> r[i] == LowerChar(s[i])
  {
    seq(|s|, i requires 0 <= i < |s| => LowerChar(s[i]))
  }

  /** Lower-casing twice is lower-casing once. */
  lemma ToLowerIdempotent(s: string)
    ensures ToLower(ToLower(s)) == ToLower(s)
  {
  }

  lemma ToLowerAppend(a: string, b: string)
    ensures ToLower(a + b) == ToLower(a) + ToLower(b)
  {
  }

  /** `s.includes(sub)`: `sub` occurs in `s` at some offset. */
  predicate Contains(s: string, sub: string)
    decreases |s|
  {
    (|sub| <= |s| && s[..|sub|] == sub) || (s != [] && Contains(s[1..], sub))
  }

  /** A text that contains `sub` contains its first character. */
  lemma {:induction false} ContainsHead(s: string, sub: string)
    requires Contains(s, sub) && sub != []
    ensures sub[0] in s
    decreases |s|
  {
    if |sub| <= |s| && s[..|sub|] == sub {
      assert s[0] == sub[0];
    } else {
      ContainsHead(s[1..], sub);
    }
  }

  /** A text contains each of its prefixes. */
  lemma ContainsPrefix(sub: string, suffix: string)
    ensures Contains(sub + suffix, sub)
  {
    assert (sub + suffix)[..|sub|] == sub;
  }

  /** A text contains each of its suffixes. */
  lemma {:induction false} ContainsSuffix(prefix: string, sub: string)
    ensures Contains(prefix + sub, sub)
    decreases |prefix|
  {
    if prefix != [] {
      assert (prefix + sub)[1..] == prefix[1..] + sub;
      ContainsSuffix(prefix[1..], sub);
    } else {
      assert (prefix + sub)[..|sub|] == sub;
    }
  }

  /** A text that contains `sub` somewhere after its start contains it. */
  lemma {:induction false} ContainsDrop(s: string, k: nat, sub: string)
    requires k <= |s| && Contains(s[k..], sub)
    ensures Contains(s, sub)
    decreases k
  {
    if k > 0 {
      assert s[1..][k - 1..] == s[k..];
      ContainsDrop(s[1..], k - 1, sub);
    }
  }

  /** A text that contains `p + sub` contains `sub`. */
  lemma {:induction false} ContainsDropFront(s: string, p: string, sub: string)
    requires Contains(s, p + sub)
    ensures Contains(s, sub)
    decreases |s|
  {
    if |p + sub| <= |s| && s[..|p + sub|] == p + sub {
      assert (p + sub)[|p|..] == sub;
      assert s[|p|..][..|sub|] == s[..|p + sub|][|p|..];
      ContainsDrop(s, |p|, sub);
    } else {
      ContainsDropFront(s[1..], p, sub);
      ContainsDrop(s, 1, sub);
    }
  }

  /** `parts.join(sep)`. */
  function Join(parts: seq<string>, sep: string): string
    decreases |parts|
  {
    if |parts| == 0 then ""
    else if |parts| == 1 then parts[0]
    else parts[0] + sep + Join(parts[1..], sep)
  }

  /** A join of non-empty parts is empty exactly when there are no parts. */
  lemma {:induction false} JoinEmptyIff(parts: seq<string>, sep: string)
    requires forall i :: 0 <= i < |parts| ==> parts[i] != ""
    ensures Join(parts, sep) == "" <==> parts == []
  {
    if |parts| == 1 {
      assert parts[0] != "";
    } else if |parts| > 1 {
      assert |parts[0] + sep + Join(parts[1..], sep)| >= |parts[0]| > 0;
    }
  }

  // ---------------------------------------------------------------------------
  // Decimal formatting of integers (template literals `${n}`, `toString()`)
  // ---------------------------------------------------------------------------

  predicate IsDigit(c: char) { '0' <= c <= '9' }

  function DigitChar(d: nat): (c: char)
    requires d < 10
    ensures IsDigit(c) && c as int - '0' as int == d
  {
    (d + '0' as int) as char
  }

  function DigitValue(c: char): (d: nat)
    requires IsDigit(c)
    ensures d < 10
  {
    c as int - '0' as int
  }

  function NatToString(n: nat): (r: string)
    ensures r != [] && forall i :: 0 <= i < |r| ==> IsDigit(r[i])
    decreases n
  {
    if n < 10 then [DigitChar(n)] else NatToString(n / 10) + [DigitChar(n % 10)]
  }

  /** `${i}` for an integer. */
  function IntToString(i: int): string {
    if i < 0 then "-" + NatToString(-i) else NatToString(i)
  }

  /** Reading a string of decimal digits back, the inverse of `NatToString`. */
  function ParseNat(s: string): nat
    requires s != [] && forall i :: 0 <= i < |s| ==> IsDigit(s[i])
    decreases |s|
  {
    if |s| == 1 then DigitValue(s[0])
    else ParseNat(s[..|s| - 1]) * 10 + DigitValue(s[|s| - 1])
  }

  lemma {:induction false} ParseNatToString(n: nat)
    ensures ParseNat(NatToString(n)) == n
    decreases n
  {
    if n >= 10 {
      var s := NatToString(n);
      assert s[..|s| - 1] == NatToString(n / 10);
      ParseNatToString(n / 10);
    }
  }

  /** Decimal formatting is injective: distinct numbers print differently. */
  lemma IntToStringInjective(a: int, b: int)
    requires IntToString(a) == IntToString(b)
    ensures a == b
  {
    if a < 0 && b < 0 {
      assert NatToString(-a) == IntToString(a)[1..] == IntToString(b)[1..] == NatToString(-b);
      NatToStringInjective(-a, -b);
    } else if a >= 0 && b >= 0 {
      NatToStringInjective(a, b);
    } else {
      SignShows(a);
      SignShows(b);
    }
  }

  lemma NatToStringInjective(m: nat, n: nat)
    requires NatToString(m) == NatToString(n)
    ensures m == n
  {
    ParseNatToString(m);
    ParseNatToString(n);
  }

  /** The text of a number starts with '-' exactly when it is negative. */
  lemma SignShows(i: int)
    ensures IntToString(i) != [] && (IntToString(i)[0] == '-' <==> i < 0)
  {
    if i >= 0 {
      assert IsDigit(NatToString(i)[0]);
    }
  }

  // ---------------------------------------------------------------------------
  // Order on strings: code-point lexicographic order, standing in for
  // localeCompare and for the default order of Array.prototype.sort
  // ---------------------------------------------------------------------------

  predicate LexLe(a: string, b: string)
    decreases |a|
  {
    a == [] || (b != [] && (a[0] < b[0] || (a[0] == b[0] && LexLe(a[1..], b[1..]))))
  }

  lemma {:induction false} LexLeTotal(a: string, b: string)
    ensures LexLe(a, b) || LexLe(b, a)
    decreases |a|
  {
    if a != [] && b != [] && a[0] == b[0] {
      LexLeTotal(a[1..], b[1..]);
    }
  }

  lemma {:induction false} LexLeTransitive(a: string, b: string, c: string)
    requires LexLe(a, b) && LexLe(b, c)
    ensures LexLe(a, c)
    decreases |a|
  {
    if a != [] && b != [] && c != [] && a[0] == b[0] == c[0] {
      LexLeTransitive(a[1..], b[1..], c[1..]);
    }
  }

  lemma {:induction false} LexLeAntisymmetric(a: string, b: string)
    requires LexLe(a, b) && LexLe(b, a)
    ensures a == b
    decreases |a|
  {
    if a != [] && b != [] {
      LexLeAntisymmetric(a[1..], b[1..]);
      assert a == [a[0]] + a[1..] && b == [b[0]] + b[1..];
    }
  }

  lemma LexLeIsTotalPreorder()
    ensures IsTotalPreorder((a: string, b: string) => LexLe(a, b))
  {
    forall a: string, b: string ensures LexLe(a, b) || LexLe(b, a) {
      LexLeTotal(a, b);
    }
    forall a: string, b: string, c: string | LexLe(a, b) && LexLe(b, c) ensures LexLe(a, c) {
      LexLeTransitive(a, b, c);
    }
  }

  /** Sign of `a.localeCompare(b)`. */
  function LexCompare(a: string, b: string): int {
    if a == b then 0 else if LexLe(a, b) then -1 else 1
  }

  lemma {:induction false} LexLeReflexive(a: string)
    ensures LexLe(a, a)
    decreases |a|
  {
    if a != [] {
      LexLeReflexive(a[1..]);
    }
  }

  /** `a.localeCompare(b) <= 0` is the order `LexLe`. */
  lemma LexCompareSign(a: string, b: string)
    ensures LexCompare(a, b) <= 0 <==> LexLe(a, b)
    ensures LexCompare(a, b) >= 0 <==> LexLe(b, a)
  {
    LexLeReflexive(a);
    if LexLe(a, b) && LexLe(b, a) {
      LexLeAntisymmetric(a, b);
    }
  }

  // ---------------------------------------------------------------------------
  // First-occurrence de-duplication: `[...new Set(xs)]`
  // ---------------------------------------------------------------------------

  predicate NoDuplicates<T(==)>(s: seq<T>) {
    forall i, j :: 0 <= i < j < |s| ==> s[i] != s[j]
  }

  /** The index of the first occurrence of `x` in `s`. */
  function FirstIndex<T(==)>(s: seq<T>, x: T): (i: nat)
    requires x in s
    ensures i < |s| && s[i] == x && x !in s[..i]
  {
    if s[0] == x then 0
    else
      var i := FirstIndex(s[1..], x);
      assert s[..i + 1] == [s[0]] + s[1..][..i];
      i + 1
  }

  /** The first occurrence of a value in a prefix is its first occurrence
      in the whole sequence. */
  lemma FirstIndexOfPrefix<T>(s: seq<T>, n: nat, x: T)
    requires n <= |s| && x in s[..n]
    ensures FirstIndex(s, x) == FirstIndex(s[..n], x)
  {
    var i, j := FirstIndex(s, x), FirstIndex(s[..n], x);
    assert s[..n][..j] == s[..j];
    forall k | 0 <= k < j ensures s[k] != x {
      assert s[..j][k] == s[k];
    }
    forall k | 0 <= k < i ensures s[k] != x {
      assert s[..i][k] == s[k];
    }
  }

  /** `[...new Set(s)]`: each value of `s` once, in the order of its first
      occurrence. */
  function Dedup<T(==,!new)>(s: seq<T>): (r: seq<T>)
    ensures forall x :: x in r <==> x in s
    ensures NoDuplicates(r)
    ensures |r| <= |s|
    ensures forall i, j :: 0 <= i < j < |r| ==> FirstIndex(s, r[i]) < FirstIndex(s, r[j])
    decreases |s|
  {
    if s == [] then []
    else
      var init := s[..|s| - 1];
      var d := Dedup(init);
      assert forall x :: x in s <==> x in init || x == s[|s| - 1];
      forall x | x in d ensures FirstIndex(s, x) == FirstIndex(init, x) < |s| - 1 {
        assert s[..|s| - 1] == init;
        FirstIndexOfPrefix(s, |s| - 1, x);
      }
      if s[|s| - 1] in d then d
      else
        var last := s[|s| - 1];
        assert s[..|s| - 1] == init;
        assert FirstIndex(s, last) == |s| - 1;
        d + [last]
  }

  /** A single value is its own set. */
  lemma DedupSingleton<T(!new)>(x: T)
    ensures Dedup([x]) == [x]
  {
    assert [x][..0] == [];
  }

  // ---------------------------------------------------------------------------
  // Sorting with a comparator that is a total preorder
  // ---------------------------------------------------------------------------

  ghost predicate IsTotalPreorder<T(!new)>(le: (T, T) -> bool) {
    (forall a, b :: le(a, b) || le(b, a)) &&
    (forall a, b, c :: le(a, b) && le(b, c) ==> le(a, c))
  }

  predicate SortedBy<T>(s: seq<T>, le: (T, T) -> bool) {
    forall i, j :: 0 <= i < j < |s| ==> le(s[i], s[j])
  }

  /** Stable insertion of `x` into the sorted `r`: after every element not
      greater than `x`. */
  method InsertSorted<T(!new)>(r: seq<T>, x: T, le: (T, T) -> bool) returns (q: seq<T>)
    requires IsTotalPreorder(le)
    requires SortedBy(r, le)
    ensures SortedBy(q, le)
    ensures multiset(q) == multiset(r) + multiset{x}
  {
    var j := 0;
    while j < |r| && le(r[j], x)
      invariant 0 <= j <= |r|
      invariant forall k :: 0 <= k < j ==> le(r[k], x)
    {
      j := j + 1;
    }
    q := r[..j] + [x] + r[j..];
    assert r[..j] + r[j..] == r;
    InsertKeepsSorted(r, x, j, le);
  }

  /** Putting `x` after the elements it does not precede and before the
      first it does keeps a sorted sequence sorted. */
  lemma InsertKeepsSorted<T(!new)>(r: seq<T>, x: T, j: int, le: (T, T) -> bool)
    requires IsTotalPreorder(le) && SortedBy(r, le)
    requires 0 <= j <= |r|
    requires forall k :: 0 <= k < j ==> le(r[k], x)
    requires j < |r| ==> !le(r[j], x)
    ensures SortedBy(r[..j] + [x] + r[j..], le)
  {
    var q := r[..j] + [x] + r[j..];
    forall k | 0 <= k < |q| ensures q[k] == if k < j then r[k] else if k == j then x else r[k - 1] {
    }
    if j < |r| {
      assert le(x, r[j]);
      forall k | j <= k < |r| ensures le(x, r[k]) {
        if k > j { assert le(r[j], r[k]); }
      }
    }
    forall a, b | 0 <= a < b < |q| ensures le(q[a], q[b]) {
      if a < j && j < b {
        assert le(r[a], x) && le(x, r[b - 1]);
      }
    }
  }

  /** A sorted permutation of `s` under the total preorder `le`, standing in
      for `Array.prototype.sort` with a comparator. */
  method InsertionSort<T(!new)>(s: seq<T>, le: (T, T) -> bool) returns (r: seq<T>)
    requires IsTotalPreorder(le)
    ensures SortedBy(r, le)
    ensures multiset(r) == multiset(s)
  {
    r := [];
    var i := 0;
    while i < |s|
      invariant 0 <= i <= |s|
      invariant SortedBy(r, le)
      invariant multiset(r) == multiset(s[..i])
    {
      r := InsertSorted(r, s[i], le);
      assert s[..i + 1] == s[..i] + [s[i]];
      i := i + 1;
    }
    assert s[..i] == s;
  }

  /** A sequence without repeats holds each value at most once. */
  lemma {:induction false} NoDuplicatesCount<T>(s: seq<T>, x: T)
    requires NoDuplicates(s)
    ensures multiset(s)[x] <= 1
    decreases |s|
  {
    if s != [] {
      var init := s[..|s| - 1];
      assert s == init + [s[|s| - 1]];
      NoDuplicatesCount(init, x);
      if x == s[|s| - 1] {
        assert x !in init;
      }
    }
  }

  /** Reordering a sequence without repeats gives one without repeats. */
  lemma NoDuplicatesPermutation<T>(s: seq<T>, t: seq<T>)
    requires NoDuplicates(s) && multiset(s) == multiset(t)
    ensures NoDuplicates(t)
  {
    forall i, j | 0 <= i < j < |t| ensures t[i] != t[j] {
      if t[i] == t[j] {
        var x := t[i];
        assert t == t[..j] + [t[j]] + t[j + 1..];
        assert x in t[..j];
        assert multiset(t)[x] >= multiset(t[..j])[x] + 1 >= 2;
        NoDuplicatesCount(s, x);
      }
    }
  }
}
