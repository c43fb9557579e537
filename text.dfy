/** String helpers the scripts get from Python's `str`: decimal formatting
    (`f"{n}"`), `int()` on a digit string, `sep in s`, `s.split(sep)[0]`,
    `s.split(sep)[1]`, and the code-point ordering used by `sorted()`. */
module Text {
  import opened Common

  // ---------------------------------------------------------------------
  // Decimal formatting and parsing
  // ---------------------------------------------------------------------

  predicate IsDigit(c: char) {
    '0' <= c <= '9'
  }

  predicate AllDigits(s: string) {
    forall k :: 0 <= k < |s| ==> IsDigit(s[k])
  }

  function DigitChar(d: nat): (c: char)
    requires d < 10
    ensures IsDigit(c) && c as int - '0' as int == d
  {
    (d + '0' as int) as char
  }

  /** `str(n)` for a non-negative integer. */
  function NatToString(n: nat): (s: string)
    ensures |s| > 0 && AllDigits(s)
    decreases n
  {
    if n < 10 then [DigitChar(n)] else NatToString(n / 10) + [DigitChar(n % 10)]
  }

  /** The value of a non-empty string of ASCII digits. */
  function DigitsValue(s: string): nat
    requires AllDigits(s)
    decreases |s|
  {
    if s == [] then 0
    else DigitsValue(s[..|s| - 1]) * 10 + (s[|s| - 1] as int - '0' as int)
  }

  /** `int(s)` restricted to ASCII digit strings; `None` where `int()` raises. */
  function ParseNat(s: string): Option<nat> {
    if s != [] && AllDigits(s) then Some(DigitsValue(s)) else None
  }

  /** Parsing a formatted number gives the number back. */
  lemma {:induction false} ParseNatToString(n: nat)
    ensures ParseNat(NatToString(n)) == Some(n)
    decreases n
  {
    var s := NatToString(n);
    if n >= 10 {
      ParseNatToString(n / 10);
      var p := NatToString(n / 10);
      assert s[..|s| - 1] == p;
      assert DigitsValue(s) == DigitsValue(p) * 10 + n % 10;
    }
  }

  // ---------------------------------------------------------------------
  // Substring search with the semantics of str.split
  // ---------------------------------------------------------------------

  predicate OccursAt(s: string, sep: string, k: nat) {
    k + |sep| <= |s| && s[k..k + |sep|] == sep
  }

  /** First occurrence of `sep` in `s` at or after position `k`. */
  function IndexFrom(s: string, sep: string, k: nat): (r: Option<nat>)
    requires k <= |s|
    ensures r.Some? ==> k <= r.value && r.value + |sep| <= |s|
    decreases |s| - k
  {
    if k + |sep| > |s| then None
    else if s[k..k + |sep|] == sep then Some(k)
    else IndexFrom(s, sep, k + 1)
  }

  function IndexOf(s: string, sep: string): Option<nat> {
    IndexFrom(s, sep, 0)
  }

  /** Python's `sep in s`. */
  predicate Contains(s: string, sep: string) {
    IndexOf(s, sep).Some?
  }

  /** Python's `s.split(sep)[0]`: everything before the first `sep`, or all of `s`. */
  function Before(s: string, sep: string): string {
    match IndexOf(s, sep)
    case Some(k) => s[..k]
    case None => s
  }

  /** What follows the first `sep`; `s.split(sep)[1]` is `Before(After(s, sep), sep)`. */
  function After(s: string, sep: string): string
    requires Contains(s, sep)
  {
    var k := IndexOf(s, sep).value;
    s[k + |sep|..]
  }

  /** The search from `k` finds an occurrence, the first one from `k`, and
      finds nothing only when there is none from `k` on. */
  lemma {:induction false} IndexFromFacts(s: string, sep: string, k: nat)
    requires k <= |s|
    ensures var r := IndexFrom(s, sep, k);
      && (r.Some? ==> OccursAt(s, sep, r.value))
      && (r.Some? ==> forall j :: k <= j < r.value ==> !OccursAt(s, sep, j))
      && (r.None? ==> forall j :: k <= j ==> !OccursAt(s, sep, j))
    decreases |s| - k
  {
    if k + |sep| <= |s| && s[k..k + |sep|] != sep {
      IndexFromFacts(s, sep, k + 1);
    }
  }

  /** The search returns the first position where `sep` occurs. */
  lemma FirstOccurrence(s: string, sep: string, j: nat)
    requires OccursAt(s, sep, j)
    requires forall i :: 0 <= i < j ==> !OccursAt(s, sep, i)
    ensures IndexOf(s, sep) == Some(j)
  {
    IndexFromFacts(s, sep, 0);
  }

  /** When no character of `d` can start `sep`, the first `sep` in
      `d + sep + rest` is the one right after `d`. */
  lemma FirstAfterPrefix(d: string, sep: string, rest: string)
    requires |sep| > 0
    requires forall k :: 0 <= k < |d| ==> d[k] != sep[0]
    ensures IndexOf(d + sep + rest, sep) == Some(|d|)
  {
    var s := d + sep + rest;
    assert s[|d|..|d| + |sep|] == sep;
    forall j | 0 <= j < |d| ensures !OccursAt(s, sep, j) {
      assert s[j] == d[j];
    }
    FirstOccurrence(s, sep, |d|);
  }

  /** A string in which `sep` occurs at some position contains `sep`. */
  lemma OccursContains(s: string, sep: string, j: nat)
    requires OccursAt(s, sep, j)
    ensures Contains(s, sep)
  {
    IndexFromFacts(s, sep, 0);
  }

  // ---------------------------------------------------------------------
  // Code-point ordering of strings (Python's `<=` on str, used by sort())
  // ---------------------------------------------------------------------

  predicate LexLe(a: string, b: string)
    decreases |a|
  {
    a == [] || (b != [] && (a[0] < b[0] || (a[0] == b[0] && LexLe(a[1..], b[1..]))))
  }

  lemma {:induction false} LexLeReflexive(a: string)
    ensures LexLe(a, a)
    decreases |a|
  {
    if a != [] {
      LexLeReflexive(a[1..]);
    }
  }

  lemma {:induction false} LexLeTotal(a: string, b: string)
    ensures LexLe(a, b) || LexLe(b, a)
    decreases |a|
  {
    if a != [] && b != [] && a[0] == b[0] {
      LexLeTotal(a[1..], b[1..]);
    }
  }

  lemma {:induction false} LexLeTransitive(a: string, b: string, c: string)
    requires LexLe(a, b) && LexLe(b, c)
    ensures LexLe(a, c)
    decreases |a|
  {
    if a != [] && a[0] == b[0] && b[0] == c[0] {
      LexLeTransitive(a[1..], b[1..], c[1..]);
    }
  }

  lemma {:induction false} LexLeAntisymmetric(a: string, b: string)
    requires LexLe(a, b) && LexLe(b, a)
    ensures a == b
    decreases |a|
  {
    if a != [] {
      LexLeAntisymmetric(a[1..], b[1..]);
      assert a == [a[0]] + a[1..];
      assert b == [b[0]] + b[1..];
    }
  }

  predicate SortedNames(s: seq<string>) {
    forall i, j :: 0 <= i < j < |s| ==> LexLe(s[i], s[j])
  }

  /** Insert `x` into a sorted list, before the first element it precedes. */
  function InsertName(s: seq<string>, x: string): seq<string>
    decreases |s|
  {
    if s == [] then [x]
    else if LexLe(x, s[0]) then [x] + s
    else [s[0]] + InsertName(s[1..], x)
  }

  lemma {:induction false} InsertNameSorted(s: seq<string>, x: string)
    requires SortedNames(s)
    ensures SortedNames(InsertName(s, x))
    ensures multiset(InsertName(s, x)) == multiset(s) + multiset{x}
    decreases |s|
  {
    if s == [] {
    } else if LexLe(x, s[0]) {
      var r := [x] + s;
      forall i, j | 0 <= i < j < |r| ensures LexLe(r[i], r[j]) {
        if i == 0 {
          if j > 1 {
            LexLeTransitive(x, s[0], s[j - 1]);
          }
        } else {
          assert r[i] == s[i - 1] && r[j] == s[j - 1];
        }
      }
    } else {
      LexLeTotal(x, s[0]);
      var t := InsertName(s[1..], x);
      InsertNameSorted(s[1..], x);
      assert s == [s[0]] + s[1..];
      HeadBelowInserted(s, x, t);
      var r := [s[0]] + t;
      forall i, j | 0 <= i < j < |r| ensures LexLe(r[i], r[j]) {
        if i > 0 {
          assert r[i] == t[i - 1] && r[j] == t[j - 1];
        }
      }
    }
  }

  lemma HeadBelowInserted(s: seq<string>, x: string, t: seq<string>)
    requires SortedNames(s) && s != [] && LexLe(s[0], x)
    requires multiset(t) == multiset(s[1..]) + multiset{x}
    ensures forall j :: 0 <= j < |t| ==> LexLe(s[0], t[j])
  {
    forall j | 0 <= j < |t| ensures LexLe(s[0], t[j]) {
      assert t[j] in multiset(t);
      if t[j] != x {
        assert t[j] in multiset(s[1..]);
        var k :| 0 <= k < |s[1..]| && s[1..][k] == t[j];
        assert s[k + 1] == t[j];
      }
    }
  }

  /** `sorted(names)`: an ordered permutation of `names`. */
  function SortNames(names: seq<string>): (r: seq<string>)
    ensures SortedNames(r)
    ensures multiset(r) == multiset(names)
    decreases |names|
  {
    if names == [] then []
    else
      var init := SortNames(names[..|names| - 1]);
      InsertNameSorted(init, names[|names| - 1]);
      assert names == names[..|names| - 1] + [names[|names| - 1]];
      InsertName(init, names[|names| - 1])
  }
}
