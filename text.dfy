/**
 * The string operations the record store relies on: Python's `str.strip()`
 * (used on every name, specialty, CPF, phone and reason before it is stored)
 * and the order SQLite's `ORDER BY` uses on TEXT columns.
 */
module Text {

  /** The characters for which Python's `str.isspace()` holds, i.e. the set
      that `str.strip()` with no argument removes. */
  predicate IsSpace(c: char) {
    var n := c as int;
    || (9 <= n <= 13)          // \t \n \v \f \r
    || (0x1C <= n <= 0x20)     // file/group/record/unit separators, space
    || n == 0x85 || n == 0xA0 || n == 0x1680
    || (0x2000 <= n <= 0x200A)
    || n == 0x2028 || n == 0x2029 || n == 0x202F || n == 0x205F || n == 0x3000
  }

  predicate AllSpace(s: string) {
    forall i :: 0 <= i < |s| ==> IsSpace(s[i])
  }

  /** A string with no whitespace at either end (the empty string included). */
  predicate Trimmed(t: string) {
    t == [] || (!IsSpace(t[0]) && !IsSpace(t[|t| - 1]))
  }

  /** Number of whitespace characters at the front of `s`. */
  function LeadingSpaces(s: string): (n: nat)
    ensures n <= |s|
    ensures AllSpace(s[..n])
    ensures n < |s| ==> !IsSpace(s[n])
  {
    if s == [] || !IsSpace(s[0]) then 0
    else
      var k := LeadingSpaces(s[1..]);
      assert s[1..][..k] == s[1..k + 1];
      k + 1
  }

  /** Number of whitespace characters at the back of `s`. */
  function TrailingSpaces(s: string): (n: nat)
    ensures n <= |s|
    ensures AllSpace(s[|s| - n..])
    ensures n < |s| ==> !IsSpace(s[|s| - 1 - n])
  {
    if s == [] || !IsSpace(s[|s| - 1]) then 0
    else
      var k := TrailingSpaces(s[..|s| - 1]);
      assert s[..|s| - 1][|s| - 1 - k..] == s[|s| - 1 - k..|s| - 1];
      k + 1
  }

  /** Python's `s.strip()`: `s` without its leading and trailing whitespace.
      The result is empty exactly when `s` is all whitespace; otherwise it is
      the middle of `s`, cut where the surrounding whitespace ends. */
  function Trim(s: string): (r: string)
    ensures |r| <= |s|
    ensures Trimmed(r)
    ensures r == [] <==> AllSpace(s)
  {
    var lo := LeadingSpaces(s);
    if lo == |s| then
      []
    else
      SpacesMeet(s);
      s[lo..|s| - TrailingSpaces(s)]
  }

  /** What `Trim` removes is whitespace on both sides of its result. */
  lemma TrimIsMiddle(s: string)
    ensures exists i :: 0 <= i <= |s| - |Trim(s)| && s == s[..i] + Trim(s) + s[i + |Trim(s)|..]
                        && AllSpace(s[..i]) && AllSpace(s[i + |Trim(s)|..])
  {
    var lo := LeadingSpaces(s);
    if lo == |s| {
      assert s[..lo] == s;
      Split3(s, 0, 0);
    } else {
      SpacesMeet(s);
    }
  }

  /** When `s` is not all whitespace, its leading and trailing whitespace
      leave a non-empty, trimmed middle. */
  lemma SpacesMeet(s: string)
    requires LeadingSpaces(s) < |s|
    ensures LeadingSpaces(s) < |s| - TrailingSpaces(s)
    ensures Trimmed(s[LeadingSpaces(s)..|s| - TrailingSpaces(s)])
    ensures !AllSpace(s)
    ensures s == s[..LeadingSpaces(s)] + s[LeadingSpaces(s)..|s| - TrailingSpaces(s)] + s[|s| - TrailingSpaces(s)..]
  {
    var lo, hi := LeadingSpaces(s), |s| - TrailingSpaces(s);
    SpacesOrdered(s);
    EndsOfSlice(s, lo, hi);
    Split3(s, lo, hi);
  }

  /** The first non-space character comes before the trailing whitespace. */
  lemma SpacesOrdered(s: string)
    requires LeadingSpaces(s) < |s|
    ensures LeadingSpaces(s) < |s| - TrailingSpaces(s)
    ensures !IsSpace(s[LeadingSpaces(s)]) && !IsSpace(s[|s| - TrailingSpaces(s) - 1])
  {
  }

  /** A slice ends with the characters at its bounds. */
  lemma EndsOfSlice(s: string, lo: nat, hi: nat)
    requires lo < hi <= |s|
    requires !IsSpace(s[lo]) && !IsSpace(s[hi - 1])
    ensures Trimmed(s[lo..hi])
  {
    assert s[lo..hi][0] == s[lo] && s[lo..hi][hi - lo - 1] == s[hi - 1];
  }

  lemma Split3<T>(s: seq<T>, i: nat, j: nat)
    requires i <= j <= |s|
    ensures s == s[..i] + s[i..j] + s[j..]
  {
  }

  /** Both halves of Python's `if not nome.strip()` guard: the name is accepted
      exactly when some character of it is not whitespace. */
  predicate NameOk(s: string)
    ensures NameOk(s) <==> !AllSpace(s)
  {
    Trim(s) != []
  }

  lemma NameOkIff(s: string)
    ensures NameOk(s) <==> exists i :: 0 <= i < |s| && !IsSpace(s[i])
  {
  }

  lemma {:induction false} LeadingOfTrimmed(a: string, t: string)
    requires AllSpace(a) && t != [] && !IsSpace(t[0])
    ensures LeadingSpaces(a + t) == |a|
  {
    if a != [] {
      assert (a + t)[1..] == a[1..] + t;
      LeadingOfTrimmed(a[1..], t);
    }
  }

  lemma {:induction false} TrailingOfTrimmed(t: string, b: string)
    requires AllSpace(b) && t != [] && !IsSpace(t[|t| - 1])
    ensures TrailingSpaces(t + b) == |b|
  {
    if b != [] {
      assert (t + b)[..|t + b| - 1] == t + b[..|b| - 1];
      TrailingOfTrimmed(t, b[..|b| - 1]);
    }
  }

  /** Trim is determined by its contract: whitespace around a trimmed core
      is exactly what it removes. */
  lemma TrimPadded(a: string, t: string, b: string)
    requires AllSpace(a) && AllSpace(b) && Trimmed(t)
    ensures Trim(a + t + b) == t
  {
    var s := a + t + b;
    if t == [] {
      assert AllSpace(s) by {
        forall i | 0 <= i < |s| ensures IsSpace(s[i]) {
          if i < |a| { assert s[i] == a[i]; } else { assert s[i] == b[i - |a|]; }
        }
      }
    } else {
      assert s == a + (t + b);
      LeadingOfTrimmed(a, t + b);
      TrailingOfTrimmed(a + t, b);
      assert s == (a + t) + b;
      assert Trim(s) == s[|a|..|s| - |b|];
      assert s[|a|..|s| - |b|] == t;
    }
  }

  /** A string with no whitespace at its ends is left as it is. */
  lemma TrimTrimmed(t: string)
    requires Trimmed(t)
    ensures Trim(t) == t
  {
    assert t == [] + t + [];
    TrimPadded([], t, []);
  }

  /** Stripping twice is the same as stripping once, so a stored name is
      already in the form `inserir_*` would store it. */
  lemma TrimIdempotent(s: string)
    ensures Trim(Trim(s)) == Trim(s)
  {
    var t := Trim(s);
    assert t == [] + t + [];
    TrimPadded([], t, []);
  }

  /** SQLite's BINARY collation: code-point-wise lexicographic order, a proper
      prefix first. (On valid UTF-8 this agrees with comparing the bytes.) */
  predicate StrLe(a: string, b: string)
    decreases |a|
  {
    if a == [] then true
    else if b == [] then false
    else if a[0] != b[0] then a[0] < b[0]
    else StrLe(a[1..], b[1..])
  }

  lemma {:induction false} StrLeReflexive(a: string)
    ensures StrLe(a, a)
    decreases |a|
  {
    if a != [] { StrLeReflexive(a[1..]); }
  }

  lemma {:induction false} StrLeTotal(a: string, b: string)
    ensures StrLe(a, b) || StrLe(b, a)
    decreases |a|
  {
    if a != [] && b != [] && a[0] == b[0] { StrLeTotal(a[1..], b[1..]); }
  }

  lemma {:induction false} StrLeAntisymmetric(a: string, b: string)
    requires StrLe(a, b) && StrLe(b, a)
    ensures a == b
    decreases |a|
  {
    if a != [] && b != [] {
      StrLeAntisymmetric(a[1..], b[1..]);
      assert a == [a[0]] + a[1..] && b == [b[0]] + b[1..];
    }
  }

  lemma {:induction false} StrLeTransitive(a: string, b: string, c: string)
    requires StrLe(a, b) && StrLe(b, c)
    ensures StrLe(a, c)
    decreases |a|
  {
    if a != [] && b != [] && c != [] && a[0] == b[0] && b[0] == c[0] {
      StrLeTransitive(a[1..], b[1..], c[1..]);
    }
  }

  /** Comparing two strings that start with blocks of the same length: the
      blocks decide, unless they are equal, in which case the rest does. */
  lemma {:induction false} StrLeConcat(p: string, q: string, p': string, q': string)
    requires |p| == |p'|
    ensures StrLe(p + q, p' + q') == if p == p' then StrLe(q, q') else StrLe(p, p')
    decreases |p|
  {
    if p != [] {
      assert (p + q)[0] == p[0] && (p' + q')[0] == p'[0];
      assert (p + q)[1..] == p[1..] + q && (p' + q')[1..] == p'[1..] + q';
      StrLeConcat(p[1..], q, p'[1..], q');
      if p[0] == p'[0] {
        assert p == p' <==> p[1..] == p'[1..] by {
          assert p == [p[0]] + p[1..] && p' == [p'[0]] + p'[1..];
        }
      }
    } else {
      assert p + q == q && p' + q' == q';
    }
  }
}
