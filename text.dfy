/**
 * The Python string operations the bridge relies on: code-point ordering of
 * keys (for `sorted`), `str.strip`, `str.startswith`, `str.capitalize` and the
 * decimal rendering `str(int)`.
 */
module Text {

  // ---------------------------------------------------------------------
  // Ordering: Python compares strings lexicographically by code point.
  // ---------------------------------------------------------------------

  /** Strict lexicographic order on strings, by code point. */
  predicate Below(a: string, b: string)
    decreases |a|
  {
    if a == [] then b != []
    else if b == [] then false
    else a[0] < b[0] || (a[0] == b[0] && Below(a[1..], b[1..]))
  }

  lemma {:induction false} BelowIrreflexive(a: string)
    ensures !Below(a, a)
    decreases |a|
  {
    if a != [] {
      BelowIrreflexive(a[1..]);
    }
  }

  lemma {:induction false} BelowTransitive(a: string, b: string, c: string)
    requires Below(a, b) && Below(b, c)
    ensures Below(a, c)
    decreases |a|
  {
    if a != [] && b != [] && c != [] && a[0] == b[0] == c[0] {
      BelowTransitive(a[1..], b[1..], c[1..]);
    }
  }

  lemma {:induction false} BelowTotal(a: string, b: string)
    ensures a == b || Below(a, b) || Below(b, a)
    decreases |a|
  {
    if a != [] && b != [] && a[0] == b[0] {
      BelowTotal(a[1..], b[1..]);
      if a[1..] == b[1..] {
        assert a == [a[0]] + a[1..] && b == [b[0]] + b[1..];
      }
    }
  }

  lemma BelowAsymmetric(a: string, b: string)
    requires Below(a, b)
    ensures !Below(b, a)
  {
    if Below(b, a) {
      BelowTransitive(a, b, a);
      BelowIrreflexive(a);
    }
  }

  /** Strictly increasing, hence also free of duplicates. */
  ghost predicate StrictlySorted(s: seq<string>)
  {
    forall i, j :: 0 <= i < j < |s| ==> Below(s[i], s[j])
  }

  /** `m` comes before every other element of `keys`. */
  ghost predicate IsLeast(m: string, keys: set<string>)
  {
    m in keys && forall k :: k in keys && k != m ==> Below(m, k)
  }

  lemma {:induction false} LeastExists(keys: set<string>)
    requires keys != {}
    ensures exists m :: IsLeast(m, keys)
    decreases |keys|
  {
    var x :| x in keys;
    var rest := keys - {x};
    if rest == {} {
      assert keys == {x};
      assert IsLeast(x, keys);
    } else {
      LeastExists(rest);
      var m :| IsLeast(m, rest);
      BelowTotal(x, m);
      if Below(x, m) {
        forall k | k in keys && k != x
          ensures Below(x, k)
        {
          if k != m {
            BelowTransitive(x, m, k);
          }
        }
        assert IsLeast(x, keys);
      } else {
        assert IsLeast(m, keys);
      }
    }
  }

  lemma LeastUnique(m: string, n: string, keys: set<string>)
    requires IsLeast(m, keys) && IsLeast(n, keys)
    ensures m == n
  {
    if m != n {
      BelowAsymmetric(m, n);
    }
  }

  /** `sorted(keys)`: the elements of `keys` in increasing order. */
  ghost function SortedOf(keys: set<string>): (r: seq<string>)
    ensures |r| == |keys|
    ensures forall k :: k in r <==> k in keys
    decreases |keys|
  {
    if keys == {} then []
    else
      LeastExists(keys);
      var m :| IsLeast(m, keys);
      [m] + SortedOf(keys - {m})
  }

  /** `SortedOf` lists its keys in strictly increasing order. */
  lemma {:induction false} SortedOfSorted(keys: set<string>)
    ensures StrictlySorted(SortedOf(keys))
    decreases |keys|
  {
    if keys != {} {
      LeastExists(keys);
      var m :| IsLeast(m, keys);
      SortedOfLeast(keys, m);
      var rest := SortedOf(keys - {m});
      SortedOfSorted(keys - {m});
      SortedCons(m, rest);
    }
  }

  /** A key below every key of a sorted list can go in front of it. */
  lemma SortedCons(m: string, rest: seq<string>)
    requires StrictlySorted(rest)
    requires forall k :: k in rest ==> Below(m, k)
    ensures StrictlySorted([m] + rest)
  {
    var s := [m] + rest;
    forall i, j | 0 <= i < j < |s|
      ensures Below(s[i], s[j])
    {
      assert s[j] == rest[j - 1];
      if i > 0 {
        assert s[i] == rest[i - 1];
      } else {
        assert rest[j - 1] in rest;
      }
    }
  }

  /** Unfolds `SortedOf` once at the least key. */
  lemma SortedOfLeast(keys: set<string>, m: string)
    requires IsLeast(m, keys)
    ensures SortedOf(keys) == [m] + SortedOf(keys - {m})
  {
    var s := SortedOf(keys);
    assert s[0] in keys;
    forall k | k in keys && k != s[0]
      ensures Below(s[0], k)
    {
      var i :| 0 <= i < |s| && s[i] == k;
    }
    LeastUnique(m, s[0], keys);
  }

  /** Finds the least element of a non-empty set of keys. */
  method LeastKey(keys: set<string>) returns (m: string)
    requires keys != {}
    ensures IsLeast(m, keys)
  {
    m :| m in keys;
    var todo := keys - {m};
    while todo != {}
      invariant todo <= keys && m in keys && m !in todo
      invariant forall k :: k in keys && k !in todo && k != m ==> Below(m, k)
      decreases |todo|
    {
      var k :| k in todo;
      BelowTotal(k, m);
      if Below(k, m) {
        forall j | j in keys && j !in todo && j != m
          ensures Below(k, j)
        {
          BelowTransitive(k, m, j);
        }
        m := k;
      }
      todo := todo - {k};
    }
  }

  /** `sorted(keys)` computed by repeated selection of the least key. */
  method SortKeys(keys: set<string>) returns (r: seq<string>)
    ensures r == SortedOf(keys)
  {
    r := [];
    var rest := keys;
    while rest != {}
      invariant r + SortedOf(rest) == SortedOf(keys)
      decreases rest
    {
      var m := LeastKey(rest);
      SelectLeast(r, rest, m);
      r := r + [m];
      rest := rest - {m};
    }
  }

  /** Moving the least key from the unsorted part to the end of the sorted
      part leaves the whole unchanged. */
  lemma SelectLeast(r: seq<string>, rest: set<string>, m: string)
    requires IsLeast(m, rest)
    ensures r + SortedOf(rest) == (r + [m]) + SortedOf(rest - {m})
  {
    SortedOfLeast(rest, m);
    var tail := SortedOf(rest - {m});
    assert r + ([m] + tail) == (r + [m]) + tail;
  }

  // ---------------------------------------------------------------------
  // str.strip() and str.startswith()
  // ---------------------------------------------------------------------

  /** The characters Python's `str.isspace` accepts. */
  predicate IsSpace(c: char)
  {
    var u := c as int;
    u == 0x20 || 0x09 <= u <= 0x0D || 0x1C <= u <= 0x1F || u == 0x85 || u == 0xA0
    || u == 0x1680 || 0x2000 <= u <= 0x200A || u == 0x2028 || u == 0x2029
    || u == 0x202F || u == 0x205F || u == 0x3000
  }

  /** `s.lstrip()`: the suffix of `s` left after dropping leading whitespace. */
  function TrimLeft(s: string): string
  {
    if s != [] && IsSpace(s[0]) then TrimLeft(s[1..]) else s
  }

  /** `lstrip` drops exactly the leading whitespace: what it keeps is a
      suffix of `s`, everything before it is whitespace, and the suffix does
      not start with whitespace. */
  lemma {:induction false} TrimLeftSpec(s: string)
    ensures var r := TrimLeft(s);
      |r| <= |s| && r == s[|s| - |r|..]
      && (forall i :: 0 <= i < |s| - |r| ==> IsSpace(s[i]))
      && (r == [] || !IsSpace(r[0]))
  {
    if s != [] && IsSpace(s[0]) {
      var t := s[1..];
      TrimLeftSpec(t);
      var r := TrimLeft(t);
      assert TrimLeft(s) == r;
      assert t[|t| - |r|..] == s[|s| - |r|..];
      forall i | 0 <= i < |s| - |r| ensures IsSpace(s[i]) {
        if i > 0 {
          assert s[i] == t[i - 1];
        }
      }
    }
  }

  /** `s.rstrip()`: the prefix of `s` left after dropping trailing whitespace. */
  function TrimRight(s: string): string
  {
    if s != [] && IsSpace(s[|s| - 1]) then TrimRight(s[..|s| - 1]) else s
  }

  /** `rstrip` drops exactly the trailing whitespace: what it keeps is a
      prefix of `s`, everything after it is whitespace, and the prefix does
      not end with whitespace. */
  lemma {:induction false} TrimRightSpec(s: string)
    ensures var r := TrimRight(s);
      |r| <= |s| && r == s[..|r|]
      && (forall i :: |r| <= i < |s| ==> IsSpace(s[i]))
      && (r == [] || !IsSpace(r[|r| - 1]))
  {
    if s != [] && IsSpace(s[|s| - 1]) {
      var t := s[..|s| - 1];
      TrimRightSpec(t);
      var r := TrimRight(t);
      assert TrimRight(s) == r;
      assert t[..|r|] == s[..|r|];
      forall i | |r| <= i < |s| ensures IsSpace(s[i]) {
        if i < |s| - 1 {
          assert s[i] == t[i];
        }
      }
    }
  }

  /** `s.strip()`. */
  function Strip(s: string): string
  {
    TrimRight(TrimLeft(s))
  }

  /** `strip` keeps a contiguous piece of `s`, removes only whitespace, and
      leaves no whitespace at either end. */
  lemma StripKeepsCore(s: string)
    ensures var r := Strip(s);
      exists i, j :: 0 <= i <= j <= |s| && r == s[i..j]
        && (forall k :: 0 <= k < i ==> IsSpace(s[k]))
        && (forall k :: j <= k < |s| ==> IsSpace(s[k]))
        && (r == [] || (!IsSpace(r[0]) && !IsSpace(r[|r| - 1])))
  {
    var l := TrimLeft(s);
    var r := TrimRight(l);
    TrimLeftSpec(s);
    TrimRightSpec(l);
    var i := |s| - |l|;
    var j := i + |r|;
    assert r == s[i..j];
    if r != [] {
      assert r[0] == l[0];
    }
  }

  /** A string with no whitespace at either end is its own `strip`. */
  lemma StripFixed(s: string)
    requires s == [] || (!IsSpace(s[0]) && !IsSpace(s[|s| - 1]))
    ensures Strip(s) == s
  {
  }

  /** `s.startswith(p)`. */
  predicate StartsWith(s: string, p: string)
  {
    |p| <= |s| && s[..|p|] == p
  }

  // ---------------------------------------------------------------------
  // str.capitalize(), on the ASCII letters
  // ---------------------------------------------------------------------

  function Upper(c: char): char
  {
    if 'a' <= c <= 'z' then (c as int - 32) as char else c
  }

  function Lower(c: char): char
  {
    if 'A' <= c <= 'Z' then (c as int + 32) as char else c
  }

  /** `s.capitalize()`: first character upper case, the rest lower case. */
  function Capitalize(s: string): (r: string)
    ensures |r| == |s|
  {
    if s == [] then [] else [Upper(s[0])] + seq(|s| - 1, i requires 0 <= i < |s| - 1 => Lower(s[i + 1]))
  }

  /** Capitalizing twice is capitalizing once. */
  lemma CapitalizeIdempotent(s: string)
    ensures Capitalize(Capitalize(s)) == Capitalize(s)
  {
    var c := Capitalize(s);
    if s != [] {
      assert Upper(Upper(s[0])) == Upper(s[0]);
      forall i | 1 <= i < |s|
        ensures Capitalize(c)[i] == c[i]
      {
        assert Lower(Lower(s[i])) == Lower(s[i]);
      }
    }
  }

  /** Two strings that differ only in ASCII letter case capitalize alike, so the
      device receives the same mode name whatever case the caller used. */
  lemma CapitalizeIgnoresCase(s: string, t: string)
    requires |s| == |t|
    requires forall i :: 0 <= i < |s| ==> Lower(s[i]) == Lower(t[i])
    ensures Capitalize(s) == Capitalize(t)
  {
    forall c: char
      ensures Upper(c) == Upper(Lower(c))
    {
    }
    if s != [] {
      assert Upper(s[0]) == Upper(Lower(s[0])) == Upper(Lower(t[0])) == Upper(t[0]);
    }
  }

  // ---------------------------------------------------------------------
  // str(int): decimal rendering, with its parser as the partner
  // ---------------------------------------------------------------------

  predicate IsDigit(c: char)
  {
    '0' <= c <= '9'
  }

  function DigitChar(d: nat): (c: char)
    requires d < 10
    ensures IsDigit(c)
  {
    ('0' as int + d) as char
  }

  function DigitValue(c: char): nat
    requires IsDigit(c)
  {
    c as int - '0' as int
  }

  /** Decimal digits of `n`, without leading zeros. */
  function NatDigits(n: nat): (r: string)
    ensures |r| >= 1 && (forall i :: 0 <= i < |r| ==> IsDigit(r[i]))
    ensures |r| > 1 ==> r[0] != '0'
  {
    if n < 10 then [DigitChar(n)] else NatDigits(n / 10) + [DigitChar(n % 10)]
  }

  /** `str(i)` for a Python int. */
  function IntToDecimal(i: int): string
  {
    if i < 0 then "-" + NatDigits(-i) else NatDigits(i)
  }

  /** The value of a string of decimal digits. */
  function DigitsValue(s: string): nat
    requires forall i :: 0 <= i < |s| ==> IsDigit(s[i])
  {
    if s == [] then 0 else 10 * DigitsValue(s[..|s| - 1]) + DigitValue(s[|s| - 1])
  }

  /** `int(s)` for the strings `IntToDecimal` produces. */
  function DecimalValue(s: string): int
    requires s != [] && (IsDigit(s[0]) || s[0] == '-')
    requires forall i :: 1 <= i < |s| ==> IsDigit(s[i])
  {
    if s[0] == '-' then -(DigitsValue(s[1..]) as int) else DigitsValue(s)
  }

  lemma {:induction false} NatDigitsRoundTrip(n: nat)
    ensures DigitsValue(NatDigits(n)) == n
  {
    if n >= 10 {
      NatDigitsRoundTrip(n / 10);
      var r := NatDigits(n);
      assert r[..|r| - 1] == NatDigits(n / 10);
    }
  }

  /** Rendering an int in decimal and reading it back gives the int. */
  lemma DecimalRoundTrip(i: int)
    ensures var s := IntToDecimal(i);
      s != [] && (IsDigit(s[0]) || s[0] == '-')
      && (forall k :: 1 <= k < |s| ==> IsDigit(s[k]))
      && DecimalValue(s) == i
  {
    if i < 0 {
      NatDigitsRoundTrip(-i);
      assert IntToDecimal(i)[1..] == NatDigits(-i);
    } else {
      NatDigitsRoundTrip(i);
    }
  }
}
