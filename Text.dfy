/**
 * The handful of Python string builtins the notifier relies on, written out:
 * `str(n)` for integers, `str.join`, the `<` order on `str` used by `sorted`,
 * `sorted(d.keys())` for a set of host names, and `os.path.basename`.
 */
module Text {
  import opened Wrappers

  predicate IsDigit(c: char) { '0' <= c <= '9' }

  predicate AllDigits(s: string) { forall i :: 0 <= i < |s| ==> IsDigit(s[i]) }

  /** `t` starts with `prefix`. */
  predicate StartsWith(t: string, prefix: string) { |prefix| <= |t| && t[..|prefix|] == prefix }

  /** `t` ends with `suffix`. */
  predicate EndsWith(t: string, suffix: string) { |suffix| <= |t| && t[|t| - |suffix|..] == suffix }

  /** Appending the same text to a string and to one of its suffixes keeps it a suffix. */
  lemma EndsWithAppend(t: string, suffix: string, rest: string)
    requires EndsWith(t, suffix)
    ensures EndsWith(t + rest, suffix + rest)
  {
    assert (t + rest)[|t + rest| - |suffix + rest|..] == t[|t| - |suffix|..] + rest;
  }

  /** A suffix of a suffix is a suffix. */
  lemma EndsWithTrans(a: string, b: string, c: string)
    requires EndsWith(a, b) && EndsWith(b, c)
    ensures EndsWith(a, c)
  {
    assert a[|a| - |c|..] == a[|a| - |b|..][|b| - |c|..];
  }

  function DigitChar(d: nat): (c: char)
    requires d < 10
    ensures IsDigit(c)
  {
    (d + '0' as int) as char
  }

  // ---------------------------------------------------------------------------
  // str(n) and its inverse

  /** A non-empty run of digits without a leading zero, unless it is `0` itself. */
  predicate Canonical(s: string)
  {
    |s| > 0 && AllDigits(s) && (s[0] == '0' ==> |s| == 1)
  }

  /** Decimal text of a natural number, most significant digit first, with no leading zero. */
  function Decimal(n: nat): (s: string)
    ensures Canonical(s)
    ensures s[0] == '0' <==> n == 0
    ensures |s| == 1 <==> n < 10
  {
    if n < 10 then [DigitChar(n)]
    else
      var s := Decimal(n / 10) + [DigitChar(n % 10)];
      assert s[0] == Decimal(n / 10)[0];
      s
  }

  /** Value of a string of decimal digits. */
  function DigitsValue(s: string): nat
    requires AllDigits(s)
  {
    if s == [] then 0 else DigitsValue(s[..|s| - 1]) * 10 + (s[|s| - 1] as int - '0' as int)
  }

  /** Reads the decimal text of a natural number; text with a leading zero or a non-digit is rejected. */
  function ParseDecimal(s: string): (r: Option<nat>)
    ensures r.Some? <==> Canonical(s)
  {
    if Canonical(s) then Some(DigitsValue(s)) else None
  }

  lemma {:induction false} DecimalValue(n: nat)
    ensures DigitsValue(Decimal(n)) == n
  {
    var s := Decimal(n);
    if n >= 10 {
      DecimalValue(n / 10);
      assert s[..|s| - 1] == Decimal(n / 10);
    }
  }

  /** Reading back the decimal text of `n` gives `n`. */
  lemma DecimalRoundTrip(n: nat)
    ensures ParseDecimal(Decimal(n)) == Some(n)
  {
    DecimalValue(n);
  }

  /** A digit run without a leading zero has a positive value. */
  lemma {:induction false} LeadingDigitPositive(s: string)
    requires |s| > 0 && AllDigits(s) && s[0] != '0'
    ensures DigitsValue(s) > 0
    decreases |s|
  {
    if |s| > 1 {
      LeadingDigitPositive(s[..|s| - 1]);
    }
  }

  /** Every text the reader accepts is the decimal text of what it reads: `str(n)` is the only spelling of `n`. */
  lemma {:induction false} ParseDecimalExact(s: string)
    requires ParseDecimal(s).Some?
    ensures Decimal(ParseDecimal(s).value) == s
    decreases |s|
  {
    var n := DigitsValue(s);
    if |s| == 1 {
      assert s[..|s| - 1] == [] && IsDigit(s[0]);
      assert DigitsValue(s[..|s| - 1]) == 0;
      assert n == s[0] as int - '0' as int;
      assert s == [DigitChar(n)];
    } else {
      var init := s[..|s| - 1];
      LeadingDigitPositive(init);
      assert Canonical(init);
      ParseDecimalExact(init);
      assert n / 10 == DigitsValue(init) && n >= 10;
      assert s == init + [DigitChar(n % 10)];
    }
  }

  /** `str(n)` for an integer: a minus sign in front of a negative number. */
  function IntText(n: int): (s: string)
    ensures |s| > 0
    ensures n >= 0 <==> AllDigits(s)
    ensures n < 0 <==> s[0] == '-'
  {
    if n < 0 then
      var s := "-" + Decimal(-n);
      assert !IsDigit(s[0]);
      s
    else Decimal(n)
  }

  /** Reads an optionally negative decimal integer. */
  function ParseInt(s: string): (r: Option<int>)
  {
    if |s| > 0 && s[0] == '-' then
      match ParseDecimal(s[1..])
      case Some(v) => if v > 0 then Some(-(v as int)) else None
      case None => None
    else
      match ParseDecimal(s)
      case Some(v) => Some(v)
      case None => None
  }

  /** Reading back the text of `n` gives `n`. */
  lemma IntRoundTrip(n: int)
    ensures ParseInt(IntText(n)) == Some(n)
  {
    if n < 0 {
      assert IntText(n)[1..] == Decimal(-n);
      DecimalRoundTrip(-n);
    } else {
      DecimalRoundTrip(n);
    }
  }

  /** Every text the reader accepts is the text of what it reads: no `-0`, no leading zeros. */
  lemma IntTextExact(s: string)
    requires ParseInt(s).Some?
    ensures IntText(ParseInt(s).value) == s
  {
    if |s| > 0 && s[0] == '-' {
      ParseDecimalExact(s[1..]);
      assert s == "-" + s[1..];
    } else {
      ParseDecimalExact(s);
    }
  }

  /** `s.find(c)`: the first position of `c` in `s`, if any. */
  function IndexOf(s: string, c: char): (r: Option<nat>)
    ensures r.None? <==> c !in s
    ensures r.Some? ==> r.value < |s| && s[r.value] == c && c !in s[..r.value]
  {
    if |s| == 0 then None
    else if s[0] == c then Some(0)
    else match IndexOf(s[1..], c)
      case None => None
      case Some(i) =>
        assert s[..i + 1] == [s[0]] + s[1..][..i];
        Some(i + 1)
  }

  /** The first `c` in `a + [c] + b` is the one right after `a` when `a` has none. */
  lemma IndexOfAfter(a: string, c: char, b: string)
    requires c !in a
    ensures IndexOf(a + [c] + b, c) == Some(|a|)
  {
    assert (a + [c] + b)[|a|] == c;
  }

  // ---------------------------------------------------------------------------
  // str.join

  /** `sep.join(parts)`. */
  function Join(parts: seq<string>, sep: string): string
  {
    if |parts| == 0 then ""
    else if |parts| == 1 then parts[0]
    else Join(parts[..|parts| - 1], sep) + sep + parts[|parts| - 1]
  }

  /** A joined string begins with the first part and ends with the last part. */
  lemma {:induction false} JoinEnds(parts: seq<string>, sep: string)
    requires |parts| > 0
    ensures StartsWith(Join(parts, sep), parts[0])
    ensures EndsWith(Join(parts, sep), parts[|parts| - 1])
  {
    if |parts| > 1 {
      JoinEnds(parts[..|parts| - 1], sep);
    }
  }

  /** Joining two non-empty runs of parts puts one separator between them. */
  lemma {:induction false} JoinConcat(a: seq<string>, b: seq<string>, sep: string)
    requires |a| > 0 && |b| > 0
    ensures Join(a + b, sep) == Join(a, sep) + sep + Join(b, sep)
    decreases |b|
  {
    var ab := a + b;
    if |b| == 1 {
      assert ab[..|ab| - 1] == a;
    } else {
      var b' := b[..|b| - 1];
      assert ab[..|ab| - 1] == a + b';
      assert b'[..|b'|] == b';
      JoinConcat(a, b', sep);
    }
  }

  // ---------------------------------------------------------------------------
  // The order of Python's `<` on str: code point by code point, and a proper
  // prefix comes first.

  predicate Below(a: string, b: string)
  {
    if |a| == 0 then |b| > 0
    else if |b| == 0 then false
    else if a[0] != b[0] then a[0] < b[0]
    else Below(a[1..], b[1..])
  }

  lemma {:induction false} BelowIrreflexive(a: string)
    ensures !Below(a, a)
  {
    if |a| > 0 {
      BelowIrreflexive(a[1..]);
    }
  }

  lemma {:induction false} BelowTransitive(a: string, b: string, c: string)
    requires Below(a, b) && Below(b, c)
    ensures Below(a, c)
  {
    if |a| > 0 && a[0] == b[0] && b[0] == c[0] {
      BelowTransitive(a[1..], b[1..], c[1..]);
    }
  }

  lemma {:induction false} BelowTotal(a: string, b: string)
    requires a != b
    ensures Below(a, b) || Below(b, a)
  {
    if |a| > 0 && |b| > 0 && a[0] == b[0] {
      assert a == [a[0]] + a[1..] && b == [b[0]] + b[1..];
      BelowTotal(a[1..], b[1..]);
    }
  }

  /** No two strings are each below the other. */
  lemma BelowAsymmetric(a: string, b: string)
    requires Below(a, b)
    ensures !Below(b, a)
  {
    if Below(b, a) {
      BelowTransitive(a, b, a);
      BelowIrreflexive(a);
    }
  }

  /** BelowAsymmetric for all pairs at once, the form `Least` needs to show its choice is unique. */
  lemma BelowAsymmetricAll()
    ensures forall a, b :: Below(a, b) ==> !Below(b, a)
  {
    forall a, b | Below(a, b) ensures !Below(b, a) {
      BelowAsymmetric(a, b);
    }
  }

  predicate IsLeast(m: string, s: set<string>)
  {
    m in s && forall x :: x in s && x != m ==> Below(m, x)
  }

  lemma {:induction false} LeastExists(s: set<string>)
    requires s != {}
    ensures exists m :: IsLeast(m, s)
    decreases |s|
  {
    var x :| x in s;
    if s == {x} {
      assert IsLeast(x, s);
    } else {
      LeastExists(s - {x});
      var m :| IsLeast(m, s - {x});
      BelowTotal(x, m);
      if Below(x, m) {
        forall y | y in s && y != x ensures Below(x, y) {
          if y != m { BelowTransitive(x, m, y); }
        }
        assert IsLeast(x, s);
      } else {
        assert IsLeast(m, s);
      }
    }
  }

  /** The smallest string of a non-empty set. */
  function Least(s: set<string>): (m: string)
    requires s != {}
    ensures m in s
    ensures forall x :: x in s && x != m ==> Below(m, x)
  {
    LeastExists(s);
    BelowAsymmetricAll();
    var m :| IsLeast(m, s); m
  }

  predicate Increasing(r: seq<string>)
  {
    forall i, j :: 0 <= i < j < |r| ==> Below(r[i], r[j])
  }

  /** `sorted(keys)`: the keys in strictly increasing order, each exactly once. */
  function SortedKeys(keys: set<string>): (r: seq<string>)
    ensures |r| == |keys|
    ensures forall k :: k in r <==> k in keys
    ensures Increasing(r)
  {
    if keys == {} then []
    else
      var m := Least(keys);
      var rest := SortedKeys(keys - {m});
      assert forall j :: 0 < j < |[m] + rest| ==> ([m] + rest)[j] == rest[j - 1];
      [m] + rest
  }

  /** There is only one sorted listing of a set: any increasing sequence holding exactly the keys is `SortedKeys`. */
  lemma {:induction false} SortedKeysUnique(keys: set<string>, r: seq<string>)
    requires Increasing(r)
    requires forall k :: k in r <==> k in keys
    ensures r == SortedKeys(keys)
    decreases |r|
  {
    if keys == {} {
      assert r == [];
    } else {
      var m := Least(keys);
      assert r != [] by { assert m in r; }
      if r[0] != m {
        var k :| 0 <= k < |r| && r[k] == m;
        assert Below(m, r[0]);
        if k == 0 {
        } else {
          assert Below(r[0], r[k]);
          BelowAsymmetric(m, r[0]);
        }
        assert false;
      }
      var rest := r[1..];
      forall k ensures k in rest <==> k in keys - {m} {
        if k in rest {
          var j :| 0 <= j < |rest| && rest[j] == k;
          assert Below(r[0], r[j + 1]);
          BelowIrreflexive(m);
        }
        if k in keys - {m} {
          assert k in r;
          var j :| 0 <= j < |r| && r[j] == k;
          assert j != 0;
          assert rest[j - 1] == k;
        }
      }
      assert Increasing(rest) by {
        forall i, j | 0 <= i < j < |rest| ensures Below(rest[i], rest[j]) {
          assert rest[i] == r[i + 1] && rest[j] == r[j + 1];
        }
      }
      SortedKeysUnique(keys - {m}, rest);
      assert r == [m] + rest;
    }
  }

  // ---------------------------------------------------------------------------
  // os.path.basename

  /** The part of `path` after its last `/` (all of it when there is none). */
  function Basename(path: string): (r: string)
    ensures '/' !in r
    ensures EndsWith(path, r)
    ensures |r| < |path| ==> path[|path| - |r| - 1] == '/'
  {
    if |path| == 0 || path[|path| - 1] == '/' then ""
    else Basename(path[..|path| - 1]) + [path[|path| - 1]]
  }
}
