/**
 * The few Python text primitives the core relies on: `str.split` with an
 * explicit separator, `int()` applied to a string, `str()` of an integer and
 * the `:04d` format specification. Each is modelled with the error it raises
 * and is paired with its inverse.
 */
module PyText {
  import opened Wrappers

  /** The Python exceptions the core can raise or catch. */
  datatype PyError = ValueError | IndexError

  // ---------------------------------------------------------------------------
  // str.split(sep) and its inverse sep.join(parts)
  // ---------------------------------------------------------------------------

  /** Position of the first occurrence of `c` in `s`. */
  function FirstIndex(s: string, c: char): (k: nat)
    requires c in s
    ensures k < |s| && s[k] == c && c !in s[..k]
  {
    if s[0] == c then 0
    else
      var k' := FirstIndex(s[1..], c);
      assert s[..k' + 1] == [s[0]] + s[1..][..k'];
      k' + 1
  }

  /** `sep.join(parts)`. */
  function Join(parts: seq<string>, sep: char): string
  {
    if |parts| == 0 then ""
    else if |parts| == 1 then parts[0]
    else parts[0] + [sep] + Join(parts[1..], sep)
  }

  /**
   * `s.split(sep)` for a one-character separator: the pieces between the
   * occurrences of `sep`. There is always at least one piece (the empty
   * string splits into `[""]`), no piece contains `sep`, and joining the
   * pieces back gives `s`.
   */
  function Split(s: string, sep: char): (parts: seq<string>)
    ensures |parts| >= 1
    ensures forall i :: 0 <= i < |parts| ==> sep !in parts[i]
    ensures Join(parts, sep) == s
    decreases |s|
  {
    if sep !in s then [s]
    else
      var k := FirstIndex(s, sep);
      var rest := Split(s[k + 1..], sep);
      assert ([s[..k]] + rest)[1..] == rest;
      assert s == s[..k] + [sep] + s[k + 1..];
      [s[..k]] + rest
  }

  /** The first separator of `a + [sep] + b` is the one after `a` when `a` has none. */
  lemma FirstIndexAfterPrefix(a: string, sep: char, b: string)
    requires sep !in a
    ensures sep in a + [sep] + b && FirstIndex(a + [sep] + b, sep) == |a|
  {
    var s := a + [sep] + b;
    assert s[|a|] == sep;
    assert s[..|a|] == a;
  }

  /** Splitting what was joined gives back the parts, provided no part holds the separator. */
  lemma {:induction false} SplitJoin(parts: seq<string>, sep: char)
    requires |parts| >= 1
    requires forall i :: 0 <= i < |parts| ==> sep !in parts[i]
    ensures Split(Join(parts, sep), sep) == parts
    decreases |parts|
  {
    if |parts| > 1 {
      var head, rest := parts[0], parts[1..];
      var tail := Join(rest, sep);
      var s := head + [sep] + tail;
      assert Join(parts, sep) == s;
      FirstIndexAfterPrefix(head, sep, tail);
      assert s[|head| + 1..] == tail;
      assert s[..|head|] == head;
      assert Split(s, sep) == [head] + Split(tail, sep);
      forall i | 0 <= i < |rest|
        ensures sep !in rest[i]
      {
        assert rest[i] == parts[i + 1];
      }
      SplitJoin(rest, sep);
      assert [head] + rest == parts;
    }
  }

  /** The first piece of a split is everything before the first separator. */
  lemma SplitHead(a: string, sep: char, b: string)
    requires sep !in a
    ensures Split(a + [sep] + b, sep)[0] == a
  {
    FirstIndexAfterPrefix(a, sep, b);
    var s := a + [sep] + b;
    assert s[..|a|] == a;
  }

  /** A split into exactly two pieces means exactly one separator: none after the first. */
  lemma SplitInTwo(s: string, sep: char)
    ensures |Split(s, sep)| == 2 ==> sep in s && sep !in s[FirstIndex(s, sep) + 1..]
  {
    if sep in s {
      var rest := s[FirstIndex(s, sep) + 1..];
      if sep in rest {
        assert |Split(rest, sep)| >= 2;
      }
    }
  }

  /** Splitting `a + [sep] + b` where neither side holds the separator gives `[a, b]`. */
  lemma SplitPair(a: string, sep: char, b: string)
    requires sep !in a && sep !in b
    ensures Split(a + [sep] + b, sep) == [a, b]
  {
    assert Join([a, b], sep) == a + [sep] + b by {
      assert [a, b][1..] == [b];
    }
    SplitJoin([a, b], sep);
  }

  // ---------------------------------------------------------------------------
  // int(s) for a string s
  // ---------------------------------------------------------------------------

  /** The ASCII characters Python's `int()` skips around the number. */
  predicate IsSpace(c: char)
  {
    c == ' ' || c == '\t' || c == '\n' || c == '\r' || c == '\U{000B}' || c == '\U{000C}'
  }

  predicate IsDigit(c: char)
  {
    '0' <= c <= '9'
  }

  function DigitValue(c: char): (d: nat)
    requires IsDigit(c)
    ensures d < 10
  {
    c as int - '0' as int
  }

  /** `s` without its leading whitespace. */
  function TrimStart(s: string): string
  {
    if |s| > 0 && IsSpace(s[0]) then TrimStart(s[1..]) else s
  }

  /** `s` without its trailing whitespace. */
  function TrimEnd(s: string): string
  {
    if |s| > 0 && IsSpace(s[|s| - 1]) then TrimEnd(s[..|s| - 1]) else s
  }

  /** `s.strip()` restricted to the whitespace `int()` skips. */
  function Strip(s: string): string
  {
    TrimEnd(TrimStart(s))
  }

  /** Trimming the front leaves a suffix that starts with a non-space. */
  lemma {:induction false} TrimStartSuffix(s: string)
    ensures |TrimStart(s)| <= |s| && TrimStart(s) == s[|s| - |TrimStart(s)|..]
    ensures TrimStart(s) != [] ==> !IsSpace(TrimStart(s)[0])
  {
    if |s| > 0 && IsSpace(s[0]) {
      TrimStartSuffix(s[1..]);
    }
  }

  /** Trimming the back leaves a prefix that ends with a non-space. */
  lemma {:induction false} TrimEndPrefix(s: string)
    ensures |TrimEnd(s)| <= |s| && TrimEnd(s) == s[..|TrimEnd(s)|]
    ensures TrimEnd(s) != [] ==> !IsSpace(TrimEnd(s)[|TrimEnd(s)| - 1])
  {
    if |s| > 0 && IsSpace(s[|s| - 1]) {
      TrimEndPrefix(s[..|s| - 1]);
    }
  }

  /** Stripping keeps a contiguous piece of `s`: every character of the result is in `s`. */
  lemma StripWithin(s: string)
    ensures forall c :: c in Strip(s) ==> c in s
  {
    var t := TrimStart(s);
    TrimStartSuffix(s);
    TrimEndPrefix(t);
    assert forall c :: c in Strip(s) ==> c in t;
  }

  /**
   * The digit part of a Python integer literal: one or more decimal digits,
   * where a single underscore may stand between two digits ("1_000"): it
   * starts and ends with a digit and has no two underscores in a row.
   */
  predicate IsDigitRun(t: string)
  {
    && |t| > 0
    && IsDigit(t[0])
    && IsDigit(t[|t| - 1])
    && DigitsOrUnderscores(t)
    && forall i, j :: 0 <= i < |t| && 0 <= j < |t| && j == i + 1 && t[i] == '_' ==> t[j] != '_'
  }

  predicate DigitsOrUnderscores(t: string)
  {
    forall i :: 0 <= i < |t| ==> IsDigit(t[i]) || t[i] == '_'
  }

  /** The number a run of digits and underscores denotes; underscores are ignored. */
  function DigitsValue(t: string): nat
    requires DigitsOrUnderscores(t)
  {
    if t == [] then 0
    else if t[|t| - 1] == '_' then DigitsValue(t[..|t| - 1])
    else 10 * DigitsValue(t[..|t| - 1]) + DigitValue(t[|t| - 1])
  }

  /**
   * `int(s)` for a string: surrounding whitespace, an optional sign, then a
   * digit run. `None` stands for the ValueError Python raises otherwise.
   */
  function ParseInt(s: string): Option<int>
  {
    var t := Strip(s);
    if |t| > 0 && (t[0] == '+' || t[0] == '-') then
      if IsDigitRun(t[1..]) then
        var magnitude: int := DigitsValue(t[1..]);
        Some(if t[0] == '-' then -magnitude else magnitude)
      else None
    else if IsDigitRun(t) then Some(DigitsValue(t))
    else None
  }

  // ---------------------------------------------------------------------------
  // str(n) and f"{n:04d}"
  // ---------------------------------------------------------------------------

  function DigitChar(d: nat): (c: char)
    requires d < 10
    ensures IsDigit(c) && DigitValue(c) == d
  {
    ('0' as int + d) as char
  }

  /** Decimal digits of `n`, most significant first, without leading zeros. */
  function ShowNat(n: nat): (s: string)
    ensures |s| >= 1
    ensures forall i :: 0 <= i < |s| ==> IsDigit(s[i])
    ensures n >= 10 ==> s[0] != '0'
  {
    if n < 10 then [DigitChar(n)] else ShowNat(n / 10) + [DigitChar(n % 10)]
  }

  /** `str(n)`: the digits of |n|, after a minus sign when `n` is negative. */
  function ShowInt(n: int): (s: string)
    ensures |s| >= 1 && (s[0] == '-' <==> n < 0)
    ensures forall i :: 0 <= i < |s| ==> IsDigit(s[i]) || (i == 0 && s[i] == '-')
  {
    if n < 0 then "-" + ShowNat(-n) else ShowNat(n)
  }

  function Zeros(k: nat): (z: string)
    ensures |z| == k && forall i :: 0 <= i < k ==> z[i] == '0'
  {
    seq(k, _ => '0')
  }

  /** `f"{n:04d}"` for a non-negative `n`: its digits, left-padded with zeros to four characters. */
  function Format04(n: nat): (s: string)
    ensures |s| >= 4
    ensures n < 1000 ==> |s| == 4
    ensures forall i :: 0 <= i < |s| ==> IsDigit(s[i])
  {
    var digits := ShowNat(n);
    ShowNatBelowThousand(n);
    if |digits| >= 4 then digits else Zeros(4 - |digits|) + digits
  }

  /** A number below 1000 has at most three digits. */
  lemma ShowNatBelowThousand(n: nat)
    ensures n < 1000 ==> |ShowNat(n)| <= 3
  {
    if 10 <= n < 1000 {
      ShowNatStep(n);
      if n / 10 >= 10 {
        ShowNatStep(n / 10);
      }
    }
  }

  // ---------------------------------------------------------------------------
  // Round trips
  // ---------------------------------------------------------------------------

  /** The digits of `n` read back as `n`. */
  lemma {:induction false} DigitsOfShowNat(n: nat)
    ensures IsDigitRun(ShowNat(n)) && DigitsValue(ShowNat(n)) == n
  {
    if n >= 10 {
      var s := ShowNat(n);
      DigitsOfShowNat(n / 10);
      assert s[..|s| - 1] == ShowNat(n / 10);
    }
  }

  /** Leading zeros do not change the value of a digit string. */
  lemma {:induction false} LeadingZeros(k: nat, t: string)
    requires forall i :: 0 <= i < |t| ==> IsDigit(t[i])
    ensures DigitsOrUnderscores(Zeros(k) + t)
    ensures DigitsValue(Zeros(k) + t) == DigitsValue(t)
    decreases k + |t|
  {
    var s := Zeros(k) + t;
    if t == [] {
      assert s == Zeros(k);
      if k > 0 {
        assert s[..|s| - 1] == Zeros(k - 1) + [];
        LeadingZeros(k - 1, []);
      }
    } else {
      assert s[..|s| - 1] == Zeros(k) + t[..|t| - 1];
      LeadingZeros(k, t[..|t| - 1]);
    }
  }

  /** A string that starts and ends with a non-space is its own strip. */
  lemma StripUnpadded(s: string)
    requires |s| > 0 && !IsSpace(s[0]) && !IsSpace(s[|s| - 1])
    ensures Strip(s) == s
  {
  }

  /** Only a minus sign makes `int()` negative. */
  lemma ParseIntSign(s: string)
    ensures ParseInt(s).Some? && ParseInt(s).value < 0 ==> '-' in s
  {
    StripWithin(s);
    var t := Strip(s);
    if |t| > 0 && t[0] == '-' {
      assert t[0] in t;
    }
  }

  /** A bare digit run parses to its value. */
  lemma ParseDigitRun(t: string)
    requires IsDigitRun(t)
    ensures ParseInt(t) == Some(DigitsValue(t))
  {
    assert IsDigit(t[|t| - 1]);
    StripUnpadded(t);
  }

  /** A minus sign followed by a digit run parses to the negated value. */
  lemma ParseNegativeDigitRun(t: string)
    requires IsDigitRun(t)
    ensures ParseInt("-" + t) == Some(-(DigitsValue(t) as int))
  {
    var s := "-" + t;
    assert IsDigit(t[|t| - 1]);
    assert s[|s| - 1] == t[|t| - 1];
    StripUnpadded(s);
    assert s[1..] == t;
  }

  /** `int(str(n)) == n`. */
  lemma ParseShowInt(n: int)
    ensures ParseInt(ShowInt(n)) == Some(n)
  {
    if n < 0 {
      var t := ShowNat(-n);
      assert ShowInt(n) == "-" + t;
      DigitsOfShowNat(-n);
      ParseNegativeDigitRun(t);
      assert DigitsValue(t) == -n;
      assert ParseInt("-" + t) == Some(n);
    } else {
      var t := ShowNat(n);
      assert ShowInt(n) == t;
      DigitsOfShowNat(n);
      ParseDigitRun(t);
    }
  }

  /** `int(f"{n:04d}") == n`. */
  lemma ParseFormat04(n: nat)
    ensures ParseInt(Format04(n)) == Some(n)
  {
    var digits := ShowNat(n);
    DigitsOfShowNat(n);
    if |digits| < 4 {
      var s := Zeros(4 - |digits|) + digits;
      assert Format04(n) == s;
      LeadingZeros(4 - |digits|, digits);
      assert s[0] == '0';
      assert IsDigitRun(s);
      ParseDigitRun(s);
      assert ParseInt(s) == Some(n);
    } else {
      assert Format04(n) == digits;
      ParseDigitRun(digits);
      assert ParseInt(digits) == Some(n);
    }
  }

  /** Each further decimal place adds one digit. */
  lemma ShowNatStep(n: nat)
    requires n >= 10
    ensures |ShowNat(n)| == |ShowNat(n / 10)| + 1
  {
  }

  /** A number of four digits or more is formatted by `:04d` exactly as by `str()`. */
  lemma Format04Wide(n: nat)
    requires n >= 1000
    ensures Format04(n) == ShowInt(n)
  {
    ShowNatStep(n);
    ShowNatStep(n / 10);
    ShowNatStep(n / 100);
    assert n / 10 / 10 / 10 >= 1;
    assert |ShowNat(n)| >= 4;
    assert Format04(n) == ShowNat(n);
  }
}
