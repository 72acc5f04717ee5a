/**
 * The pieces of Python's string handling the scanner relies on: `"%.Nd" % i`,
 * the numeric parse of a short digit field, clamped slicing and `os.path.join`.
 */
module PyFormat {
  import opened Wrappers

  predicate IsDigit(c: char) { '0' <= c <= '9' }

  predicate AllDigits(s: string) { forall i :: 0 <= i < |s| ==> IsDigit(s[i]) }

  function DigitChar(d: nat): (c: char)
    requires d < 10
    ensures IsDigit(c)
  {
    ('0' as int + d) as char
  }

  function DigitValue(c: char): (d: nat)
    requires IsDigit(c)
    ensures d < 10
  {
    c as int - '0' as int
  }

  /** `str(n)` for a natural number: its decimal digits without leading zeros. */
  function Digits(n: nat): (s: string)
    ensures 1 <= |s| && AllDigits(s)
    decreases n
  {
    if n < 10 then [DigitChar(n)] else Digits(n / 10) + [DigitChar(n % 10)]
  }

  function Pow10(k: nat): (p: nat)
    ensures p >= 1
  {
    if k == 0 then 1 else 10 * Pow10(k - 1)
  }

  function Zeros(k: nat): (s: string)
    ensures |s| == k && AllDigits(s)
  {
    seq(k, _ => '0')
  }

  /** `"%.<w>d" % n` for `n >= 0`: the digits of `n`, left-padded with zeros to at least `w` characters. */
  function PadNat(n: nat, w: nat): (r: string)
    ensures AllDigits(r) && |r| == if |Digits(n)| < w then w else |Digits(n)|
  {
    var d := Digits(n);
    if |d| < w then Zeros(w - |d|) + d else d
  }

  /** `"%.<w>d" % i` for any integer: a minus sign, when there is one, precedes the padded magnitude. */
  function FormatInt(i: int, w: nat): (r: string)
    ensures i < 0 <==> |r| > 0 && r[0] == '-'
    ensures var m := if i < 0 then r[1..] else r;
      |m| >= w && AllDigits(m) && DigitsValue(m) == if i < 0 then -i else i
    ensures 1 <= w && 0 <= i < Pow10(w) ==> |r| == w
  {
    PadNatFacts(if i < 0 then -i else i, w);
    if i < 0 then "-" + PadNat(-i, w) else PadNat(i, w)
  }

  /** The number a string of decimal digits denotes (leading zeros allowed; the empty string is 0). */
  function DigitsValue(s: string): nat
    requires AllDigits(s)
  {
    if s == [] then 0 else 10 * DigitsValue(s[..|s| - 1]) + DigitValue(s[|s| - 1])
  }

  /**
   * The model's `float(s)`: it accepts only an optional sign followed by at least one
   * decimal digit, and is `None` on anything else. Python's `float` also accepts a
   * decimal point, an exponent, surrounding whitespace, `_` between digits, `inf` and
   * `nan`, which this grammar leaves out.
   */
  function ParseInt(s: string): (r: Option<int>)
    ensures r.Some? <==> (|s| > 0 && AllDigits(s)) || (|s| > 1 && (s[0] == '-' || s[0] == '+') && AllDigits(s[1..]))
    ensures |s| > 0 && AllDigits(s) ==> r == Some(DigitsValue(s))
    ensures r.Some? && r.value < 0 ==> s[0] == '-'
  {
    if |s| > 0 && (s[0] == '-' || s[0] == '+') then
      if |s| > 1 && AllDigits(s[1..]) then
        Some(if s[0] == '-' then -(DigitsValue(s[1..]) as int) else DigitsValue(s[1..]))
      else None
    else if |s| > 0 && AllDigits(s) then Some(DigitsValue(s))
    else None
  }

  /** Python's `s[i:j]` for `0 <= i <= j`: indices past the end are clamped to the length. */
  function Slice(s: string, i: nat, j: nat): (r: string)
    requires i <= j
    ensures |r| == if j <= |s| then j - i else if i <= |s| then |s| - i else 0
    ensures forall k :: 0 <= k < |r| ==> r[k] == s[i + k]
  {
    if |s| <= i then [] else if |s| <= j then s[i..] else s[i..j]
  }

  /** Python's `s[-3:]`: the last three characters, or all of `s` when it is shorter. */
  function LastThree(s: string): (r: string)
    ensures |r| == if |s| < 3 then |s| else 3
    ensures r == s[|s| - |r|..]
  {
    if |s| < 3 then s else s[|s| - 3..]
  }

  /** A path that `posixpath` treats as absolute: it starts with `/`. */
  predicate IsAbsolute(p: string) { p != [] && p[0] == '/' }

  /**
   * `posixpath.join(a, b)`: an absolute `b` replaces `a`; otherwise `b` is appended,
   * with a `/` between unless `a` is empty or already ends in one.
   */
  function Join(a: string, b: string): (r: string)
    ensures IsAbsolute(b) ==> r == b
    ensures !IsAbsolute(b) ==> |a| + |b| <= |r| <= |a| + |b| + 1
    ensures !IsAbsolute(b) ==> (|r| == |a| + |b| <==> a == [] || a[|a| - 1] == '/')
  {
    if IsAbsolute(b) then b
    else if a == [] || a[|a| - 1] == '/' then a + b
    else a + "/" + b
  }

  /** Joining in either grouping gives one path, provided the middle part is a name that does not end in `/`. */
  lemma JoinAssociative(a: string, b: string, c: string)
    requires b != [] && b[|b| - 1] != '/'
    ensures Join(a, Join(b, c)) == Join(Join(a, b), c)
  {
    var ab := Join(a, b);
    if IsAbsolute(c) {
      assert Join(b, c) == c && Join(ab, c) == c;
    } else if IsAbsolute(b) {
      assert ab == b;
      assert Join(b, c) == b + "/" + c;
    } else {
      var bc := b + "/" + c;
      assert Join(b, c) == bc && bc[0] == b[0];
      assert ab[|ab| - 1] == b[|b| - 1];
      if a == [] {
        assert ab == b;
      } else if a[|a| - 1] == '/' {
        assert Join(a, bc) == a + bc;
        assert Join(ab, c) == (a + b) + "/" + c;
      } else {
        assert Join(a, bc) == a + "/" + bc;
        assert Join(ab, c) == (a + "/" + b) + "/" + c;
      }
    }
  }

  lemma {:induction false} DigitsValueOfDigits(n: nat)
    ensures DigitsValue(Digits(n)) == n
    decreases n
  {
    if n >= 10 {
      var d := Digits(n);
      DigitsValueOfDigits(n / 10);
      assert d[..|d| - 1] == Digits(n / 10);
    }
  }

  lemma {:induction false} DigitsValueZeros(k: nat)
    ensures DigitsValue(Zeros(k)) == 0
  {
    if k > 0 {
      assert Zeros(k)[..k - 1] == Zeros(k - 1);
      DigitsValueZeros(k - 1);
    }
  }

  /** Leading zeros do not change the value of a digit string. */
  lemma {:induction false} DigitsValueLeadingZeros(k: nat, s: string)
    requires AllDigits(s)
    ensures AllDigits(Zeros(k) + s) && DigitsValue(Zeros(k) + s) == DigitsValue(s)
    decreases |s|
  {
    var t := Zeros(k) + s;
    if s == [] {
      assert t == Zeros(k);
      DigitsValueZeros(k);
    } else {
      assert t[..|t| - 1] == Zeros(k) + s[..|s| - 1];
      DigitsValueLeadingZeros(k, s[..|s| - 1]);
    }
  }

  /** A number below `10^w` has at most `w` digits, so `%.<w>d` pads it to exactly `w` characters. */
  lemma {:induction false} DigitsFit(n: nat, w: nat)
    requires 1 <= w && n < Pow10(w)
    ensures |Digits(n)| <= w
    decreases n
  {
    if n >= 10 {
      assert w >= 2;
      DigitsFit(n / 10, w - 1);
    }
  }

  /**
   * `"%.<w>d" % n` is all digits, at least `w` long, exactly `w` long when `n < 10^w`,
   * and reads back as `n`.
   */
  lemma PadNatFacts(n: nat, w: nat)
    ensures AllDigits(PadNat(n, w)) && |PadNat(n, w)| >= w
    ensures DigitsValue(PadNat(n, w)) == n
    ensures 1 <= w && n < Pow10(w) ==> |PadNat(n, w)| == w
  {
    var d := Digits(n);
    DigitsValueOfDigits(n);
    if |d| < w {
      DigitsValueLeadingZeros(w - |d|, d);
    }
    if 1 <= w && n < Pow10(w) {
      DigitsFit(n, w);
    }
  }

  /** Distinct counters give distinct padded names. */
  lemma PadNatInjective(a: nat, b: nat, w: nat)
    requires PadNat(a, w) == PadNat(b, w)
    ensures a == b
  {
    PadNatFacts(a, w);
    PadNatFacts(b, w);
  }

  /** Parsing what `"%.<w>d" % i` printed gives `i` back. */
  lemma FormatIntParses(i: int, w: nat)
    ensures ParseInt(FormatInt(i, w)) == Some(i)
  {
    var m := if i < 0 then -i else i;
    PadNatFacts(m, w);
    var p := PadNat(m, w);
    if i < 0 {
      assert FormatInt(i, w)[1..] == p;
    } else {
      assert p[0] != '-' && p[0] != '+' by { assert IsDigit(p[0]); }
    }
  }
}
