/** The two library calls Membership makes on each line: strings.TrimSpace
    and strconv.Atoi on a 64-bit platform. Text is a sequence of Unicode
    code points. */
module Parse {
  import opened Wrappers
  import Fmt

  /** The White_Space code points above U+0084. */
  const WideSpaces: seq<char> :=
    ['\U{85}', '\U{A0}', '\U{1680}', '\U{2000}', '\U{2001}', '\U{2002}', '\U{2003}', '\U{2004}',
     '\U{2005}', '\U{2006}', '\U{2007}', '\U{2008}', '\U{2009}', '\U{200A}', '\U{2028}', '\U{2029}',
     '\U{202F}', '\U{205F}', '\U{3000}']

  /** `c` occurs in `WideSpaces` at or after position `i`. */
  predicate WideSpaceFrom(c: char, i: nat)
    decreases |WideSpaces| - i
  {
    i < |WideSpaces| && (c == WideSpaces[i] || WideSpaceFrom(c, i + 1))
  }

  /** unicode.IsSpace: tab, newline, vertical tab, form feed, carriage
      return and space, then the wider White_Space code points. */
  predicate IsSpace(c: char)
  {
    c == ' ' || '\t' <= c <= '\r' || ('\U{85}' <= c && WideSpaceFrom(c, 0))
  }

  /** strings.TrimSpace: leading and trailing spaces removed. */
  function TrimSpace(s: string): (r: string)
    ensures |r| <= |s|
    ensures r != [] ==> !IsSpace(r[0]) && !IsSpace(r[|r| - 1])
    decreases |s|
  {
    if s == [] then s
    else if IsSpace(s[0]) then TrimSpace(s[1..])
    else if IsSpace(s[|s| - 1]) then TrimSpace(s[..|s| - 1])
    else s
  }

  /** Leading spaces do not change what TrimSpace returns. */
  lemma {:induction false} TrimLeading(pre: string, u: string)
    requires forall k :: 0 <= k < |pre| ==> IsSpace(pre[k])
    ensures TrimSpace(pre + u) == TrimSpace(u)
    decreases |pre|
  {
    if pre != [] {
      var s := pre + u;
      assert s[0] == pre[0] && s[1..] == pre[1..] + u;
      TrimLeading(pre[1..], u);
    } else {
      assert pre + u == u;
    }
  }

  /** Trailing spaces after a text that starts and ends with a non-space
      are exactly what TrimSpace removes. */
  lemma {:induction false} TrimTrailing(t: string, post: string)
    requires t != [] && !IsSpace(t[0]) && !IsSpace(t[|t| - 1])
    requires forall k :: 0 <= k < |post| ==> IsSpace(post[k])
    ensures TrimSpace(t + post) == t
    decreases |post|
  {
    var s := t + post;
    if post != [] {
      var n := |post| - 1;
      assert s[0] == t[0] && s[|s| - 1] == post[n];
      assert s[..|s| - 1] == t + post[..n];
      TrimTrailing(t, post[..n]);
    } else {
      assert s == t;
    }
  }

  lemma Concat3(a: string, b: string, c: string)
    ensures a + b + c == a + (b + c)
  {
  }

  /** Trailing spaces are exactly what TrimSpace removes from a text that
      neither starts nor ends with a space. */
  lemma TrimAfter(t: string, post: string)
    requires t != [] ==> !IsSpace(t[0]) && !IsSpace(t[|t| - 1])
    requires forall k :: 0 <= k < |post| ==> IsSpace(post[k])
    ensures TrimSpace(t + post) == t
  {
    if t == [] {
      assert t + post == post + [];
      TrimLeading(post, []);
    } else {
      TrimTrailing(t, post);
    }
  }

  /** Spaces around a text that neither starts nor ends with a space are
      exactly what TrimSpace removes. */
  lemma TrimSpaceAround(pre: string, t: string, post: string)
    requires forall k :: 0 <= k < |pre| ==> IsSpace(pre[k])
    requires forall k :: 0 <= k < |post| ==> IsSpace(post[k])
    requires t != [] ==> !IsSpace(t[0]) && !IsSpace(t[|t| - 1])
    ensures TrimSpace(pre + t + post) == t
  {
    TrimLeading(pre, t + post);
    TrimAfter(t, post);
    Concat3(pre, t, post);
  }

  // ---------------------------------------------------------------------
  // strconv.Atoi
  // ---------------------------------------------------------------------

  /** The cause recorded in a *strconv.NumError. */
  datatype Cause = ErrSyntax | ErrRange

  /** A *strconv.NumError from Atoi: the text it was given and why it was
      refused. */
  datatype NumError = NumError(num: string, cause: Cause)

  const MaxUint64: int := 0xFFFF_FFFF_FFFF_FFFF
  const Uint64Size: int := 0x1_0000_0000_0000_0000
  /** The first value whose tenfold no longer fits in 64 bits. */
  const Cutoff: int := MaxUint64 / 10 + 1
  const MinInt64Magnitude: int := 0x8000_0000_0000_0000

  predicate IsDigit(c: char)
  {
    '0' <= c <= '9'
  }

  predicate AllDigits(s: string)
  {
    forall k :: 0 <= k < |s| ==> IsDigit(s[k])
  }

  /** strconv.ParseUint's base-10 loop over `s[i..]` with `acc` read so far:
      the first non-digit is a syntax error, the first digit that makes the
      value exceed 64 bits a range error. The 64-bit wrap-around of the
      multiply-add is written out; below the cutoff the sum is less than
      twice 2^64, so it wraps at most once. */
  function ScanUint(s: string, i: nat, acc: nat): (r: Result<nat, Cause>)
    requires i <= |s| && acc <= MaxUint64
    ensures r.Success? ==> r.value <= MaxUint64
    decreases |s| - i
  {
    if i == |s| then Success(acc)
    else if !IsDigit(s[i]) then Failure(ErrSyntax)
    else if acc >= Cutoff then Failure(ErrRange)
    else
      var v := acc * 10 + (s[i] as int - '0' as int);
      var n1 := if v >= Uint64Size then v - Uint64Size else v;
      if n1 < acc * 10 || n1 > MaxUint64 then Failure(ErrRange)
      else ScanUint(s, i + 1, n1)
  }

  /** strconv.ParseUint(s, 10, 64) as ParseInt calls it. */
  function ParseUint(s: string): Result<nat, Cause>
  {
    if s == "" then Failure(ErrSyntax) else ScanUint(s, 0, 0)
  }

  /** strconv.Atoi with 64-bit int: an optional sign, then decimal digits;
      the magnitude must fit in an int64. Every error carries the whole
      text. */
  function Atoi(s: string): (r: Result<int, NumError>)
    ensures r.Failure? ==> r.error.num == s
    ensures r.Success? ==> -MinInt64Magnitude <= r.value < MinInt64Magnitude
  {
    if s == "" then Failure(NumError(s, ErrSyntax))
    else
      var neg := s[0] == '-';
      var body := if s[0] == '+' || s[0] == '-' then s[1..] else s;
      match ParseUint(body)
      case Failure(c) => Failure(NumError(s, c))
      case Success(u) =>
        if !neg && u >= MinInt64Magnitude then Failure(NumError(s, ErrRange))
        else if neg && u > MinInt64Magnitude then Failure(NumError(s, ErrRange))
        else Success(if neg then 0 - u else u + 0)
  }

  // ---------------------------------------------------------------------
  // Atoi against an independent reading of decimal text
  // ---------------------------------------------------------------------

  function Pow10(n: nat): (r: nat)
    ensures r >= 1
  {
    if n == 0 then 1 else 10 * Pow10(n - 1)
  }

  function DigitValue(c: char): nat
    requires IsDigit(c)
  {
    c as int - '0' as int
  }

  /** The number a string of decimal digits denotes, read from its last
      digit. */
  function DigitsValue(s: string): nat
    requires AllDigits(s)
  {
    if s == [] then 0 else DigitsValue(s[..|s| - 1]) * 10 + DigitValue(s[|s| - 1])
  }

  lemma Regroup(a: int, p: int, x: int, e: int)
    ensures (a * p + x) * 10 + e == a * (10 * p) + (x * 10 + e)
  {
  }

  /** Reading the first digit off the front. */
  lemma {:induction false} DigitsValueFront(s: string)
    requires AllDigits(s) && s != []
    ensures DigitsValue(s) == DigitValue(s[0]) * Pow10(|s| - 1) + DigitsValue(s[1..])
  {
    if |s| == 1 {
      assert s[..0] == [] && s[1..] == [];
    } else {
      var init, tail := s[..|s| - 1], s[1..];
      assert init[0] == s[0] && tail[|tail| - 1] == s[|s| - 1];
      assert init[1..] == tail[..|tail| - 1];
      DigitsValueFront(init);
      var a, p, x, e := DigitValue(s[0]), Pow10(|s| - 2), DigitsValue(init[1..]), DigitValue(s[|s| - 1]);
      assert DigitsValue(init) == a * p + x;
      assert DigitsValue(s) == DigitsValue(init) * 10 + e;
      assert DigitsValue(tail) == x * 10 + e;
      assert Pow10(|s| - 1) == 10 * p;
      Regroup(a, p, x, e);
    }
  }

  lemma {:induction false} ScanStepIsDecimal(acc: nat, d: nat, n: nat, rest: nat)
    requires d < 10 && rest < Pow10(n)
    ensures acc * Pow10(n + 1) + (d * Pow10(n) + rest) == (acc * 10 + d) * Pow10(n) + rest
  {
  }

  /** Values only grow as digits are read: once past 64 bits, always past. */
  lemma {:induction false} ScanGrows(acc: nat, n: nat, rest: nat)
    ensures acc * Pow10(n) + rest >= acc
  {
    assert acc * Pow10(n) >= acc * 1;
  }

  lemma {:induction false} DigitsBound(s: string)
    requires AllDigits(s)
    ensures DigitsValue(s) < Pow10(|s|)
  {
    if s != [] {
      DigitsBound(s[..|s| - 1]);
    }
  }

  /** The scan over all-digit text yields the digits' value when it fits in
      64 bits and a range error otherwise. */
  lemma {:induction false} ScanDigits(s: string, i: nat, acc: nat)
    requires i <= |s| && acc <= MaxUint64 && AllDigits(s[i..])
    ensures var v := acc * Pow10(|s| - i) + DigitsValue(s[i..]);
      ScanUint(s, i, acc) == if v <= MaxUint64 then Success(v) else Failure(ErrRange)
    decreases |s| - i
  {
    var n := |s| - i;
    if i == |s| {
      assert s[i..] == [];
    } else {
      var t := s[i..];
      var d := DigitValue(s[i]);
      assert t[0] == s[i] && t[1..] == s[i + 1..];
      DigitsValueFront(t);
      DigitsBound(s[i + 1..]);
      ScanStepIsDecimal(acc, d, n - 1, DigitsValue(s[i + 1..]));
      var v := acc * Pow10(n) + DigitsValue(t);
      assert v == (acc * 10 + d) * Pow10(n - 1) + DigitsValue(s[i + 1..]);
      ScanGrows(acc * 10 + d, n - 1, DigitsValue(s[i + 1..]));
      if acc >= Cutoff {
        assert acc * 10 + d > MaxUint64;
      } else if acc * 10 + d <= MaxUint64 {
        ScanDigits(s, i + 1, acc * 10 + d);
      }
    }
  }

  /** ParseUint reads back the digits of any 64-bit unsigned value. */
  lemma ParseUintDigits(m: nat)
    requires m <= MaxUint64
    ensures ParseUint(Fmt.NatToString(m)) == Success(m)
  {
    var d := Fmt.NatToString(m);
    NatToStringValue(m);
    assert d[0..] == d;
    ScanDigits(d, 0, 0);
  }

  /** strconv.Atoi reads back strconv.Itoa for every 64-bit int. */
  lemma AtoiItoa(i: int)
    requires -MinInt64Magnitude <= i < MinInt64Magnitude
    ensures Atoi(Fmt.IntToString(i)) == Success(i)
  {
    var s := Fmt.IntToString(i);
    if i < 0 {
      var d := Fmt.NatToString(-i);
      assert s == "-" + d;
      assert s[0] == '-' && s[1..] == d;
      ParseUintDigits(-i);
    } else {
      var d := Fmt.NatToString(i);
      assert s == d;
      assert '0' <= s[0] <= '9';
      ParseUintDigits(i);
    }
  }

  /** Itoa's digits denote the number. */
  lemma {:induction false} NatToStringValue(n: nat)
    ensures AllDigits(Fmt.NatToString(n)) && DigitsValue(Fmt.NatToString(n)) == n
  {
    var s := Fmt.NatToString(n);
    if n < 10 {
      assert s == [Fmt.DigitChar(n)];
      assert s[..0] == [];
    } else {
      NatToStringValue(n / 10);
      assert s[..|s| - 1] == Fmt.NatToString(n / 10);
    }
  }

  /** Atoi accepts exactly: an optional sign followed by one or more
      decimal digits whose value, with the sign, fits in an int64. */
  lemma AtoiAccepts(s: string)
    ensures Atoi(s).Success? <==>
      var body := if s != [] && (s[0] == '+' || s[0] == '-') then s[1..] else s;
      && body != [] && AllDigits(body)
      && (if s != [] && s[0] == '-' then DigitsValue(body) <= MinInt64Magnitude
          else DigitsValue(body) < MinInt64Magnitude)
  {
    if s != [] {
      var body := if s[0] == '+' || s[0] == '-' then s[1..] else s;
      if body != [] {
        if AllDigits(body) {
          ScanDigits(body, 0, 0);
          assert body[0..] == body;
        } else {
          var k :| 0 <= k < |body| && !IsDigit(body[k]);
          ScanStopsAt(body, 0, 0, k);
        }
      }
    }
  }

  /** The value Atoi gives: the decimal value of the digits after the
      optional sign, negated for `-`. So "+5" is 5, "007" is 7 and "-0" is 0,
      and texts with the same signed value name the same number. */
  lemma AtoiValue(s: string)
    ensures Atoi(s).Success? ==>
      && s != []
      && var body := if s[0] == '+' || s[0] == '-' then s[1..] else s;
      && AllDigits(body)
      && Atoi(s).value == (if s[0] == '-' then 0 - DigitsValue(body) else DigitsValue(body))
  {
    if Atoi(s).Success? {
      var body := if s[0] == '+' || s[0] == '-' then s[1..] else s;
      AtoiAccepts(s);
      ScanDigits(body, 0, 0);
      assert body[0..] == body;
    }
  }

  /** A non-digit ends the scan with an error before any value is made. */
  lemma {:induction false} ScanStopsAt(s: string, i: nat, acc: nat, k: nat)
    requires i <= k < |s| && acc <= MaxUint64 && !IsDigit(s[k])
    ensures ScanUint(s, i, acc).Failure?
    decreases |s| - i
  {
    if i < k && IsDigit(s[i]) && acc < Cutoff {
      var v := acc * 10 + DigitValue(s[i]);
      var n1 := if v >= Uint64Size then v - Uint64Size else v;
      if !(n1 < acc * 10 || n1 > MaxUint64) {
        ScanStopsAt(s, i + 1, n1, k);
      }
    }
  }
}
