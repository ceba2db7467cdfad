/** The string operations the gateway relies on, over Unicode code points. */
module Text {
  import opened Prelude

  /** Unicode White_Space, as `strings.TrimSpace` trims it. */
  predicate IsSpace(c: char) {
    var n := c as int;
    9 <= n <= 13 || n in {0x20, 0x85, 0xA0, 0x1680, 0x2028, 0x2029, 0x202F, 0x205F, 0x3000} || 0x2000 <= n <= 0x200A
  }

  function TrimLeft(s: string): (r: string)
    ensures |r| <= |s|
  {
    if s != [] && IsSpace(s[0]) then TrimLeft(s[1..]) else s
  }

  function TrimRight(s: string): (r: string)
    ensures |r| <= |s|
  {
    if s != [] && IsSpace(s[|s| - 1]) then TrimRight(s[..|s| - 1]) else s
  }

  function TrimSpace(s: string): string {
    TrimRight(TrimLeft(s))
  }

  predicate HasPrefix(s: string, prefix: string) {
    prefix <= s
  }

  predicate Contains(s: string, part: string)
    decreases |s|
  {
    HasPrefix(s, part) || (s != [] && Contains(s[1..], part))
  }

  /**
   `strings.ToLower` as far as ASCII goes. Two other code points, the dotted
   capital I and the Kelvin sign, are the only ones that lower into ASCII; what
   becomes of the rest cannot be told apart by an ASCII comparison.
   */
  function LowerChar(c: char): char {
    if 'A' <= c <= 'Z' then c - 'A' + 'a'
    else if c == '\U{0130}' then 'i'
    else if c == '\U{212A}' then 'k'
    else c
  }

  function ToLower(s: string): (r: string)
    ensures |r| == |s|
  {
    seq(|s|, i requires 0 <= i < |s| => LowerChar(s[i]))
  }

  /** The bytes of a string in UTF-8, which is what Go's `len` counts. */
  function Utf8Length(s: string): nat {
    if s == [] then 0
    else
      var n := s[0] as int;
      (if n < 0x80 then 1 else if n < 0x800 then 2 else if n < 0x1_0000 then 3 else 4) + Utf8Length(s[1..])
  }

  predicate IsDigit(c: char) {
    '0' <= c <= '9'
  }

  predicate AllDigits(s: string) {
    forall i :: 0 <= i < |s| ==> IsDigit(s[i])
  }

  function DigitsValue(s: string): nat
    requires AllDigits(s)
  {
    if s == [] then 0
    else 10 * DigitsValue(s[..|s| - 1]) + (s[|s| - 1] as int - '0' as int)
  }

  /** `strconv.ParseInt(s, 10, 64)`. */
  function ParseInt64(s: string): Option<int64> {
    var negative := s != [] && s[0] == '-';
    var digits := if s != [] && (s[0] == '-' || s[0] == '+') then s[1..] else s;
    if digits == [] || !AllDigits(digits) then None
    else
      var magnitude: int := DigitsValue(digits);
      var value: int := if negative then -magnitude else magnitude;
      if -MAX_INT64 - 1 <= value <= MAX_INT64 then Some(value as int64) else None
  }

  /** `strconv.Itoa`. */
  function Itoa(n: int): string
    decreases if n < 0 then 1 else 0, if n < 0 then -n else n
  {
    if n < 0 then "-" + Itoa(-n)
    else if n < 10 then ['0' + n as char]
    else Itoa(n / 10) + ['0' + (n % 10) as char]
  }

  /** A natural number is written in its decimal digits, without a leading zero. */
  lemma {:induction false} ItoaIsDecimal(n: nat)
    ensures Itoa(n) != "" && AllDigits(Itoa(n)) && DigitsValue(Itoa(n)) == n
    ensures n >= 10 ==> Itoa(n)[0] != '0'
    ensures n > 0 ==> Itoa(n)[0] != '0'
  {
    if n >= 10 {
      ItoaIsDecimal(n / 10);
      var s := Itoa(n);
      assert s[..|s| - 1] == Itoa(n / 10);
    }
  }

  lemma ParseDigits(s: string)
    requires s != "" && AllDigits(s)
    ensures ParseInt64(s) == if DigitsValue(s) <= MAX_INT64 then Some(DigitsValue(s) as int64) else None
    ensures DigitsValue(s) <= MAX_INT64 + 1 ==> ParseInt64("-" + s) == Some((0 - DigitsValue(s) as int) as int64)
  {
    assert IsDigit(s[0]);
    assert ("-" + s)[1..] == s;
    hide DigitsValue;
  }

  /** `strconv.ParseInt` reads back what `strconv.Itoa` writes. */
  lemma ParseReadsItoa(n: int)
    requires -MAX_INT64 - 1 <= n <= MAX_INT64
    ensures ParseInt64(Itoa(n)) == Some(n as int64)
  {
    var magnitude: nat := if n < 0 then -n else n;
    ItoaIsDecimal(magnitude);
    hide ParseInt64, DigitsValue, AllDigits;
    ParseDigits(Itoa(magnitude));
  }

  predicate AllSpace(s: string) {
    forall i :: 0 <= i < |s| ==> IsSpace(s[i])
  }

  lemma {:induction false} TrimLeftSplits(s: string) returns (before: string)
    ensures s == before + TrimLeft(s) && AllSpace(before)
    ensures TrimLeft(s) != "" ==> !IsSpace(TrimLeft(s)[0])
  {
    hide IsSpace;
    if s != "" && IsSpace(s[0]) {
      var rest := TrimLeftSplits(s[1..]);
      before := [s[0]] + rest;
    } else {
      before := "";
    }
  }

  lemma {:induction false} TrimRightSplits(s: string) returns (after: string)
    ensures s == TrimRight(s) + after && AllSpace(after)
    ensures TrimRight(s) != "" ==> !IsSpace(TrimRight(s)[|TrimRight(s)| - 1])
  {
    hide IsSpace;
    if s != "" && IsSpace(s[|s| - 1]) {
      var rest := TrimRightSplits(s[..|s| - 1]);
      after := rest + [s[|s| - 1]];
    } else {
      after := "";
    }
  }

  /** Trimming takes away white space at both ends, and all of it. */
  lemma TrimSpaceSplits(s: string) returns (before: string, after: string)
    ensures s == before + TrimSpace(s) + after && AllSpace(before) && AllSpace(after)
    ensures TrimSpace(s) != "" ==> !IsSpace(TrimSpace(s)[0]) && !IsSpace(TrimSpace(s)[|TrimSpace(s)| - 1])
  {
    before := TrimLeftSplits(s);
    after := TrimRightSplits(TrimLeft(s));
    assert TrimSpace(s) != "" ==> TrimSpace(s)[0] == TrimLeft(s)[0];
    hide IsSpace, TrimLeft, TrimRight;
  }

  lemma {:induction false} TrimLeftPadded(before: string, s: string)
    requires AllSpace(before) && (s != "" ==> !IsSpace(s[0]))
    ensures TrimLeft(before + s) == s
  {
    hide IsSpace;
    if before == "" {
      assert before + s == s;
    } else {
      assert (before + s)[1..] == before[1..] + s;
      TrimLeftPadded(before[1..], s);
    }
  }

  lemma {:induction false} TrimRightPadded(s: string, after: string)
    requires AllSpace(after) && (s != "" ==> !IsSpace(s[|s| - 1]))
    ensures TrimRight(s + after) == s
  {
    hide IsSpace;
    if after == "" {
      assert s + after == s;
    } else {
      assert (s + after)[..|s + after| - 1] == s + after[..|after| - 1];
      TrimRightPadded(s, after[..|after| - 1]);
    }
  }

  /** White space around a text that neither begins nor ends with any is trimmed away. */
  lemma TrimPadded(before: string, s: string, after: string)
    requires AllSpace(before) && AllSpace(after)
    requires s != "" && !IsSpace(s[0]) && !IsSpace(s[|s| - 1])
    ensures TrimSpace(before + s + after) == s
  {
    assert before + s + after == before + (s + after);
    TrimLeftPadded(before, s + after);
    TrimRightPadded(s, after);
    hide IsSpace, TrimLeft, TrimRight;
  }

  lemma TrimBlank(s: string)
    requires AllSpace(s)
    ensures TrimSpace(s) == ""
  {
    assert s + "" == s;
    TrimLeftPadded(s, "");
    hide IsSpace;
  }
}
