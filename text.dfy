/**
 * String helpers the client relies on implicitly: JavaScript's rendering of an
 * integer inside a template literal or `URLSearchParams.append`, and
 * `String.prototype.trim`.
 */
module Text {

  predicate IsDigit(c: char) {
    '0' <= c <= '9'
  }

  function DigitChar(d: nat): (c: char)
    requires d < 10
    ensures IsDigit(c) && (c as int) - ('0' as int) == d
  {
    ['0', '1', '2', '3', '4', '5', '6', '7', '8', '9'][d]
  }

  /** Decimal digits of a natural number, most significant first, no leading zeros. */
  function NatDigits(n: nat): (r: string)
    ensures |r| > 0
    ensures forall i :: 0 <= i < |r| ==> IsDigit(r[i])
    ensures |r| > 1 ==> r[0] != '0'
    decreases n
  {
    if n < 10 then [DigitChar(n)] else NatDigits(n / 10) + [DigitChar(n % 10)]
  }

  /** `String(n)` for a safe integer `n` (`|n| < 2^53`): a minus sign for negatives, then the digits. */
  function Decimal(n: int): (r: string)
    ensures forall i :: 0 <= i < |r| ==> IsDigit(r[i]) || (i == 0 && r[i] == '-')
    ensures |r| > 0 && (r[0] == '-' <==> n < 0)
  {
    if n < 0 then "-" + NatDigits(-n) else NatDigits(n)
  }

  /** Reference reading of a run of digits (what a server does with `page=12`). */
  function DigitsValue(s: string): nat
    decreases |s|
  {
    if s == [] then 0
    else
      var c := s[|s| - 1];
      DigitsValue(s[..|s| - 1]) * 10 + (if IsDigit(c) then (c as int) - ('0' as int) else 0)
  }

  function DecimalValue(s: string): int {
    if |s| > 0 && s[0] == '-' then -(DigitsValue(s[1..]) as int) else DigitsValue(s) as int
  }

  lemma {:induction false} NatDigitsValue(n: nat)
    ensures DigitsValue(NatDigits(n)) == n
    decreases n
  {
    if n >= 10 {
      var init := NatDigits(n / 10);
      var s := init + [DigitChar(n % 10)];
      assert s[..|s| - 1] == init;
      NatDigitsValue(n / 10);
    }
  }

  /** Rendering an integer and reading it back gives the same integer. */
  lemma {:induction false} DecimalRoundTrip(n: int)
    ensures DecimalValue(Decimal(n)) == n
  {
    if n < 0 {
      var d := NatDigits(-n);
      var s := "-" + d;
      assert Decimal(n) == s;
      assert s[1..] == d;
      NatDigitsValue(-n);
      assert DecimalValue(s) == -(DigitsValue(d) as int);
    } else {
      var d := NatDigits(n);
      assert Decimal(n) == d;
      assert IsDigit(d[0]);
      NatDigitsValue(n);
    }
  }

  /** The code points `String.prototype.trim` removes: WhiteSpace and LineTerminator. */
  predicate IsJsWhitespace(c: char) {
    || c == '\t' || c == '\n' || c == '\U{000B}' || c == '\U{000C}' || c == '\r'
    || c == ' ' || c == '\U{00A0}' || c == '\U{1680}'
    || ('\U{2000}' <= c <= '\U{200A}')
    || c == '\U{2028}' || c == '\U{2029}' || c == '\U{202F}' || c == '\U{205F}'
    || c == '\U{3000}' || c == '\U{FEFF}'
  }

  function TrimStart(s: string): string
    decreases |s|
  {
    if |s| > 0 && IsJsWhitespace(s[0]) then TrimStart(s[1..]) else s
  }

  function TrimEnd(s: string): string
    decreases |s|
  {
    if |s| > 0 && IsJsWhitespace(s[|s| - 1]) then TrimEnd(s[..|s| - 1]) else s
  }

  /** `s.trim()`. */
  function Trim(s: string): string {
    TrimEnd(TrimStart(s))
  }

  /** Reference definition of a blank string: every character is whitespace. */
  ghost predicate Blank(s: string) {
    forall i :: 0 <= i < |s| ==> IsJsWhitespace(s[i])
  }

  /** `trimStart` drops a leading run of whitespace and keeps the rest of `s` as it is. */
  lemma {:induction false} TrimStartDropsRun(s: string)
    ensures exists k :: 0 <= k <= |s| && TrimStart(s) == s[k..] && Blank(s[..k])
    decreases |s|
  {
    if |s| > 0 && IsJsWhitespace(s[0]) {
      TrimStartDropsRun(s[1..]);
      var k :| 0 <= k <= |s[1..]| && TrimStart(s[1..]) == s[1..][k..] && Blank(s[1..][..k]);
      assert s[1..][k..] == s[k + 1..];
      var run := s[..k + 1];
      assert Blank(run) by {
        forall i | 0 <= i < |run| ensures IsJsWhitespace(run[i]) {
          if i > 0 { assert run[i] == s[1..][..k][i - 1]; }
        }
      }
    } else {
      assert s[0..] == s && Blank(s[..0]);
    }
  }

  /** `trimStart` keeps the rest of `s` after a whitespace run; it is empty exactly for blank `s`, and otherwise starts with non-whitespace. */
  lemma {:induction false} TrimStartShape(s: string)
    ensures exists k :: 0 <= k <= |s| && TrimStart(s) == s[k..] && Blank(s[..k])
    ensures TrimStart(s) == [] <==> Blank(s)
    ensures TrimStart(s) != [] ==> !IsJsWhitespace(TrimStart(s)[0])
    decreases |s|
  {
    TrimStartDropsRun(s);
    if |s| > 0 && IsJsWhitespace(s[0]) {
      TrimStartShape(s[1..]);
      assert Blank(s[1..]) ==> Blank(s) by {
        if Blank(s[1..]) {
          forall i | 0 <= i < |s| ensures IsJsWhitespace(s[i]) {
            if i > 0 { assert s[i] == s[1..][i - 1]; }
          }
        }
      }
      assert Blank(s) ==> Blank(s[1..]) by {
        if Blank(s) {
          forall i | 0 <= i < |s| - 1 ensures IsJsWhitespace(s[1..][i]) {
            assert s[1..][i] == s[i + 1];
          }
        }
      }
    } else if |s| > 0 {
      assert !IsJsWhitespace(s[0]);
    }
  }

  /** `trimEnd` of a string that starts with non-whitespace keeps a non-empty prefix ending in non-whitespace. */
  lemma {:induction false} TrimEndKeepsHead(s: string)
    requires |s| > 0 && !IsJsWhitespace(s[0])
    ensures TrimEnd(s) != []
    ensures TrimEnd(s) <= s && !IsJsWhitespace(TrimEnd(s)[|TrimEnd(s)| - 1])
    decreases |s|
  {
    if IsJsWhitespace(s[|s| - 1]) {
      assert |s| > 1;
      var init := s[..|s| - 1];
      TrimEndKeepsHead(init);
      var t := TrimEnd(init);
      assert t == init[..|t|];
      assert init[..|t|] == s[..|t|];
    }
  }

  /** `s.trim() === ''` holds exactly for the blank strings. */
  lemma {:induction false} TrimEmptyIffBlank(s: string)
    ensures Trim(s) == "" <==> Blank(s)
  {
    TrimStartShape(s);
    var t := TrimStart(s);
    if t != [] {
      TrimEndKeepsHead(t);
    }
  }
}
