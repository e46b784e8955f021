/** Characters, digits and the JavaScript string operations that several modules use. */
module Text {
  import opened Common

  predicate IsDigit(c: char) { '0' <= c <= '9' }

  predicate AllDigits(s: string) { forall i :: 0 <= i < |s| ==> IsDigit(s[i]) }

  function Pow10(n: nat): (p: nat)
    ensures p >= 1
  {
    if n == 0 then 1 else 10 * Pow10(n - 1)
  }

  lemma {:induction false} Pow10Adds(a: nat, b: nat)
    ensures Pow10(a + b) == Pow10(a) * Pow10(b)
  {
    if a > 0 {
      Pow10Adds(a - 1, b);
      assert 10 * (Pow10(a - 1) * Pow10(b)) == (10 * Pow10(a - 1)) * Pow10(b);
    }
  }

  /** The number a string of digits writes. */
  function DigitsValue(s: string): (v: nat)
    requires AllDigits(s)
    ensures v < Pow10(|s|)
  {
    if s == "" then 0 else 10 * DigitsValue(s[..|s| - 1]) + (s[|s| - 1] as int - '0' as int)
  }

  lemma DigitsLast(s: string, front: string, last: char)
    requires AllDigits(s) && s == front + [last]
    ensures AllDigits(front) && IsDigit(last) && DigitsValue(s) == 10 * DigitsValue(front) + (last as int - '0' as int)
  {
    assert s[..|s| - 1] == front && s[|s| - 1] == last;
  }

  lemma {:induction false} DigitsValueConcat(a: string, b: string)
    requires AllDigits(a) && AllDigits(b)
    ensures AllDigits(a + b) && DigitsValue(a + b) == DigitsValue(a) * Pow10(|b|) + DigitsValue(b)
  {
    if b == "" {
      assert a + b == a;
    } else {
      var front, last := b[..|b| - 1], b[|b| - 1];
      assert b == front + [last] && a + b == (a + front) + [last];
      DigitsValueConcat(a, front);
      DigitsLast(b, front, last);
      DigitsLast(a + b, a + front, last);
      assert Pow10(|b|) == 10 * Pow10(|front|);
      hide *;
      TensMove(DigitsValue(a), DigitsValue(front), Pow10(|front|), last as int - '0' as int);
    }
  }

  lemma TensMove(a: int, b: int, p: int, d: int)
    ensures 10 * (a * p + b) + d == a * (10 * p) + (10 * b + d)
  {
  }

  lemma {:induction false} ZeroDigits(s: string)
    requires AllDigits(s)
    ensures DigitsValue(s) == 0 <==> forall i :: 0 <= i < |s| ==> s[i] == '0'
  {
    if s != "" {
      ZeroDigits(s[..|s| - 1]);
      assert forall i :: 0 <= i < |s| - 1 ==> s[i] == s[..|s| - 1][i];
    }
  }

  function Digit(d: nat): (c: char)
    requires d < 10
    ensures IsDigit(c) && c as int - '0' as int == d
  {
    '0' + d as char
  }

  /** The decimal text of a number, with no leading zero. */
  function Decimal(n: nat): (s: string)
    ensures |s| >= 1 && AllDigits(s)
  {
    if n < 10 then [Digit(n)] else Decimal(n / 10) + [Digit(n % 10)]
  }

  lemma {:induction false} DecimalValue(n: nat)
    ensures DigitsValue(Decimal(n)) == n
  {
    if n < 10 {
      assert Decimal(n)[..0] == "";
    } else {
      DecimalValue(n / 10);
      assert Decimal(n)[..|Decimal(n)| - 1] == Decimal(n / 10);
    }
  }

  lemma {:induction false} DecimalLength(n: nat, k: nat)
    requires k >= 1 && n < Pow10(k)
    ensures |Decimal(n)| <= k
  {
    if n >= 10 {
      assert k > 1;
      DecimalLength(n / 10, k - 1);
    }
  }

  /** The white space that trimming removes. */
  predicate IsSpace(c: char) {
    || '\t' <= c <= '\r' || c == ' ' || c == '\U{00A0}' || c == '\U{1680}' || '\U{2000}' <= c <= '\U{200A}'
    || c == '\U{2028}' || c == '\U{2029}' || c == '\U{202F}' || c == '\U{205F}' || c == '\U{3000}' || c == '\U{FEFF}'
  }

  function TrimStart(s: string): (t: string)
    ensures |t| <= |s| && t == s[|s| - |t|..]
    ensures t != "" ==> !IsSpace(t[0])
    ensures forall i :: 0 <= i < |s| - |t| ==> IsSpace(s[i])
  {
    if s != "" && IsSpace(s[0]) then TrimStart(s[1..]) else s
  }

  function TrimEnd(s: string): (t: string)
    ensures |t| <= |s| && t == s[..|t|]
    ensures t != "" ==> !IsSpace(t[|t| - 1])
    ensures forall i :: |t| <= i < |s| ==> IsSpace(s[i])
  {
    if s != "" && IsSpace(s[|s| - 1]) then TrimEnd(s[..|s| - 1]) else s
  }

  function Trim(s: string): string { TrimEnd(TrimStart(s)) }

  /** Text with no white space at either end is left as it is. */
  lemma TrimIdentity(s: string)
    requires s == "" || (!IsSpace(s[0]) && !IsSpace(s[|s| - 1]))
    ensures Trim(s) == s
  {
  }

  predicate AllSpaces(s: string) { forall i :: 0 <= i < |s| ==> IsSpace(s[i]) }

  lemma TrimStartAround(left: string, s: string)
    requires AllSpaces(left) && s != "" && !IsSpace(s[0])
    ensures TrimStart(left + s) == s
  {
    var whole := left + s;
    var k := |whole| - |TrimStart(whole)|;
    assert whole[|left|] == s[0] && whole[|left|..] == s;
    hide IsSpace;
    assert forall i :: 0 <= i < |left| ==> whole[i] == left[i];
    assert k <= |left| && (k < |whole| ==> TrimStart(whole)[0] == whole[k]);
  }

  lemma TrimEndAround(s: string, right: string)
    requires AllSpaces(right) && s != "" && !IsSpace(s[|s| - 1])
    ensures TrimEnd(s + right) == s
  {
    var whole := s + right;
    var t := TrimEnd(whole);
    assert whole[|s| - 1] == s[|s| - 1] && whole[..|s|] == s;
    hide IsSpace;
    assert forall i :: |s| <= i < |whole| ==> whole[i] == right[i - |s|];
    assert |t| >= |s| && t[|t| - 1] == whole[|t| - 1];
  }

  /** Trimming takes off the white space around a text that has none at its ends, and no more. */
  lemma TrimAround(left: string, s: string, right: string)
    requires AllSpaces(left) && AllSpaces(right) && s != "" && !IsSpace(s[0]) && !IsSpace(s[|s| - 1])
    ensures Trim(left + s + right) == s
  {
    hide TrimStart, TrimEnd, IsSpace, AllSpaces;
    Associates(left, s, right);
    TrimStartAround(left, s + right);
    TrimEndAround(s, right);
  }

  lemma TrimStartLeaves(s: string) returns (left: string)
    ensures AllSpaces(left) && s == left + TrimStart(s)
  {
    hide IsSpace;
    var k := |s| - |TrimStart(s)|;
    left := s[..k];
    assert s == left + s[k..];
  }

  lemma TrimEndLeaves(s: string) returns (right: string)
    ensures AllSpaces(right) && s == TrimEnd(s) + right
  {
    hide IsSpace;
    var k := |TrimEnd(s)|;
    right := s[k..];
    assert s == s[..k] + right;
    assert forall i :: 0 <= i < |right| ==> right[i] == s[k + i];
  }

  /** What trimming leaves lies between the white space it took off. */
  lemma TrimLeaves(s: string) returns (left: string, right: string)
    ensures AllSpaces(left) && AllSpaces(right) && s == left + Trim(s) + right
  {
    hide IsSpace, AllSpaces, TrimStart, TrimEnd;
    left := TrimStartLeaves(s);
    right := TrimEndLeaves(TrimStart(s));
    Associates(left, Trim(s), right);
  }

  /** The first position of a character, or the length when it does not occur. */
  function IndexOf(s: string, c: char): (i: nat)
    ensures i <= |s| && c !in s[..i]
    ensures i < |s| ==> s[i] == c
  {
    if s == "" || s[0] == c then 0
    else
      var i := IndexOf(s[1..], c);
      assert s[..i + 1] == [s[0]] + s[1..][..i];
      i + 1
  }

  lemma {:induction false} IndexAfter(a: string, c: char, b: string)
    requires c !in a
    ensures IndexOf(a + [c] + b, c) == |a|
  {
    var s := a + [c] + b;
    if a == "" {
      assert s[0] == c;
    } else {
      IndexAfter(a[1..], c, b);
      assert s[1..] == a[1..] + [c] + b && s[0] == a[0];
    }
  }

  lemma IndexAbsent(a: string, c: char)
    requires c !in a
    ensures IndexOf(a, c) == |a|
  {
  }
}
