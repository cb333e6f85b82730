/** Characters, decimal digits and white space as ECMAScript strings see them. */
module Text {

  datatype Option<+T> = None | Some(value: T)

  // --- decimal digits ------------------------------------------------------------------------

  predicate IsDigit(c: char) {
    '0' <= c <= '9'
  }

  predicate AllDigits(s: string) {
    forall i | 0 <= i < |s| :: IsDigit(s[i])
  }

  function DigitValue(c: char): (d: nat)
    requires IsDigit(c)
    ensures d < 10
  {
    c as int - '0' as int
  }

  function DigitChar(d: nat): (c: char)
    requires d < 10
    ensures IsDigit(c) && DigitValue(c) == d
  {
    (d + '0' as int) as char
  }

  /** The number a digit string denotes; leading zeros are allowed. */
  function NatOf(s: string): nat
    requires AllDigits(s)
  {
    if s == "" then 0 else NatOf(s[..|s| - 1]) * 10 + DigitValue(s[|s| - 1])
  }

  /** A digit string that is "0" or starts with a non-zero digit. */
  predicate IsCanonical(s: string) {
    && s != ""
    && AllDigits(s)
    && (s[0] == '0' ==> |s| == 1)
  }

  /** The decimal numeral of n. */
  function Digits(n: nat): (s: string)
    ensures IsCanonical(s)
    ensures n > 0 ==> s[0] != '0'
  {
    if n < 10 then [DigitChar(n)] else Digits(n / 10) + [DigitChar(n % 10)]
  }

  lemma {:induction false} NatOfDigits(n: nat)
    ensures NatOf(Digits(n)) == n
  {
    if n < 10 {
      assert [DigitChar(n)][..0] == "";
    } else {
      NatOfDigits(n / 10);
      var s := Digits(n);
      assert s[..|s| - 1] == Digits(n / 10);
    }
  }

  lemma {:induction false} CanonicalIsPositive(s: string)
    requires IsCanonical(s) && s[0] != '0'
    ensures NatOf(s) > 0
  {
    if |s| == 1 {
      assert s[..0] == "";
    } else {
      CanonicalIsPositive(s[..|s| - 1]);
    }
  }

  lemma DigitsAppend(n: nat, c: char)
    requires n > 0 && IsDigit(c)
    ensures Digits(10 * n + DigitValue(c)) == Digits(n) + [c]
  {
    var d := DigitValue(c);
    assert (10 * n + d) / 10 == n && (10 * n + d) % 10 == d;
  }

  /** A canonical numeral is determined by its value. */
  lemma {:induction false} DigitsOfNat(s: string)
    requires IsCanonical(s)
    ensures Digits(NatOf(s)) == s
  {
    hide Digits;
    var init, c := s[..|s| - 1], s[|s| - 1];
    assert s == init + [c];
    if |s| == 1 {
      assert init == "";
      OneDigit(c);
    } else {
      DigitsOfNat(init);
      CanonicalIsPositive(init);
      DigitsAppend(NatOf(init), c);
    }
  }

  lemma OneDigit(c: char)
    requires IsDigit(c)
    ensures Digits(DigitValue(c)) == [c]
  {
  }

  function Pow10(k: nat): (p: nat)
    ensures p > 0
  {
    if k == 0 then 1 else 10 * Pow10(k - 1)
  }

  // --- white space ---------------------------------------------------------------------------

  /** What `\s` matches and `trim` removes: ECMA-262 WhiteSpace and LineTerminator. */
  predicate IsSpace(c: char) {
    || '\t' <= c <= '\r'
    || c == ' '
    || c == '\U{00A0}' || c == '\U{1680}'
    || '\U{2000}' <= c <= '\U{200A}'
    || c == '\U{2028}' || c == '\U{2029}' || c == '\U{202F}'
    || c == '\U{205F}' || c == '\U{3000}' || c == '\U{FEFF}'
  }

  /** What `.` does not match: ECMA-262 LineTerminator. */
  predicate IsTerminator(c: char) {
    c == '\n' || c == '\r' || c == '\U{2028}' || c == '\U{2029}'
  }

  predicate NoTerminator(s: string) {
    forall i | 0 <= i < |s| :: !IsTerminator(s[i])
  }

  predicate AllSpace(s: string) {
    forall i | 0 <= i < |s| :: IsSpace(s[i])
  }

  function TrimStart(s: string): string {
    if s == "" || !IsSpace(s[0]) then s else TrimStart(s[1..])
  }

  function TrimEnd(s: string): string {
    if s == "" || !IsSpace(s[|s| - 1]) then s else TrimEnd(s[..|s| - 1])
  }

  function Trim(s: string): string {
    TrimEnd(TrimStart(s))
  }

  predicate Trimmed(s: string) {
    s == "" || (!IsSpace(s[0]) && !IsSpace(s[|s| - 1]))
  }

  lemma TrimOfTrimmed(s: string)
    requires Trimmed(s)
    ensures Trim(s) == s && TrimStart(s) == s && TrimEnd(s) == s
  {
  }

  lemma {:induction false} TrimStartIs(s: string)
    ensures |TrimStart(s)| <= |s| && TrimStart(s) == s[|s| - |TrimStart(s)|..]
    ensures TrimStart(s) == "" || !IsSpace(TrimStart(s)[0])
    ensures AllSpace(s[..|s| - |TrimStart(s)|])
  {
    if s != "" && IsSpace(s[0]) { TrimStartIs(s[1..]); }
  }

  /** The white space that trimming takes off. */
  lemma {:induction false} LeadingSpace(s: string) returns (before: string)
    ensures s == before + TrimStart(s) && AllSpace(before) && (TrimStart(s) == "" || !IsSpace(TrimStart(s)[0]))
  {
    hide AllSpace, TrimStart, IsSpace;
    TrimStartIs(s);
    before := s[..|s| - |TrimStart(s)|];
  }

  lemma {:induction false} TrimStartOf(a: string, b: string)
    requires AllSpace(a) && (b == "" || !IsSpace(b[0]))
    ensures TrimStart(a + b) == b
  {
    if a == "" {
      assert a + b == b;
    } else {
      assert (a + b)[1..] == a[1..] + b;
      TrimStartOf(a[1..], b);
    }
  }

  lemma {:induction false} TrimEndIs(s: string)
    ensures |TrimEnd(s)| <= |s| && TrimEnd(s) == s[..|TrimEnd(s)|]
    ensures TrimEnd(s) == "" || !IsSpace(TrimEnd(s)[|TrimEnd(s)| - 1])
    ensures AllSpace(s[|TrimEnd(s)|..])
  {
    if s != "" && IsSpace(s[|s| - 1]) {
      var init := s[..|s| - 1];
      TrimEndIs(init);
      assert s[|TrimEnd(init)|..] == init[|TrimEnd(init)|..] + [s[|s| - 1]];
    }
  }

  lemma TrimIsTrimmed(s: string)
    ensures Trimmed(Trim(s))
    ensures Trim(s) == "" <==> AllSpace(s)
  {
    TrimStartIs(s);
    var a := TrimStart(s);
    TrimEndIs(a);
    var b := TrimEnd(a);
    if b != "" {
      assert b[0] == a[0];
      assert a[0] == s[|s| - |a|];
    } else {
      assert a[|b|..] == a;
      assert s[..|s| - |a|] == s;
    }
  }

  predicate OccursAt(text: string, pattern: string, i: nat) {
    i + |pattern| <= |text| && text[i..i + |pattern|] == pattern
  }

  // --- choosing by position ---------------------------------------------------------------------------------

  /** The indices at which keep holds, in order. */
  ghost predicate Picks(at: seq<nat>, keep: seq<bool>) {
    && (forall k, m | 0 <= k < m < |at| :: at[k] < at[m])
    && (forall k | 0 <= k < |at| :: at[k] < |keep| && keep[at[k]])
    && (forall i | 0 <= i < |keep| && keep[i] :: i in at)
  }

  lemma {:induction false} PicksAppend(at: seq<nat>, keep: seq<bool>, b: bool)
    requires Picks(at, keep)
    ensures Picks(if b then at + [|keep|] else at, keep + [b])
  {
    var more := if b then at + [|keep|] else at;
    forall i | 0 <= i < |keep + [b]| && (keep + [b])[i] ensures i in more {
      if i < |keep| { assert i in at; } else { assert more[|at|] == i; }
    }
  }

  lemma NothingPicked(keep: seq<bool>)
    requires keep == []
    ensures Picks([], keep)
  {
  }

  lemma PicksAre(at: seq<nat>, keep: seq<bool>)
    requires Picks(at, keep)
    ensures forall k | 0 <= k < |at| :: at[k] < |keep| && keep[at[k]]
    ensures forall i | 0 <= i < |keep| && keep[i] :: i in at
  {
  }
}
