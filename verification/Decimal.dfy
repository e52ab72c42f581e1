/** The printed forms of an index: %d and %04d. */
module Decimal {
  function Digit(d: nat): char
    requires d < 10
  {
    '0' + d as char
  }

  /** The number a digit string denotes, leading zeros allowed. */
  function Value(s: string): int {
    if s == "" then 0 else 10 * Value(s[..|s| - 1]) + (s[|s| - 1] as int - '0' as int)
  }

  predicate AllDigits(s: string) { forall i :: 0 <= i < |s| ==> '0' <= s[i] <= '9' }

  /** fmt's %d. */
  function Print(n: nat): (s: string)
    ensures s != "" && Value(s) == n
  {
    if n < 10 then [Digit(n)]
    else
      var s := Print(n / 10) + [Digit(n % 10)];
      assert s[..|s| - 1] == Print(n / 10);
      s
  }

  function Zeros(n: nat): (s: string)
    ensures |s| == n && forall i :: 0 <= i < n ==> s[i] == '0'
  {
    seq(n, _ => '0')
  }

  lemma {:induction false} LeadingZeros(n: nat, s: string)
    ensures Value(Zeros(n) + s) == Value(s)
  {
    var t := Zeros(n) + s;
    if s != "" {
      assert t[..|t| - 1] == Zeros(n) + s[..|s| - 1];
      LeadingZeros(n, s[..|s| - 1]);
    } else if n > 0 {
      assert t[..n - 1] == Zeros(n - 1) + "";
      LeadingZeros(n - 1, "");
    }
  }

  /** fmt's %04d. */
  function Print4(n: nat): (s: string)
    ensures |s| >= 4 && Value(s) == n
  {
    var s := Print(n);
    if |s| >= 4 then s
    else
      LeadingZeros(4 - |s|, s);
      Zeros(4 - |s|) + s
  }

  lemma {:induction false} PrintForm(n: nat)
    ensures AllDigits(Print(n)) && (n > 0 ==> Print(n)[0] != '0')
  {
    if n >= 10 {
      PrintForm(n / 10);
    }
  }

  /** Four digits, or as many as it takes. */
  lemma Print4Form(n: nat)
    ensures AllDigits(Print4(n)) && (|Print4(n)| > 4 ==> Print4(n)[0] != '0')
  {
    PrintForm(n);
  }

  lemma {:induction false} PrintInjective(i: nat, j: nat)
    ensures Print(i) == Print(j) <==> i == j
    ensures Print4(i) == Print4(j) <==> i == j
  {
  }
}
