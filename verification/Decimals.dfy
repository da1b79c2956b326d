/** Decimal printing and parsing of counters, and the suffix after the last dash of a name. */
module Decimals {
  import opened Wrappers

  const WORD := 0x1_0000_0000_0000_0000

  function Digit(d: nat): (c: char)
    requires d < 10
    ensures '0' <= c <= '9'
  {
    '0' + d as char
  }

  /** `%d` of a non-negative number. */
  function Print(n: nat): (s: string)
    ensures s != "" && forall i :: 0 <= i < |s| ==> '0' <= s[i] <= '9'
  {
    if n < 10 then [Digit(n)] else Print(n / 10) + [Digit(n % 10)]
  }

  /** The number a string of digits denotes. */
  function Digits(s: string): Option<nat> {
    if s == "" then Some(0)
    else
      var init, c := Digits(s[..|s| - 1]), s[|s| - 1];
      if init.None? || !('0' <= c <= '9') then None else Some(10 * init.value + (c - '0') as nat)
  }

  /** `strconv.ParseUint(s, 10, 64)` */
  function ParseUint(s: string): Option<nat> {
    if s == "" || Digits(s).None? || Digits(s).value >= WORD then None else Digits(s)
  }

  lemma {:induction false} DigitsPrint(n: nat)
    ensures Digits(Print(n)) == Some(n)
  {
    if n < 10 {
      assert Print(n)[..0] == "";
      assert (Digit(n) - '0') as nat == n;
    } else {
      DigitsPrint(n / 10);
      assert Print(n)[..|Print(n)| - 1] == Print(n / 10);
    }
  }

  lemma ParsePrint(n: nat)
    requires n < WORD
    ensures ParseUint(Print(n)) == Some(n)
  {
    DigitsPrint(n);
  }

  /** `strings.LastIndex` of a dash. */
  function LastDash(s: string): (i: int)
    ensures -1 <= i < |s| && (i >= 0 ==> s[i] == '-') && forall k :: i < k < |s| ==> s[k] != '-'
  {
    if s == "" then -1
    else if s[|s| - 1] == '-' then |s| - 1
    else
      var i := LastDash(s[..|s| - 1]);
      assert forall k :: i < k < |s| - 1 ==> s[k] == s[..|s| - 1][k];
      i
  }

  /** `restoredGenerationSequence` */
  function SuffixNumber(id: string): nat {
    var dash := LastDash(id);
    if dash < 0 || dash == |id| - 1 then 0
    else
      var value := ParseUint(id[dash + 1..]);
      if value.None? then 0 else value.value
  }

  /** Printing a name with a counter and reading the counter back. */
  lemma SuffixRoundTrip(name: string, n: nat)
    requires n < WORD
    ensures SuffixNumber(name + "-" + Print(n)) == n
  {
    var id := name + "-" + Print(n);
    assert forall k :: |name| < k < |id| ==> id[k] == Print(n)[k - |name| - 1];
    assert id[|name|] == '-';
    assert LastDash(id) == |name|;
    assert id[|name| + 1..] == Print(n);
    ParsePrint(n);
  }
}
