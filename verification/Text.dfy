/** The byte order of identifiers, the sort the source applies to them, and trimming. */
module Text {

  predicate Leq(a: string, b: string) {
    a == "" || (b != "" && (a[0] < b[0] || (a[0] == b[0] && Leq(a[1..], b[1..]))))
  }

  predicate Sorted(s: seq<string>) {
    forall i, j :: 0 <= i < j < |s| ==> Leq(s[i], s[j])
  }

  lemma {:induction false} LeqTotal(a: string, b: string)
    ensures Leq(a, b) || Leq(b, a)
  {
    if a != "" && b != "" { LeqTotal(a[1..], b[1..]); }
  }

  lemma {:induction false} LeqTransitive(a: string, b: string, c: string)
    requires Leq(a, b) && Leq(b, c)
    ensures Leq(a, c)
  {
    if a != "" && a[0] == b[0] == c[0] { LeqTransitive(a[1..], b[1..], c[1..]); }
  }

  /** Inserts into a sorted sequence, keeping it sorted and losing nothing. */
  method Insert(s: seq<string>, x: string) returns (r: seq<string>)
    requires Sorted(s)
    ensures Sorted(r)
    ensures multiset(r) == multiset(s) + multiset{x}
    ensures |r| == |s| + 1
  {
    var i := 0;
    while i < |s| && !Leq(x, s[i])
      invariant 0 <= i <= |s|
      invariant forall j :: 0 <= j < i ==> !Leq(x, s[j])
    {
      i := i + 1;
    }
    r := s[..i] + [x] + s[i..];
    InsertSorts(s, x, i);
    assert s == s[..i] + s[i..];
  }

  lemma InsertSorts(s: seq<string>, x: string, i: nat)
    requires Sorted(s) && i <= |s| && (forall j :: 0 <= j < i ==> !Leq(x, s[j])) && (i < |s| ==> Leq(x, s[i]))
    ensures Sorted(s[..i] + [x] + s[i..])
  {
    var r := s[..i] + [x] + s[i..];
    forall j, k | 0 <= j < k < |r| ensures Leq(r[j], r[k]) {
      if j < i && k == i { LeqTotal(x, s[j]); }
      if j == i && k > i + 1 { LeqTransitive(x, s[i], s[k - 1]); }
    }
  }

  method Sort(s: seq<string>) returns (r: seq<string>)
    ensures Sorted(r)
    ensures multiset(r) == multiset(s)
    ensures |r| == |s|
  {
    r := [];
    for i := 0 to |s|
      invariant Sorted(r)
      invariant multiset(r) == multiset(s[..i]) && |r| == i
    {
      r := Insert(r, s[i]);
      assert s[..i + 1] == s[..i] + [s[i]];
    }
    assert s[..|s|] == s;
  }

  // ---------------------------------------------------------------- trimming

  /** Nothing but space: what trimming leaves empty. */
  predicate Blank(s: string) {
    forall c :: c in s ==> c in " \t\n\r"
  }

  function TrimLeft(s: string): string {
    if s != "" && s[0] in " \t\n\r" then TrimLeft(s[1..]) else s
  }

  function TrimRight(s: string): string {
    if s != "" && s[|s| - 1] in " \t\n\r" then TrimRight(s[..|s| - 1]) else s
  }

  function Trim(s: string): string {
    TrimRight(TrimLeft(s))
  }

  function Lower(s: string): string {
    if s == "" then "" else [if 'A' <= s[0] <= 'Z' then s[0] - 'A' + 'a' else s[0]] + Lower(s[1..])
  }
}
