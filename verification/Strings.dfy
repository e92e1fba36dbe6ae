/** The string functions of the source: decimal printing, joining and splitting. */
module Strings {

  /* ----- Decimal numbers (the `%d` of fmt.Sprintf) ----- */

  function Digit(d: nat): (c: char)
    requires d < 10
    ensures '0' <= c <= '9'
  {
    '0' + d as char
  }

  function Decimal(n: nat): (s: string)
    ensures s != [] && forall i :: 0 <= i < |s| ==> '0' <= s[i] <= '9'
  {
    if n < 10 then [Digit(n)] else Decimal(n / 10) + [Digit(n % 10)]
  }

  function Itoa(n: int): string {
    if n < 0 then "-" + Decimal(-n) else Decimal(n)
  }

  function ParseDecimal(s: string): int {
    if s == [] then 0 else ParseDecimal(s[..|s| - 1]) * 10 + (s[|s| - 1] as int - '0' as int)
  }

  function ParseInt(s: string): int {
    if s != "" && s[0] == '-' then -ParseDecimal(s[1..]) else ParseDecimal(s)
  }

  lemma {:induction false} DecimalRoundTrip(n: nat)
    ensures ParseDecimal(Decimal(n)) == n
  {
    var s := Decimal(n);
    if n >= 10 {
      DecimalRoundTrip(n / 10);
      assert s[..|s| - 1] == Decimal(n / 10);
    } else {
      assert s[..|s| - 1] == [];
    }
  }

  /** Reading undoes printing, so `%d` is injective. */
  lemma ItoaRoundTrip(n: int)
    ensures Itoa(n) != "" && (Itoa(n)[0] == '-' <==> n < 0)
    ensures ParseInt(Itoa(n)) == n
  {
    if n < 0 {
      var d := Decimal(-n);
      assert ("-" + d)[1..] == d;
      DecimalRoundTrip(-n);
    } else {
      DecimalRoundTrip(n);
    }
  }

  /* ----- Joining and splitting ----- */

  /** The position of the first `c` in `s`, or |s|. */
  function IndexOf(s: string, c: char): (i: nat)
    ensures i <= |s| && c !in s[..i] && forall j :: 0 <= j < i ==> s[j] != c
    ensures i < |s| ==> s[i] == c
  {
    if s == "" || s[0] == c then 0
    else
      var i := 1 + IndexOf(s[1..], c);
      assert s[..i] == [s[0]] + s[1..][..i - 1];
      i
  }

  /** `strings.Split` by a one-character separator. */
  function Split(s: string, c: char): (parts: seq<string>)
    ensures parts != [] && forall p :: p in parts ==> c !in p
    decreases |s|
  {
    var i := IndexOf(s, c);
    if i == |s| then
      assert s[..i] == s;
      [s]
    else [s[..i]] + Split(s[i + 1..], c)
  }

  /** `joinStrings` of the resource builders, and `strings.Join`. */
  function Join(parts: seq<string>, c: char): string {
    if parts == [] then ""
    else if |parts| == 1 then parts[0]
    else parts[0] + [c] + Join(parts[1..], c)
  }

  lemma IndexOfFirst(a: string, c: char, b: string)
    requires c !in a
    ensures IndexOf(a + [c] + b, c) == |a|
  {
    var s := a + [c] + b;
    var i := IndexOf(s, c);
    assert s[|a|] == c;
    assert forall j :: 0 <= j < |a| ==> s[j] == a[j] != c;
  }

  lemma IndexOfNone(a: string, c: char)
    requires c !in a
    ensures IndexOf(a, c) == |a|
  {
    assert forall j :: 0 <= j < |a| ==> a[j] != c;
  }

  /** Splitting undoes joining, on every non-empty list of separator-free items. */
  lemma {:induction false} SplitJoin(parts: seq<string>, c: char)
    requires parts != [] && forall p :: p in parts ==> c !in p
    ensures Split(Join(parts, c), c) == parts
  {
    if |parts| == 1 {
      IndexOfNone(parts[0], c);
    } else {
      var rest := Join(parts[1..], c);
      var s := parts[0] + [c] + rest;
      assert c !in parts[0];
      IndexOfFirst(parts[0], c, rest);
      SplitJoin(parts[1..], c);
      assert s[..|parts[0]|] == parts[0] && s[|parts[0]| + 1..] == rest;
    }
  }

  lemma Associative<T>(a: seq<T>, b: seq<T>, c: seq<T>)
    ensures a + b + c == a + (b + c)
  {
  }

  lemma {:induction false} JoinAppend(parts: seq<string>, p: string, c: char)
    requires parts != []
    ensures Join(parts + [p], c) == Join(parts, c) + [c] + p
  {
    if |parts| == 1 {
      assert (parts + [p])[1..] == [p];
      assert parts[0] + [c] + p == parts[0] + ([c] + p);
    } else {
      JoinAppend(parts[1..], p, c);
      assert (parts + [p])[1..] == parts[1..] + [p];
      Associative(parts[0] + [c], Join(parts[1..], c), [c] + p);
      Associative(Join(parts[1..], c), [c], p);
      Associative(Join(parts, c), [c], p);
    }
  }

  /** `joinStrings`: the first item, then each further item behind a comma. */
  method JoinStrings(strs: seq<string>) returns (result: string)
    ensures result == Join(strs, ',')
    ensures strs != [] && (forall p :: p in strs ==> ',' !in p) ==> Split(result, ',') == strs
  {
    if |strs| == 0 {
      return "";
    }
    result := strs[0];
    for i := 1 to |strs|
      invariant result == Join(strs[..i], ',')
    {
      assert strs[..i + 1] == strs[..i] + [strs[i]];
      JoinAppend(strs[..i], strs[i], ',');
      result := result + "," + strs[i];
    }
    assert strs[..|strs|] == strs;
    if forall p :: p in strs ==> ',' !in p {
      SplitJoin(strs, ',');
    }
  }
}
