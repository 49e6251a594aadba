// The string functions of the Go library and of wrangler that the core uses.
module Text {
  function Digit(d: nat): (c: char)
    requires d < 10
  {
    "0123456789"[d]
  }

  function DigitValue(c: char): int {
    c as int - '0' as int
  }

  function Digits(n: nat): (s: string)
    ensures |s| > 0
    ensures forall i :: 0 <= i < |s| ==> '0' <= s[i] <= '9'
  {
    if n < 10 then [Digit(n)] else Digits(n / 10) + [Digit(n % 10)]
  }

  // strconv.Itoa
  function Itoa(n: int): (s: string)
    ensures |s| > 0
  {
    if n < 0 then "-" + Digits(-n) else Digits(n)
  }

  function ParseDigits(s: string): int {
    if |s| == 0 then 0 else 10 * ParseDigits(s[..|s| - 1]) + DigitValue(s[|s| - 1])
  }

  function Atoi(s: string): int {
    if |s| > 0 && s[0] == '-' then -ParseDigits(s[1..]) else ParseDigits(s)
  }

  lemma DigitBack(d: nat)
    requires d < 10
    ensures DigitValue(Digit(d)) == d
  {
  }

  lemma ParseNext(s: string, c: char)
    ensures ParseDigits(s + [c]) == 10 * ParseDigits(s) + DigitValue(c)
  {
    assert (s + [c])[..|s|] == s;
  }

  lemma {:induction false} DigitsRoundTrip(n: nat)
    ensures ParseDigits(Digits(n)) == n
  {
    DigitBack(n % 10);
    if n >= 10 {
      DigitsRoundTrip(n / 10);
      ParseNext(Digits(n / 10), Digit(n % 10));
    } else {
      ParseNext("", Digit(n));
      assert "" + [Digit(n)] == Digits(n);
    }
  }

  // A number can be read back from what strconv.Itoa prints, so two numbers
  // never print alike.
  lemma ItoaRoundTrip(n: int)
    ensures Atoi(Itoa(n)) == n
  {
    if n < 0 { NegativeRoundTrip(n); } else { NaturalRoundTrip(n); }
  }

  lemma NaturalRoundTrip(n: nat)
    ensures Atoi(Itoa(n)) == n
  {
    DigitsRoundTrip(n);
    assert Itoa(n)[0] != '-';
  }

  lemma NegativeRoundTrip(n: int)
    requires n < 0
    ensures Atoi(Itoa(n)) == n
  {
    var m: nat := -n;
    DigitsRoundTrip(m);
    ParseSigned(Digits(m));
    assert Itoa(n) == "-" + Digits(m);
  }

  lemma ParseSigned(digits: string)
    ensures Atoi("-" + digits) == -ParseDigits(digits)
  {
    assert ("-" + digits)[1..] == digits;
  }

  lemma ItoaInjective(m: int, n: int)
    requires Itoa(m) == Itoa(n)
    ensures m == n
  {
    ItoaRoundTrip(m);
    ItoaRoundTrip(n);
  }

  predicate HasPrefix(s: string, p: string) {
    p <= s
  }

  function TrimPrefix(s: string, p: string): string {
    if p <= s then s[|p|..] else s
  }

  predicate HasSuffix(s: string, p: string) {
    |p| <= |s| && s[|s| - |p|..] == p
  }

  function TrimSuffix(s: string, p: string): string {
    if HasSuffix(s, p) then s[..|s| - |p|] else s
  }

  function Lower(c: char): char {
    if 'A' <= c <= 'Z' then (c as int + 32) as char else c
  }

  // strings.EqualFold against a word of ASCII letters
  predicate EqualFold(s: string, word: string) {
    |s| == |word| && forall i :: 0 <= i < |s| ==> Lower(s[i]) == Lower(word[i])
  }

  // unicode.IsSpace
  predicate IsSpace(c: char) {
    var n := c as int;
    || 9 <= n <= 13 || n == 0x20 || n == 0x85 || n == 0xA0 || n == 0x1680
    || 0x2000 <= n <= 0x200A || n == 0x2028 || n == 0x2029
    || n == 0x202F || n == 0x205F || n == 0x3000
  }

  function TrimLeft(s: string): string {
    if |s| > 0 && IsSpace(s[0]) then TrimLeft(s[1..]) else s
  }

  function TrimRight(s: string): string {
    if |s| > 0 && IsSpace(s[|s| - 1]) then TrimRight(s[..|s| - 1]) else s
  }

  function TrimSpace(s: string): string {
    TrimRight(TrimLeft(s))
  }

  // The position of the first c in s, or |s| when there is none.
  function IndexOf(s: string, c: char): (i: nat)
    ensures i <= |s|
    ensures i < |s| ==> s[i] == c
    ensures forall j :: 0 <= j < i ==> s[j] != c
  {
    if |s| == 0 || s[0] == c then 0 else 1 + IndexOf(s[1..], c)
  }

  // What stands before the first c, and what stands after it.
  function Before(s: string, c: char): string {
    s[..IndexOf(s, c)]
  }

  function After(s: string, c: char): string {
    if IndexOf(s, c) == |s| then "" else s[IndexOf(s, c) + 1..]
  }

  // kv.Split: cut at the first separator and trim both parts.
  function Split(s: string, c: char): (string, string) {
    (TrimSpace(Before(s, c)), TrimSpace(After(s, c)))
  }

  lemma CutAt(a: string, c: char, b: string)
    requires c !in a
    ensures Before(a + [c] + b, c) == a && After(a + [c] + b, c) == b
  {
    var s := a + [c] + b;
    assert s[|a|] == c;
    assert forall j :: 0 <= j < |a| ==> s[j] == a[j];
    assert IndexOf(s, c) == |a|;
  }

  lemma TrimSpaceIdentity(s: string)
    requires forall i :: 0 <= i < |s| ==> !IsSpace(s[i])
    ensures TrimSpace(s) == s
  {
  }

  lemma {:induction false} TrimLeftKeeps(s: string, c: char)
    requires c in s && !IsSpace(c)
    ensures c in TrimLeft(s)
  {
    if IsSpace(s[0]) {
      assert s == [s[0]] + s[1..];
      TrimLeftKeeps(s[1..], c);
    }
  }

  lemma {:induction false} TrimRightKeeps(s: string, c: char)
    requires c in s && !IsSpace(c)
    ensures c in TrimRight(s)
  {
    if IsSpace(s[|s| - 1]) {
      assert s == s[..|s| - 1] + [s[|s| - 1]];
      TrimRightKeeps(s[..|s| - 1], c);
    }
  }

  lemma TrimSpaceKeeps(s: string, c: char)
    requires c in s && !IsSpace(c)
    ensures c in TrimSpace(s)
  {
    TrimLeftKeeps(s, c);
    TrimRightKeeps(TrimLeft(s), c);
  }

  // ---------- What splitting gives ----------

  predicate Blank(s: string) {
    forall i :: 0 <= i < |s| ==> IsSpace(s[i])
  }

  lemma {:induction false} TrimsBlank(pad: string, s: string)
    requires Blank(pad) && |s| > 0 && !IsSpace(s[0])
    ensures TrimLeft(pad + s) == s
  {
    if |pad| == 0 {
      assert pad + s == s;
    } else {
      assert (pad + s)[1..] == pad[1..] + s && (pad + s)[0] == pad[0];
      TrimsBlank(pad[1..], s);
    }
  }

  lemma {:induction false} TrimsBehind(s: string, pad: string)
    requires Blank(pad) && |s| > 0 && !IsSpace(s[|s| - 1])
    ensures TrimRight(s + pad) == s
  {
    if |pad| == 0 {
      assert s + pad == s;
    } else {
      assert (s + pad)[..|s + pad| - 1] == s + pad[..|pad| - 1] && (s + pad)[|s + pad| - 1] == pad[|pad| - 1];
      TrimsBehind(s, pad[..|pad| - 1]);
    }
  }

  // No white space at either end.
  predicate Trimmed(s: string) {
    |s| > 0 && !IsSpace(s[0]) && !IsSpace(s[|s| - 1])
  }

  lemma TrimSpaceTrims(left: string, s: string, right: string)
    requires Blank(left) && Blank(right) && Trimmed(s)
    ensures TrimSpace(left + s + right) == s
  {
    assert left + s + right == left + (s + right);
    TrimsBlank(left, s + right);
    TrimsBehind(s, right);
  }

  // A split cuts at the first separator and drops the white space around both parts;
  // without a separator the second part is empty.
  lemma SplitTrims(a: string, b: string, c: char, p1: string, p2: string, p3: string, p4: string)
    requires Trimmed(a) && Trimmed(b) && Blank(p1) && Blank(p2) && Blank(p3) && Blank(p4)
    requires c !in p1 + a + p2
    ensures Split((p1 + a + p2) + [c] + (p3 + b + p4), c) == (a, b)
    ensures Split(p1 + a + p2, c) == (a, "")
  {
    CutAt(p1 + a + p2, c, p3 + b + p4);
    TrimSpaceTrims(p1, a, p2);
    TrimSpaceTrims(p3, b, p4);
    assert Before(p1 + a + p2, c) == p1 + a + p2;
  }
}
