/**
 * The pieces of the C library that the driver uses on text: atoi, the %d
 * conversion of sprintf, strrchr, and the backwards scan that removes
 * trailing '/' characters from a NUL-terminated buffer.
 */
module CText {
  import opened Results

  const NUL: char := '\0'

  /** isspace in the C locale. */
  predicate IsSpace(ch: char) {
    ch == ' ' || ch == '\t' || ch == '\n' || ch == '\U{B}' || ch == '\U{C}' || ch == '\r'
  }

  predicate IsDigit(ch: char) {
    '0' <= ch <= '9'
  }

  predicate AllDigits(s: string) {
    forall k :: 0 <= k < |s| ==> IsDigit(s[k])
  }

  function DigitValue(ch: char): (d: nat)
    requires IsDigit(ch)
    ensures d < 10
  {
    ch as int - '0' as int
  }

  function DigitChar(d: nat): (ch: char)
    requires d < 10
    ensures IsDigit(ch) && DigitValue(ch) == d
  {
    ('0' as int + d) as char
  }

  /** The part of s that follows its leading white space. */
  function SkipSpaces(s: string): (t: string)
    ensures t == [] || !IsSpace(t[0])
  {
    if |s| > 0 && IsSpace(s[0]) then SkipSpaces(s[1..]) else s
  }

  /** What SkipSpaces drops is leading white space, and what it keeps is a suffix of s. */
  lemma {:induction false} SkipSpacesSuffix(s: string)
    ensures |SkipSpaces(s)| <= |s| && SkipSpaces(s) == s[|s| - |SkipSpaces(s)|..]
    ensures forall k :: 0 <= k < |s| - |SkipSpaces(s)| ==> IsSpace(s[k])
  {
    if |s| > 0 && IsSpace(s[0]) {
      SkipSpacesSuffix(s[1..]);
    }
  }

  /** The longest prefix of s made of decimal digits. */
  function LeadingDigits(s: string): (d: string)
    ensures |d| <= |s| && d == s[..|d|]
    ensures AllDigits(d)
    ensures |d| == |s| || !IsDigit(s[|d|])
  {
    if |s| > 0 && IsDigit(s[0]) then [s[0]] + LeadingDigits(s[1..]) else []
  }

  /** The number a string of decimal digits denotes, most significant digit first. */
  function DigitsValue(d: string): nat
    requires AllDigits(d)
  {
    if d == [] then 0 else 10 * DigitsValue(d[..|d| - 1]) + DigitValue(d[|d| - 1])
  }

  /**
   * atoi: skip white space, read an optional sign and then as many decimal
   * digits as follow; a string with no digits there converts to 0.
   */
  function Atoi(s: string): int {
    var t := SkipSpaces(s);
    if |t| > 0 && t[0] == '-' then 0 - DigitsValue(LeadingDigits(t[1..]))
    else if |t| > 0 && t[0] == '+' then DigitsValue(LeadingDigits(t[1..]))
    else DigitsValue(LeadingDigits(t))
  }

  /** The decimal digits of n without leading zeros. */
  function NatToString(n: nat): (s: string)
    ensures |s| > 0 && AllDigits(s)
  {
    if n < 10 then [DigitChar(n)] else NatToString(n / 10) + [DigitChar(n % 10)]
  }

  /** What sprintf writes for %d. */
  function IntToString(n: int): (s: string)
    ensures |s| > 0 && (s[0] == '-' || IsDigit(s[0]))
  {
    if n < 0 then "-" + NatToString(-n) else NatToString(n)
  }

  lemma {:induction false} DigitsValueOfNatToString(n: nat)
    ensures DigitsValue(NatToString(n)) == n
  {
    if n >= 10 {
      var s := NatToString(n);
      assert s[..|s| - 1] == NatToString(n / 10);
      DigitsValueOfNatToString(n / 10);
    }
  }

  lemma {:induction false} LeadingDigitsOfDigits(d: string)
    requires AllDigits(d)
    ensures LeadingDigits(d) == d
  {
    if |d| > 0 {
      LeadingDigitsOfDigits(d[1..]);
    }
  }

  /** atoi reads back every number that %d prints. */
  lemma AtoiIntToString(n: int)
    ensures Atoi(IntToString(n)) == n
  {
    var s := IntToString(n);
    assert !IsSpace(s[0]);
    assert SkipSpaces(s) == s;
    if n < 0 {
      var d := NatToString(-n);
      assert s == "-" + d && s[1..] == d;
      DigitsValueOfNatToString(-n);
      LeadingDigitsOfDigits(d);
      assert Atoi(s) == 0 - DigitsValue(d);
    } else {
      assert s == NatToString(n) && s[0] != '-' && s[0] != '+';
      LeadingDigitsOfDigits(s);
      DigitsValueOfNatToString(n);
    }
  }

  /** Different numbers print differently. */
  lemma IntToStringInjective(m: int, n: int)
    requires IntToString(m) == IntToString(n)
    ensures m == n
  {
    AtoiIntToString(m);
    AtoiIntToString(n);
  }

  predicate HasNonSlash(s: string) {
    exists k :: 0 <= k < |s| && s[k] != '/'
  }

  /**
   * s without its trailing '/' characters: the unique prefix of s that is
   * empty or ends in another character and beyond which s holds only '/'.
   */
  function TrimTrailingSlashes(s: string): (t: string)
    ensures |t| <= |s| && t == s[..|t|]
    ensures forall k :: |t| <= k < |s| ==> s[k] == '/'
    ensures t == [] || t[|t| - 1] != '/'
    ensures HasNonSlash(s) ==> t != []
  {
    if |s| > 0 && s[|s| - 1] == '/' then TrimTrailingSlashes(s[..|s| - 1]) else s
  }

  /** strrchr: the index of the last occurrence of ch in s, if any. */
  function LastIndexOf(s: string, ch: char): (r: Option<nat>)
    ensures r.Some? ==> r.value < |s| && s[r.value] == ch
    ensures r.Some? ==> forall k :: r.value < k < |s| ==> s[k] != ch
    ensures r.None? ==> forall k :: 0 <= k < |s| ==> s[k] != ch
  {
    if |s| == 0 then None
    else if s[|s| - 1] == ch then Some(|s| - 1)
    else LastIndexOf(s[..|s| - 1], ch)
  }

  /**
   * The last '/'-separated component of s: what follows the last '/', or
   * the whole of s when it holds none.
   */
  function LastComponent(s: string): (r: string)
    ensures |r| <= |s| && r == s[|s| - |r|..]
    ensures forall k :: 0 <= k < |r| ==> r[k] != '/'
    ensures |r| == |s| || s[|s| - |r| - 1] == '/'
  {
    match LastIndexOf(s, '/')
    case None => s
    case Some(k) => s[k + 1..]
  }

  /**
   * The trailing-slash loop: starting at the last character of the
   * NUL-terminated string held in buf[..len], overwrite each '/' with NUL,
   * moving backwards, and stop at the first other character. Returns the
   * length of the string that remains.
   */
  method StripTrailingSlashes(buf: array<char>, len: nat) returns (n: nat)
    requires len < buf.Length && buf[len] == NUL
    requires HasNonSlash(buf[..len])
    modifies buf
    ensures n <= len && buf[..n] == TrimTrailingSlashes(old(buf[..len]))
    ensures buf[n] == NUL
    ensures forall k :: n <= k < len ==> buf[k] == NUL
    ensures forall k :: len <= k < buf.Length ==> buf[k] == old(buf[k])
  {
    ghost var s := buf[..len];
    var p: int := len - 1;
    while buf[p] == '/'
      invariant 0 <= p < len
      invariant buf[..p + 1] == s[..p + 1]
      invariant HasNonSlash(s[..p + 1])
      invariant TrimTrailingSlashes(s) == TrimTrailingSlashes(s[..p + 1])
      invariant forall k :: p < k < len ==> buf[k] == NUL
      invariant forall k :: len <= k < buf.Length ==> buf[k] == old(buf[k])
      decreases p
    {
      assert s[..p + 1][..p] == s[..p];
      assert s[p] == '/';
      ghost var w :| 0 <= w < p + 1 && s[..p + 1][w] != '/';
      assert s[..p][w] != '/';
      buf[p] := NUL;
      p := p - 1;
    }
    n := p + 1;
    assert buf[..n] == s[..n];
  }
}
