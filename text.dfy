/**
 * String helpers that stand in for the Python and JavaScript built-ins the
 * modelled code calls: decimal formatting (`'%s' % n`, `'id-' + id`),
 * `str.split(c, 1)`, `str.split(c)`, `str.rsplit(c, 2)`, `os.path.basename`
 * and `os.path.join`.
 */
module Text {
  import opened Wrappers

  predicate IsDigit(c: char) { '0' <= c <= '9' }

  predicate AllDigits(s: string) { forall i :: 0 <= i < |s| ==> IsDigit(s[i]) }

  function DigitChar(d: nat): (c: char)
    requires d < 10
    ensures IsDigit(c)
  {
    (48 + d) as char
  }

  function DigitValue(c: char): (d: nat)
    requires IsDigit(c)
    ensures d < 10 && DigitChar(d) == c
  {
    c as int - 48
  }

  // ---------------------------------------------------------------- decimal

  /** The decimal spelling of `n`, most significant digit first, no leading zeros. */
  function NatToString(n: nat): (s: string)
    ensures 1 <= |s| && AllDigits(s)
    ensures n < 10 <==> |s| == 1
    decreases n
  {
    if n < 10 then [DigitChar(n)] else NatToString(n / 10) + [DigitChar(n % 10)]
  }

  /** The number a string of digits denotes. */
  function DigitsValue(s: string): nat
    requires AllDigits(s)
  {
    if s == [] then 0 else 10 * DigitsValue(s[..|s| - 1]) + DigitValue(s[|s| - 1])
  }

  lemma {:induction false} DigitsValueOfNatToString(n: nat)
    ensures DigitsValue(NatToString(n)) == n
  {
    if n >= 10 {
      var s := NatToString(n);
      assert s[..|s| - 1] == NatToString(n / 10);
      DigitsValueOfNatToString(n / 10);
    }
  }

  /** Decimal formatting of a natural number is injective. */
  lemma NatToStringInjective(a: nat, b: nat)
    requires NatToString(a) == NatToString(b)
    ensures a == b
  {
    DigitsValueOfNatToString(a);
    DigitsValueOfNatToString(b);
  }

  /** The length of the longest all-digit prefix of `s`. */
  function LeadingDigits(s: string): (k: nat)
    ensures k <= |s| && AllDigits(s[..k]) && (k < |s| ==> !IsDigit(s[k]))
  {
    if s == [] || !IsDigit(s[0]) then 0
    else
      var k := 1 + LeadingDigits(s[1..]);
      assert forall i :: 1 <= i < k ==> s[..k][i] == s[1..][..k - 1][i - 1];
      k
  }

  lemma {:induction false} LeadingDigitsOfDigits(d: string, rest: string)
    requires AllDigits(d) && (rest == [] || !IsDigit(rest[0]))
    ensures LeadingDigits(d + rest) == |d|
  {
    if d != [] {
      assert (d + rest)[1..] == d[1..] + rest;
      LeadingDigitsOfDigits(d[1..], rest);
    }
  }

  /** Reads a decimal natural at the front of `s`; None when `s` does not start with a digit. */
  function ParseNat(s: string): (r: Option<(nat, string)>)
    ensures r.Some? <==> (s != [] && IsDigit(s[0]))
    ensures r.Some? ==> |r.value.1| < |s| && r.value.1 == s[|s| - |r.value.1|..]
  {
    var k := LeadingDigits(s);
    if k == 0 then None else Some((DigitsValue(s[..k]), s[k..]))
  }

  lemma ParseNatOfNatToString(n: nat, rest: string)
    requires rest == [] || !IsDigit(rest[0])
    ensures ParseNat(NatToString(n) + rest) == Some((n, rest))
  {
    var d := NatToString(n);
    LeadingDigitsOfDigits(d, rest);
    assert (d + rest)[..|d|] == d;
    assert (d + rest)[|d|..] == rest;
    DigitsValueOfNatToString(n);
  }

  /** The decimal spelling of an integer, with a leading `-` when it is negative. */
  function IntToString(i: int): string
  {
    if i < 0 then "-" + NatToString(-i) else NatToString(i)
  }

  /** Reads an optionally negative decimal integer at the front of `s`. */
  function ParseInt(s: string): (r: Option<(int, string)>)
    ensures r.Some? ==> |r.value.1| < |s| && r.value.1 == s[|s| - |r.value.1|..]
  {
    if s != [] && s[0] == '-' then
      match ParseNat(s[1..])
      case None => None
      case Some((n, rest)) => Some((0 - n, rest))
    else
      match ParseNat(s)
      case None => None
      case Some((n, rest)) => Some((n as int, rest))
  }

  lemma ParseIntOfIntToString(i: int, rest: string)
    requires rest == [] || !IsDigit(rest[0])
    ensures ParseInt(IntToString(i) + rest) == Some((i, rest))
  {
    if i < 0 {
      ParseNegative(i, rest);
    } else {
      ParseNonNegative(i, rest);
    }
  }

  lemma ParseNegative(i: int, rest: string)
    requires i < 0 && (rest == [] || !IsDigit(rest[0]))
    ensures ParseInt("-" + NatToString(-i) + rest) == Some((i, rest))
  {
    var s := "-" + NatToString(-i) + rest;
    assert s[1..] == NatToString(-i) + rest;
    ParseNatOfNatToString(-i, rest);
  }

  lemma ParseNonNegative(n: nat, rest: string)
    requires rest == [] || !IsDigit(rest[0])
    ensures ParseInt(NatToString(n) + rest) == Some((n, rest))
  {
    var d := NatToString(n);
    assert (d + rest)[0] == d[0] && IsDigit(d[0]);
    ParseNatOfNatToString(n, rest);
  }

  /** Decimal formatting of an integer is injective, so `'id-' + id` names one point id. */
  lemma IntToStringInjective(a: int, b: int)
    requires IntToString(a) == IntToString(b)
    ensures a == b
  {
    ParseIntOfIntToString(a, "");
    ParseIntOfIntToString(b, "");
    assert IntToString(a) + "" == IntToString(b) + "";
  }

  // ---------------------------------------------------------------- finding characters

  /** `s.find(c)`, with None for -1. */
  function IndexOf(s: string, c: char): (r: Option<nat>)
    ensures r.None? <==> c !in s
    ensures r.Some? ==> r.value < |s| && s[r.value] == c
    ensures r.Some? ==> forall k :: 0 <= k < r.value ==> s[k] != c
  {
    if s == [] then None
    else if s[0] == c then Some(0)
    else
      match IndexOf(s[1..], c)
      case None =>
        assert s == [s[0]] + s[1..];
        None
      case Some(i) => Some(i + 1)
  }

  lemma IndexOfAfter(a: string, c: char, b: string)
    requires c !in a
    ensures IndexOf(a + [c] + b, c) == Some(|a|)
  {
    var s := a + [c] + b;
    assert s[|a|] == c;
    assert forall k :: 0 <= k < |a| ==> s[k] == a[k];
  }

  /** `s.rfind(c)`, with None for -1. */
  function LastIndexOf(s: string, c: char): (r: Option<nat>)
    ensures r.None? <==> c !in s
    ensures r.Some? ==> r.value < |s| && s[r.value] == c
    ensures r.Some? ==> forall k :: r.value < k < |s| ==> s[k] != c
  {
    if s == [] then None
    else if s[|s| - 1] == c then Some(|s| - 1)
    else
      assert s == s[..|s| - 1] + [s[|s| - 1]];
      LastIndexOf(s[..|s| - 1], c)
  }

  lemma LastIndexOfBefore(a: string, c: char, b: string)
    requires c !in b
    ensures LastIndexOf(a + [c] + b, c) == Some(|a|)
  {
    var s := a + [c] + b;
    assert s[|a|] == c;
    assert s[|a| + 1..] == b;
  }

  // ---------------------------------------------------------------- splitting

  /**
   * `a, b = s.split(c, 1)`: the text before the first `c` and everything after
   * it; None where Python's unpacking raises because `c` does not occur.
   */
  function SplitOnce(s: string, c: char): (r: Option<(string, string)>)
    ensures r.None? <==> c !in s
    ensures r.Some? ==> s == r.value.0 + [c] + r.value.1 && c !in r.value.0
  {
    match IndexOf(s, c)
    case None => None
    case Some(i) =>
      assert s == s[..i] + [c] + s[i + 1..];
      assert forall k :: 0 <= k < i ==> s[..i][k] == s[k];
      Some((s[..i], s[i + 1..]))
  }

  /** Splitting at the first separator keeps every later separator in the second part. */
  lemma SplitOnceAtFirst(a: string, c: char, b: string)
    requires c !in a
    ensures SplitOnce(a + [c] + b, c) == Some((a, b))
  {
    IndexOfAfter(a, c, b);
    var s := a + [c] + b;
    assert s[..|a|] == a && s[|a| + 1..] == b;
  }

  /** `s.split(c)`: the pieces between the separators; at least one piece. */
  function Split(s: string, c: char): (r: seq<string>)
    ensures 1 <= |r| && forall i :: 0 <= i < |r| ==> c !in r[i]
    decreases |s|
  {
    match IndexOf(s, c)
    case None => [s]
    case Some(i) => [s[..i]] + Split(s[i + 1..], c)
  }

  /** `c.join(parts)` */
  function Join(parts: seq<string>, c: char): string
    requires 1 <= |parts|
  {
    if |parts| == 1 then parts[0] else parts[0] + [c] + Join(parts[1..], c)
  }

  /** A string is the text before position `i`, the character there, and the rest. */
  lemma Around(s: string, i: nat)
    requires i < |s|
    ensures s == s[..i] + [s[i]] + s[i + 1..]
  {
  }

  /** Joining a first piece onto the rest puts one separator between them. */
  lemma JoinCons(p: string, rest: seq<string>, c: char)
    requires 1 <= |rest|
    ensures Join([p] + rest, c) == p + [c] + Join(rest, c)
  {
    assert ([p] + rest)[1..] == rest;
  }

  /** Joining the pieces of a split gives back the original string. */
  lemma {:induction false} JoinSplit(s: string, c: char)
    ensures Join(Split(s, c), c) == s
    decreases |s|
  {
    match IndexOf(s, c)
    case None =>
    case Some(i) =>
      var rest := Split(s[i + 1..], c);
      assert Split(s, c) == [s[..i]] + rest;
      JoinSplit(s[i + 1..], c);
      JoinCons(s[..i], rest, c);
      Around(s, i);
  }

  /** Two separator-free pieces around one separator split back into those pieces. */
  lemma SplitTwo(a: string, c: char, b: string)
    requires c !in a && c !in b
    ensures Split(a + [c] + b, c) == [a, b]
  {
    IndexOfAfter(a, c, b);
    var s := a + [c] + b;
    assert s[..|a|] == a && s[|a| + 1..] == b;
  }

  /** Splitting a join of separator-free pieces gives back exactly those pieces. */
  lemma {:induction false} SplitJoin(parts: seq<string>, c: char)
    requires 1 <= |parts| && forall i :: 0 <= i < |parts| ==> c !in parts[i]
    ensures Split(Join(parts, c), c) == parts
  {
    if |parts| > 1 {
      var rest := Join(parts[1..], c);
      IndexOfAfter(parts[0], c, rest);
      var s := parts[0] + [c] + rest;
      assert s[..|parts[0]|] == parts[0] && s[|parts[0]| + 1..] == rest;
      SplitJoin(parts[1..], c);
      assert parts == [parts[0]] + parts[1..];
    }
  }

  /** `s.rsplit(c, 2)`: at most two splits, made at the last two separators. */
  function RSplit2(s: string, c: char): (r: seq<string>)
    ensures 1 <= |r| <= 3
  {
    match LastIndexOf(s, c)
    case None => [s]
    case Some(j) =>
      match LastIndexOf(s[..j], c)
      case None => [s[..j], s[j + 1..]]
      case Some(i) => [s[..i], s[i + 1..j], s[j + 1..]]
  }

  /** The parts of `rsplit(c, 2)` join back to `s`, and only the first may hold a separator. */
  lemma RSplit2Parts(s: string, c: char)
    ensures Join(RSplit2(s, c), c) == s
    ensures forall i :: 1 <= i < |RSplit2(s, c)| ==> c !in RSplit2(s, c)[i]
    ensures |RSplit2(s, c)| < 3 ==> c !in RSplit2(s, c)[0]
  {
    match LastIndexOf(s, c)
    case None =>
    case Some(j) =>
      match LastIndexOf(s[..j], c)
      case None => RSplit2OneSeparator(s, c, j);
      case Some(i) => RSplit2TwoSeparators(s, c, i, j);
  }

  lemma RSplit2OneSeparator(s: string, c: char, j: nat)
    requires LastIndexOf(s, c) == Some(j) && LastIndexOf(s[..j], c).None?
    ensures RSplit2(s, c) == [s[..j], s[j + 1..]]
    ensures Join(RSplit2(s, c), c) == s && c !in s[..j] && c !in s[j + 1..]
  {
    assert s == s[..j] + [c] + s[j + 1..];
    NoSeparatorAfter(s, c, j + 1);
  }

  lemma RSplit2TwoSeparators(s: string, c: char, i: nat, j: nat)
    requires LastIndexOf(s, c) == Some(j) && LastIndexOf(s[..j], c) == Some(i)
    ensures RSplit2(s, c) == [s[..i], s[i + 1..j], s[j + 1..]]
    ensures Join(RSplit2(s, c), c) == s && c !in s[i + 1..j] && c !in s[j + 1..]
  {
    NoSeparatorAfter(s, c, j + 1);
    NoSeparatorAfter(s[..j], c, i + 1);
    assert s[..j][i + 1..] == s[i + 1..j];
    JoinAtTwo(s, c, i, j);
  }

  /** Cutting at two separators and joining the three parts again gives back the string. */
  lemma JoinAtTwo(s: string, c: char, i: nat, j: nat)
    requires i < j < |s| && s[i] == c && s[j] == c
    ensures Join([s[..i], s[i + 1..j], s[j + 1..]], c) == s
  {
    JoinCons(s[i + 1..j], [s[j + 1..]], c);
    JoinCons(s[..i], [s[i + 1..j], s[j + 1..]], c);
    assert [s[..i]] + [s[i + 1..j], s[j + 1..]] == [s[..i], s[i + 1..j], s[j + 1..]];
    var p := s[..j];
    Around(p, i);
    Around(s, j);
    assert p[i + 1..] == s[i + 1..j] && p[..i] == s[..i];
  }

  lemma NoSeparatorAfter(s: string, c: char, k: nat)
    requires k <= |s| && forall m :: k <= m < |s| ==> s[m] != c
    ensures c !in s[k..]
  {
    assert forall m :: 0 <= m < |s| - k ==> s[k..][m] == s[k + m];
  }

  /** `c` occurs at least twice in `s`. */
  predicate TwoOccurrences(s: string, c: char)
  {
    exists i, j :: 0 <= i < j < |s| && s[i] == c && s[j] == c
  }

  /** `rsplit(c, 2)` yields three parts exactly when `c` occurs at least twice. */
  lemma RSplit2ThreePartsIff(s: string, c: char)
    ensures |RSplit2(s, c)| == 3 <==> TwoOccurrences(s, c)
  {
    match LastIndexOf(s, c)
    case None =>
    case Some(j) =>
      assert forall k :: 0 <= k < j ==> s[..j][k] == s[k];
      match LastIndexOf(s[..j], c)
      case None =>
      case Some(i) =>
        assert s[i] == c && s[j] == c;
  }

  // ---------------------------------------------------------------- paths

  /** `os.path.basename(p)`: the part after the last `/` (all of `p` when it has none). */
  function Basename(p: string): (b: string)
    ensures '/' !in b && |b| <= |p| && b == p[|p| - |b|..]
    ensures b == p || p[|p| - |b| - 1] == '/'
  {
    match LastIndexOf(p, '/')
    case None => p
    case Some(i) => p[i + 1..]
  }

  /** `os.path.join(a, b)` of POSIX Python for two components. */
  function PathJoin(a: string, b: string): (r: string)
    ensures |b| <= |r| && r[|r| - |b|..] == b
    ensures b != [] && b[0] == '/' ==> r == b
    ensures (b == [] || b[0] != '/') ==> |a| <= |r| && r[..|a|] == a
    ensures (b == [] || b[0] != '/') && (a == [] || a[|a| - 1] == '/') ==> r == a + b
    ensures (b == [] || b[0] != '/') && a != [] && a[|a| - 1] != '/' ==> r == a + "/" + b
  {
    if b != [] && b[0] == '/' then b
    else if a == [] || a[|a| - 1] == '/' then a + b
    else a + "/" + b
  }
}
