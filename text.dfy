/** The C string primitives the modem layer is built from: `strstr`, the
    NUL-terminated view of a receive buffer, and the part of `sscanf` that the
    response classifiers use to read result codes ("<NAME>: %d" and
    "<NAME>: %d,%d"), together with the decimal rendering the modem uses for
    those codes. */
module Text {

  datatype Option<T> = None | Some(value: T) {
    /** The value, or `default` when absent (an `int x = -1;` that `sscanf`
        did not assign keeps its -1). */
    function GetOr(default: T): T {
      if Some? then value else default
    }
  }

  // ---------------------------------------------------------------------------
  // Substring search (strstr)
  // ---------------------------------------------------------------------------

  /** `p` occurs in `s` starting at index `i`. */
  predicate OccursAt(s: string, p: string, i: nat) {
    i + |p| <= |s| && s[i..i + |p|] == p
  }

  lemma OccursAtTail(s: string, p: string)
    requires |s| > 0
    ensures forall k: nat :: k >= 1 ==> (OccursAt(s, p, k) <==> OccursAt(s[1..], p, k - 1))
  {
    forall k: nat | k >= 1
      ensures OccursAt(s, p, k) <==> OccursAt(s[1..], p, k - 1)
    {
      if k + |p| <= |s| {
        assert s[1..][k - 1..k - 1 + |p|] == s[k..k + |p|];
      }
    }
  }

  /** The index at which `strstr(s, p)` points: the first occurrence of `p`. */
  function Find(s: string, p: string): Option<nat>
    decreases |s|
  {
    if |p| > |s| then None
    else if s[..|p|] == p then Some(0)
    else
      match Find(s[1..], p)
      case None => None
      case Some(k) => Some(k + 1)
  }

  /** `Find` names the first occurrence, and finds nothing only when there is
      no occurrence at all. */
  lemma {:induction false} FindSpec(s: string, p: string)
    ensures Find(s, p).Some? ==> OccursAt(s, p, Find(s, p).value)
    ensures Find(s, p).Some? ==> forall k: nat :: k < Find(s, p).value ==> !OccursAt(s, p, k)
    ensures Find(s, p).None? ==> forall k: nat :: !OccursAt(s, p, k)
    decreases |s|
  {
    if |p| <= |s| && s[..|p|] != p {
      OccursAtTail(s, p);
      FindSpec(s[1..], p);
    }
  }

  /** `strstr(s, p) != NULL`. */
  predicate Contains(s: string, p: string) {
    Find(s, p).Some?
  }

  /** Any occurrence makes `Contains` true, and `Find` names the first one. */
  lemma FindFirst(s: string, p: string, i: nat)
    requires OccursAt(s, p, i)
    requires forall k: nat :: k < i ==> !OccursAt(s, p, k)
    ensures Find(s, p) == Some(i)
  {
    FindSpec(s, p);
  }

  lemma ContainsInfix(x: string, p: string, y: string)
    ensures Contains(x + p + y, p)
  {
    var s := x + p + y;
    assert s[|x|..|x| + |p|] == p;
    assert OccursAt(s, p, |x|);
    FindSpec(s, p);
  }

  /** The string `strstr(s, p)` points at: the suffix of `s` that starts at
      the first occurrence of `p`. */
  function Strstr(s: string, p: string): (r: Option<string>)
    ensures r.Some? <==> Contains(s, p)
    ensures r.Some? ==> |p| <= |r.value| <= |s| && r.value[..|p|] == p && r.value == s[|s| - |r.value|..]
  {
    match Find(s, p)
    case None => None
    case Some(i) =>
      FindSpec(s, p);
      Some(s[i..])
  }

  /** A pattern whose first character is absent from `pre` is first found
      where a text `t` that starts with it follows `pre`. */
  lemma StrstrAfter(pre: string, p: string, t: string)
    requires |p| > 0 && p[0] !in pre && |p| <= |t| && t[..|p|] == p
    ensures Strstr(pre + t, p) == Some(t)
  {
    var s := pre + t;
    assert s[|pre|..|pre| + |p|] == t[..|p|];
    forall k: nat | k < |pre|
      ensures !OccursAt(s, p, k)
    {
      assert s[k] == pre[k];
      if k + |p| <= |s| {
        assert s[k..k + |p|][0] == pre[k];
      }
    }
    FindFirst(s, p, |pre|);
    assert s[|pre|..] == t;
  }

  lemma Assoc(x: string, y: string, z: string)
    ensures (x + y) + z == x + (y + z)
  {
  }

  lemma NotInDigits(s: string, c: char)
    requires AllDigits(s) && !IsDigit(c)
    ensures c !in s
  {
  }

  /** A pattern with a character that `s` lacks cannot occur in `s`. */
  lemma AbsentChar(s: string, p: string, c: char)
    requires c in p && c !in s
    ensures !Contains(s, p)
  {
    FindSpec(s, p);
    forall i: nat | i + |p| <= |s|
      ensures !OccursAt(s, p, i)
    {
      var j :| 0 <= j < |p| && p[j] == c;
      assert s[i..i + |p|][j] == s[i + j];
    }
  }

  lemma OccursInLeft(a: string, b: string, p: string, i: nat)
    requires OccursAt(a + b, p, i) && i + |p| <= |a|
    ensures Contains(a, p)
  {
    assert (a + b)[i..i + |p|] == a[i..i + |p|];
    assert OccursAt(a, p, i);
    FindSpec(a, p);
  }

  lemma OccursInRight(a: string, b: string, p: string, i: nat)
    requires OccursAt(a + b, p, i) && |a| <= i
    ensures Contains(b, p)
  {
    var j := i - |a|;
    assert (a + b)[i..i + |p|] == b[j..j + |p|];
    assert OccursAt(b, p, j);
    FindSpec(b, p);
  }

  /** A pattern with a character that neither part has cannot occur in
      their concatenation. */
  lemma LacksChar(x: string, y: string, p: string, c: char)
    requires c in p && c !in x && c !in y
    ensures !Contains(x + y, p)
  {
    AbsentChar(x + y, p, c);
  }

  /** An occurrence in `a + b` lies in `a` or in `b` when the first character
      of `b` is not in the pattern: no window can straddle the seam. */
  lemma ContainsSplit(a: string, b: string, p: string)
    requires |b| > 0 && b[0] !in p
    ensures Contains(a + b, p) ==> Contains(a, p) || Contains(b, p)
  {
    var s := a + b;
    forall i: nat | i < |a| < i + |p| && i + |p| <= |s|
      ensures !OccursAt(s, p, i)
    {
      assert s[i..i + |p|][|a| - i] == b[0];
    }
    if Contains(s, p) {
      FindSpec(s, p);
      var i := Find(s, p).value;
      if i + |p| <= |a| {
        OccursInLeft(a, b, p, i);
      } else {
        OccursInRight(a, b, p, i);
      }
    }
  }

  // ---------------------------------------------------------------------------
  // The NUL-terminated view of a buffer
  // ---------------------------------------------------------------------------

  /** What the C string functions see of a buffer: the bytes before the first
      NUL. */
  function CStr(s: string): (r: string)
    ensures |r| <= |s| && r == s[..|r|]
    ensures '\0' !in r
    ensures |r| < |s| ==> s[|r|] == '\0'
  {
    if s == [] then []
    else if s[0] == '\0' then []
    else [s[0]] + CStr(s[1..])
  }

  /** A NUL ends the string: what follows it is never seen. */
  lemma {:induction false} CStrTerminated(d: string, rest: string)
    ensures CStr(d + ['\0'] + rest) == CStr(d)
  {
    if d != [] {
      assert (d + ['\0'] + rest)[1..] == d[1..] + ['\0'] + rest;
      CStrTerminated(d[1..], rest);
    }
  }

  lemma CStrNoNul(s: string)
    requires '\0' !in s
    ensures CStr(s) == s
  {
  }

  // ---------------------------------------------------------------------------
  // Decimal numbers
  // ---------------------------------------------------------------------------

  predicate IsDigit(c: char) {
    '0' <= c <= '9'
  }

  /** The characters `isspace` accepts in the C locale. */
  predicate IsSpace(c: char) {
    c == ' ' || (9 <= c as int <= 13)
  }

  predicate AllDigits(s: string) {
    forall i :: 0 <= i < |s| ==> IsDigit(s[i])
  }

  function DigitChar(d: nat): (c: char)
    requires d < 10
    ensures IsDigit(c) && c as int - '0' as int == d
  {
    (d + '0' as int) as char
  }

  /** The decimal rendering of `n` (what the modem prints for a code). */
  function Show(n: nat): (r: string)
    ensures |r| > 0 && AllDigits(r)
    decreases n
  {
    if n < 10 then [DigitChar(n)] else Show(n / 10) + [DigitChar(n % 10)]
  }

  /** The number a string of digits denotes. */
  function DigitsValue(ds: string): nat
    requires AllDigits(ds)
  {
    if ds == [] then 0
    else DigitsValue(ds[..|ds| - 1]) * 10 + (ds[|ds| - 1] as int - '0' as int)
  }

  lemma {:induction false} ValueOfShow(n: nat)
    ensures DigitsValue(Show(n)) == n
    decreases n
  {
    if n >= 10 {
      var s := Show(n);
      assert s[..|s| - 1] == Show(n / 10);
      ValueOfShow(n / 10);
    }
  }

  /** The longest prefix of `s` made of digits. */
  function LeadingDigits(s: string): (r: string)
    ensures |r| <= |s| && r == s[..|r|] && AllDigits(r)
    ensures |r| == |s| || !IsDigit(s[|r|])
  {
    if s != [] && IsDigit(s[0]) then [s[0]] + LeadingDigits(s[1..]) else []
  }

  lemma {:induction false} LeadingDigitsOf(ds: string, rest: string)
    requires AllDigits(ds)
    requires rest == [] || !IsDigit(rest[0])
    ensures LeadingDigits(ds + rest) == ds
  {
    if ds != [] {
      assert (ds + rest)[1..] == ds[1..] + rest;
      LeadingDigitsOf(ds[1..], rest);
    } else {
      assert ds + rest == rest;
    }
  }

  function SkipSpace(s: string): (r: string)
    ensures |r| <= |s| && r == s[|s| - |r|..]
    ensures r == [] || !IsSpace(r[0])
  {
    if s != [] && IsSpace(s[0]) then SkipSpace(s[1..]) else s
  }

  /** The digits part of a `%d` conversion: at least one digit, read
      greedily. Gives the value and the unread rest. */
  function ScanDigits(u: string): Option<(int, string)>
  {
    var ds := LeadingDigits(u);
    if ds == [] then None else Some((DigitsValue(ds) as int, u[|ds|..]))
  }

  /** One `%d` conversion of `sscanf`: leading white space, an optional sign,
      then at least one digit. Gives the value and the unread rest, or None on
      a matching failure. */
  function ScanInt(s: string): Option<(int, string)>
  {
    ScanSigned(SkipSpace(s))
  }

  /** The conversion after the white space. */
  function ScanSigned(t: string): Option<(int, string)>
  {
    if t != [] && t[0] == '-' then
      match ScanDigits(t[1..])
      case None => None
      case Some((v, rest)) => Some((-v, rest))
    else if t != [] && t[0] == '+' then ScanDigits(t[1..])
    else ScanDigits(t)
  }

  lemma ScanDigitsShow(n: nat, rest: string)
    requires rest == [] || !IsDigit(rest[0])
    ensures ScanDigits(Show(n) + rest) == Some((n as int, rest))
  {
    var s := Show(n) + rest;
    LeadingDigitsOf(Show(n), rest);
    ValueOfShow(n);
    assert s[|Show(n)|..] == rest;
  }

  lemma ScanIntShow(n: nat, rest: string)
    requires rest == [] || !IsDigit(rest[0])
    ensures ScanInt(Show(n) + rest) == Some((n as int, rest))
  {
    var s := Show(n) + rest;
    assert s[0] == Show(n)[0];
    assert SkipSpace(s) == s;
    ScanDigitsShow(n, rest);
  }

  /** A conversion reads only what follows the white space. */
  lemma ScanIntSameSkip(a: string, b: string)
    requires SkipSpace(a) == SkipSpace(b)
    ensures ScanInt(a) == ScanInt(b)
  {
  }

  lemma ScanIntAfterSpace(x: string)
    requires x != [] && IsDigit(x[0])
    ensures ScanInt([' '] + x) == ScanInt(x)
  {
    assert SkipSpace([' '] + x) == SkipSpace(x) by {
      assert ([' '] + x)[1..] == x;
    }
    ScanIntSameSkip([' '] + x, x);
  }

  /** Whether `s` starts with the literal `"<name>:"` of a scan format. */
  predicate HasHeader(s: string, name: string) {
    |name| + 1 <= |s| && s[..|name| + 1] == name + ":"
  }

  /** `sscanf(s, "<name>: %d", &code)`: the code read, if any. */
  function ScanCode(s: string, name: string): Option<int>
  {
    if !HasHeader(s, name) then None
    else
      match ScanInt(s[|name| + 1..])
      case None => None
      case Some((v, _)) => Some(v)
  }

  /** `sscanf(s, "<name>: %d,%d", &a, &b)`: the two values read, if any. The
      second is only ever read after the first. */
  function ScanCodes(s: string, name: string): (r: (Option<int>, Option<int>))
    ensures r.1.Some? ==> r.0.Some?
  {
    if !HasHeader(s, name) then (None, None)
    else
      match ScanInt(s[|name| + 1..])
      case None => (None, None)
      case Some((a, t)) =>
        if t != [] && t[0] == ',' then
          match ScanInt(t[1..])
          case None => (Some(a), None)
          case Some((b, _)) => (Some(a), Some(b))
        else (Some(a), None)
  }

  /** The text the modem prints for a one-field report, as the scan expects. */
  function Field1(name: string, a: nat): string {
    name + ": " + Show(a)
  }

  /** The text the modem prints for a two-field report. */
  function Field2(name: string, a: nat, b: nat): string {
    name + ": " + Show(a) + "," + Show(b)
  }

  lemma ScanCodeRoundTrip(name: string, a: nat, rest: string)
    requires rest == [] || !IsDigit(rest[0])
    ensures ScanCode(Field1(name, a) + rest, name) == Some(a as int)
  {
    var s := Field1(name, a) + rest;
    assert s[..|name| + 1] == name + ":";
    assert s[|name| + 1..] == [' '] + (Show(a) + rest);
    ScanIntAfterSpace(Show(a) + rest);
    ScanIntShow(a, rest);
  }

  lemma ScanCodesOf(s: string, name: string, a: int, t: string, b: int, rest: string)
    requires HasHeader(s, name)
    requires ScanInt(s[|name| + 1..]) == Some((a, t))
    requires t != [] && t[0] == ','
    requires ScanInt(t[1..]) == Some((b, rest))
    ensures ScanCodes(s, name) == (Some(a), Some(b))
  {
  }

  /** Splits a two-field report into its header and the text after it. */
  lemma Field2Split(name: string, a: nat, b: nat, rest: string)
    ensures HasHeader(Field2(name, a, b) + rest, name)
    ensures (Field2(name, a, b) + rest)[|name| + 1..] == [' '] + (Show(a) + ("," + Show(b) + rest))
  {
    var s := Field2(name, a, b) + rest;
    assert s == (name + ":") + ([' '] + (Show(a) + ("," + Show(b) + rest)));
  }

  lemma ScanFirstOfField2(name: string, a: nat, b: nat, rest: string)
    requires rest == [] || !IsDigit(rest[0])
    ensures ScanInt((Field2(name, a, b) + rest)[|name| + 1..]) == Some((a as int, "," + Show(b) + rest))
  {
    var t := "," + Show(b) + rest;
    Field2Split(name, a, b, rest);
    ScanIntAfterSpace(Show(a) + t);
    ScanIntShow(a, t);
  }

  lemma ScanAfterComma(b: nat, rest: string)
    requires rest == [] || !IsDigit(rest[0])
    ensures ScanInt(("," + Show(b) + rest)[1..]) == Some((b as int, rest))
  {
    var t := "," + Show(b) + rest;
    assert t[1..] == Show(b) + rest;
    ScanIntShow(b, rest);
  }

  lemma ScanCodesRoundTrip(name: string, a: nat, b: nat, rest: string)
    requires rest == [] || !IsDigit(rest[0])
    ensures ScanCodes(Field2(name, a, b) + rest, name) == (Some(a as int), Some(b as int))
  {
    Field2Split(name, a, b, rest);
    ScanFirstOfField2(name, a, b, rest);
    ScanAfterComma(b, rest);
    ScanCodesOf(Field2(name, a, b) + rest, name, a, "," + Show(b) + rest, b, rest);
  }
}
