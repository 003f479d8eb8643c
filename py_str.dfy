/** The parts of Python's `str` that the core relies on: ordering (`<=`,
    `sorted`), substring tests (`in`, `startswith`, `endswith`), `strip`,
    `split`/`rsplit` with a count, `str(int)`/`int(str)`, `f"{n:5d}"` and
    `sep.join(...)`. Strings are sequences of code points. */
module PyStr {
  import opened Wrappers
  import opened Sorting

  /** Python truthiness of an optional string: set and not empty. */
  predicate Truthy(s: Option<string>) {
    s.Some? && s.value != ""
  }

  // ---------------------------------------------------------------------------
  // Ordering: Python compares strings code point by code point, and a proper
  // prefix is smaller than the longer string.
  // ---------------------------------------------------------------------------

  predicate Le(a: string, b: string) {
    |a| == 0 || (|b| > 0 && (a[0] < b[0] || (a[0] == b[0] && Le(a[1..], b[1..]))))
  }

  lemma {:induction false} LeTotal(a: string, b: string)
    ensures Le(a, b) || Le(b, a)
  {
    if |a| > 0 && |b| > 0 && a[0] == b[0] {
      LeTotal(a[1..], b[1..]);
    }
  }

  lemma {:induction false} LeTransitive(a: string, b: string, c: string)
    requires Le(a, b) && Le(b, c)
    ensures Le(a, c)
  {
    if |a| > 0 && a[0] == b[0] && b[0] == c[0] {
      LeTransitive(a[1..], b[1..], c[1..]);
    }
  }

  lemma {:induction false} LeAntisymmetric(a: string, b: string)
    requires Le(a, b) && Le(b, a)
    ensures a == b
  {
    if |a| > 0 {
      LeAntisymmetric(a[1..], b[1..]);
      assert a == [a[0]] + a[1..];
      assert b == [b[0]] + b[1..];
    }
  }

  /** The three order laws at once, for callers that need them quantified. */
  lemma LeIsTotalOrder()
    ensures forall a, b :: Le(a, b) || Le(b, a)
    ensures forall a, b, c :: Le(a, b) && Le(b, c) ==> Le(a, c)
    ensures forall a, b :: Le(a, b) && Le(b, a) ==> a == b
  {
    forall a, b ensures Le(a, b) || Le(b, a) { LeTotal(a, b); }
    forall a, b, c | Le(a, b) && Le(b, c) ensures Le(a, c) { LeTransitive(a, b, c); }
    forall a, b | Le(a, b) && Le(b, a) ensures a == b { LeAntisymmetric(a, b); }
  }

  /** `sorted` over strings with the default ordering is well defined. */
  lemma LeTotalPreorder()
    ensures TotalPreorder(Le)
  {
    LeIsTotalOrder();
  }

  // ---------------------------------------------------------------------------
  // Substrings
  // ---------------------------------------------------------------------------

  predicate StartsWith(s: string, prefix: string) {
    |prefix| <= |s| && s[..|prefix|] == prefix
  }

  predicate EndsWith(s: string, suffix: string) {
    |suffix| <= |s| && s[|s| - |suffix|..] == suffix
  }

  /** `s[i:i+len(sub)] == sub` */
  predicate OccursAt(s: string, sub: string, i: int) {
    0 <= i && i + |sub| <= |s| && s[i..i + |sub|] == sub
  }

  /** Python's `sub in s`. */
  predicate Contains(s: string, sub: string) {
    StartsWith(s, sub) || (|s| > 0 && Contains(s[1..], sub))
  }

  /** Shifting the text by one character shifts every occurrence by one. */
  lemma OccursShift(s: string, sub: string, i: int)
    requires |s| > 0 && i > 0
    ensures OccursAt(s, sub, i) <==> OccursAt(s[1..], sub, i - 1)
  {
    if i + |sub| <= |s| {
      assert s[1..][i - 1..i - 1 + |sub|] == s[i..i + |sub|];
    }
  }

  /** An occurrence that fits in a prefix `t` of `s` is an occurrence in both. */
  lemma OccursInPrefix(s: string, t: string, sub: string, i: int)
    requires t <= s && i + |sub| <= |t|
    ensures OccursAt(s, sub, i) <==> OccursAt(t, sub, i)
  {
    if 0 <= i {
      assert s[i..i + |sub|] == t[i..i + |sub|];
    }
  }

  /** An occurrence that starts at or after `k` in `s` is an occurrence in `s[k..]`. */
  lemma OccursInSuffix(s: string, k: nat, sub: string, i: int)
    requires k <= |s| && k <= i
    ensures OccursAt(s, sub, i) <==> OccursAt(s[k..], sub, i - k)
  {
    if i + |sub| <= |s| {
      assert s[k..][i - k..i - k + |sub|] == s[i..i + |sub|];
    }
  }

  lemma {:induction false} ContainsIffOccurs(s: string, sub: string)
    ensures Contains(s, sub) <==> exists i :: OccursAt(s, sub, i)
  {
    if StartsWith(s, sub) {
      assert OccursAt(s, sub, 0);
    } else if |s| > 0 {
      ContainsIffOccurs(s[1..], sub);
      assert !OccursAt(s, sub, 0);
      forall i | i > 0 ensures OccursAt(s, sub, i) <==> OccursAt(s[1..], sub, i - 1) {
        OccursShift(s, sub, i);
      }
      forall j ensures OccursAt(s[1..], sub, j) <==> OccursAt(s, sub, j + 1) {
        if j >= 0 { OccursShift(s, sub, j + 1); }
      }
    }
  }

  /** Index of the first occurrence of `sep` in `s` (`str.find`, with `None` for -1). */
  function Find(s: string, sep: string): (r: Option<nat>)
    ensures r.Some? ==> OccursAt(s, sep, r.value)
    ensures r.Some? ==> forall i :: 0 <= i < r.value ==> !OccursAt(s, sep, i)
    ensures r.None? ==> forall i :: !OccursAt(s, sep, i)
  {
    if StartsWith(s, sep) then Some(0)
    else if |s| == 0 then None
    else
      assert forall i :: i > 0 ==> (OccursAt(s, sep, i) <==> OccursAt(s[1..], sep, i - 1)) by {
        forall i | i > 0 ensures OccursAt(s, sep, i) <==> OccursAt(s[1..], sep, i - 1) {
          OccursShift(s, sep, i);
        }
      }
      match Find(s[1..], sep)
      case None => None
      case Some(j) => Some(j + 1)
  }

  /** Index of the last occurrence of `sep` in `s` (`str.rfind`, with `None` for -1). */
  function RFind(s: string, sep: string): (r: Option<nat>)
    ensures r.Some? ==> OccursAt(s, sep, r.value)
    ensures r.Some? ==> forall i :: r.value < i ==> !OccursAt(s, sep, i)
    ensures r.None? ==> forall i :: !OccursAt(s, sep, i)
    decreases |s|
  {
    if |sep| > |s| then None
    else if s[|s| - |sep|..] == sep then Some(|s| - |sep|)
    else
      var t := s[..|s| - 1];
      assert forall i :: i < |s| - |sep| ==> (OccursAt(s, sep, i) <==> OccursAt(t, sep, i)) by {
        forall i | i < |s| - |sep| ensures OccursAt(s, sep, i) <==> OccursAt(t, sep, i) {
          OccursInPrefix(s, t, sep, i);
        }
      }
      RFind(t, sep)
  }

  /** A separator that occurs right after `a` and nowhere later is found there by `RFind`. */
  lemma RFindAtJoint(a: string, sep: string, b: string)
    requires |sep| > 0
    requires forall i :: 0 < i ==> !OccursAt(sep + b, sep, i)
    ensures RFind(a + sep + b, sep) == Some(|a|)
  {
    var s := a + sep + b;
    assert s[|a|..] == sep + b;
    assert OccursAt(s, sep, |a|) by { assert s[|a|..|a| + |sep|] == sep; }
    forall i | |a| < i ensures !OccursAt(s, sep, i) {
      OccursInSuffix(s, |a|, sep, i);
    }
  }

  /** A separator that occurs right after `a` and nowhere earlier is found there by `Find`. */
  lemma FindAtJoint(a: string, sep: string, b: string)
    requires forall i :: 0 <= i < |a| ==> !OccursAt(a + sep, sep, i)
    ensures Find(a + sep + b, sep) == Some(|a|)
  {
    var s := a + sep + b;
    assert OccursAt(s, sep, |a|) by { assert s[|a|..|a| + |sep|] == sep; }
    forall i | 0 <= i < |a| ensures !OccursAt(s, sep, i) {
      OccursInPrefix(s, a + sep, sep, i);
    }
  }

  /** A one-character separator followed by text without that character
      occurs nowhere after its own position. */
  lemma SingleSeparatorOnce(c: char, b: string)
    requires c !in b
    ensures forall i :: 0 < i ==> !OccursAt([c] + b, [c], i)
  {
    forall i | 0 < i ensures !OccursAt([c] + b, [c], i) {
      if i <= |b| {
        assert ([c] + b)[i..i + 1] == [b[i - 1]];
      }
    }
  }

  // ---------------------------------------------------------------------------
  // split / rsplit with a maximum count, as used with tuple unpacking
  // (`a, b = s.split(sep, 1)`): `None` where the unpacking would raise.
  // ---------------------------------------------------------------------------

  /** `s.split(sep, 1)` unpacked into two parts. */
  function SplitOnce(s: string, sep: string): Option<(string, string)>
  {
    match Find(s, sep)
    case None => None
    case Some(i) => Some((s[..i], s[i + |sep|..]))
  }

  /** `s.split(sep)[0]`: the text before the first occurrence, or all of `s`. */
  function BeforeFirst(s: string, sep: string): string
  {
    match Find(s, sep)
    case None => s
    case Some(i) => s[..i]
  }

  /** `s.rsplit(sep, 1)[0]`: the text before the last occurrence, or all of `s`. */
  function BeforeLast(s: string, sep: string): string
  {
    match RFind(s, sep)
    case None => s
    case Some(i) => s[..i]
  }

  /** `s.rsplit(sep, 1)` unpacked into two parts. */
  function RSplitOnce(s: string, sep: string): Option<(string, string)>
  {
    match RFind(s, sep)
    case None => None
    case Some(i) => Some((s[..i], s[i + |sep|..]))
  }

  /** `s.rsplit(sep, 2)` unpacked into three parts. */
  function RSplitTwice(s: string, sep: string): Option<(string, string, string)>
  {
    match RSplitOnce(s, sep)
    case None => None
    case Some((rest, last)) =>
      match RSplitOnce(rest, sep)
      case None => None
      case Some((first, middle)) => Some((first, middle, last))
  }

  /** Splitting from the right at a separator that occurs nowhere in `b`
      gives back `a` and `b`. */
  lemma RSplitOnceAtJoint(a: string, sep: string, b: string)
    requires |sep| > 0
    requires forall i :: 0 < i ==> !OccursAt(sep + b, sep, i)
    ensures RSplitOnce(a + sep + b, sep) == Some((a, b))
  {
    RFindAtJoint(a, sep, b);
    var s := a + sep + b;
    assert s[..|a|] == a;
    assert s[|a| + |sep|..] == b;
  }

  /** Splitting from the left at the first occurrence, right after `a`,
      gives back `a` and `b`. */
  lemma SplitOnceAtJoint(a: string, sep: string, b: string)
    requires forall i :: 0 <= i < |a| ==> !OccursAt(a + sep, sep, i)
    ensures SplitOnce(a + sep + b, sep) == Some((a, b))
  {
    FindAtJoint(a, sep, b);
    var s := a + sep + b;
    assert s[..|a|] == a;
    assert s[|a| + |sep|..] == b;
  }

  // ---------------------------------------------------------------------------
  // Integers as decimal text: `str(n)` / `f"{n}"` and `int(s)`
  // ---------------------------------------------------------------------------

  predicate IsDigit(c: char) { '0' <= c <= '9' }

  function DigitChar(d: nat): (c: char)
    requires d < 10
    ensures IsDigit(c)
  {
    ((48 + d) as char)
  }

  function DigitValue(c: char): nat
    requires IsDigit(c)
  {
    (c as int) - 48
  }

  function NatToString(n: nat): (s: string)
    ensures |s| > 0 && forall i :: 0 <= i < |s| ==> IsDigit(s[i])
  {
    if n < 10 then [DigitChar(n)] else NatToString(n / 10) + [DigitChar(n % 10)]
  }

  /** `str(n)` */
  function IntToString(n: int): string
  {
    if n < 0 then "-" + NatToString(-n) else NatToString(n)
  }

  /** A non-empty run of decimal digits. */
  function ParseNat(s: string): Option<nat>
  {
    if |s| == 0 || !IsDigit(s[|s| - 1]) then None
    else if |s| == 1 then Some(DigitValue(s[0]))
    else match ParseNat(s[..|s| - 1])
      case None => None
      case Some(v) => Some(v * 10 + DigitValue(s[|s| - 1]))
  }

  /** `int(s)` on an optionally negative run of decimal digits. */
  function ParseInt(s: string): Option<int>
  {
    if |s| > 0 && s[0] == '-' then
      match ParseNat(s[1..])
      case None => None
      case Some(v) => Some(-(v as int))
    else
      match ParseNat(s)
      case None => None
      case Some(v) => Some(v)
  }

  lemma {:induction false} ParseNatToString(n: nat)
    ensures ParseNat(NatToString(n)) == Some(n)
  {
    if n >= 10 {
      var s := NatToString(n);
      ParseNatToString(n / 10);
      assert s[..|s| - 1] == NatToString(n / 10);
    }
  }

  /** `int(str(n)) == n` */
  lemma ParseIntToString(n: int)
    ensures ParseInt(IntToString(n)) == Some(n)
  {
    var s := IntToString(n);
    if n < 0 {
      ParseNatToString(-n);
      assert s[0] == '-' && s[1..] == NatToString(-n);
    } else {
      ParseNatToString(n);
      assert IsDigit(s[0]);
    }
  }

  /** `str(n)` holds only digits and, for a negative `n`, a leading minus sign. */
  lemma IntToStringChars(n: int)
    ensures forall i :: 0 <= i < |IntToString(n)| ==>
      IsDigit(IntToString(n)[i]) || (i == 0 && n < 0 && IntToString(n)[i] == '-')
  {
  }

  /** `f"{n:5d}"`: right-aligned in a field of the given width. */
  function PadLeft(s: string, width: nat): (r: string)
    ensures |r| == if |s| >= width then |s| else width
    ensures EndsWith(r, s)
  {
    if |s| >= width then s else seq(width - |s|, _ => ' ') + s
  }

  // ---------------------------------------------------------------------------
  // Whitespace and strip
  // ---------------------------------------------------------------------------

  /** `c.isspace()` */
  predicate IsSpace(c: char) {
    var k := c as int;
    (9 <= k <= 13) || (28 <= k <= 32) || k == 0x85 || k == 0xA0 || k == 0x1680
    || (0x2000 <= k <= 0x200A) || k == 0x2028 || k == 0x2029 || k == 0x202F
    || k == 0x205F || k == 0x3000
  }

  function LStrip(s: string): (r: string)
    ensures |r| == 0 || !IsSpace(r[0])
  {
    if |s| > 0 && IsSpace(s[0]) then LStrip(s[1..]) else s
  }

  function RStrip(s: string): (r: string)
    ensures |r| == 0 || !IsSpace(r[|r| - 1])
  {
    if |s| > 0 && IsSpace(s[|s| - 1]) then RStrip(s[..|s| - 1]) else s
  }

  /** `s.strip()` */
  function Strip(s: string): string {
    LStrip(RStrip(s))
  }

  /** `sep.join(parts)` */
  function Join(parts: seq<string>, sep: string): string {
    if |parts| == 0 then ""
    else if |parts| == 1 then parts[0]
    else Join(parts[..|parts| - 1], sep) + sep + parts[|parts| - 1]
  }
}
