// Shared vocabulary: optional values, results, and the handful of Python
// string operations the backend relies on (slicing, join, strip, lower,
// prefix/suffix tests, decimal rendering of counters).

module Text {

  datatype Option<T> = None | Some(value: T)

  datatype Result<T, E> = Ok(value: T) | Err(error: E)

  /** One byte of a file's contents. */
  newtype byte = b: int | 0 <= b < 256

  /** One block of multimodal message content: its "type" and "text" keys, when present. */
  datatype Block = Block(kind: Option<string>, text: Option<string>)

  /** Python's `s[:n]`: the first n characters, or all of s when it is shorter. */
  function Prefix(s: string, n: nat): (r: string)
    ensures |r| == if |s| <= n then |s| else n
    ensures r <= s
  {
    if |s| <= n then s else s[..n]
  }

  predicate StartsWith(s: string, p: string)
  {
    |p| <= |s| && s[..|p|] == p
  }

  predicate EndsWith(s: string, p: string)
  {
    |p| <= |s| && s[|s| - |p|..] == p
  }

  /** Python's `p in s` for strings: p occurs somewhere in s. */
  predicate Contains(s: string, p: string)
    decreases |s|
  {
    StartsWith(s, p) || (s != [] && Contains(s[1..], p))
  }

  /** Python truthiness of an optional string: present and non-empty. */
  predicate Truthy(s: Option<string>)
  {
    s.Some? && s.value != ""
  }

  /** Python's `sep.join(parts)`. */
  function Join(sep: string, parts: seq<string>): (r: string)
    ensures parts == [] ==> r == ""
    ensures |parts| == 1 ==> r == parts[0]
    decreases |parts|
  {
    if |parts| == 0 then ""
    else if |parts| == 1 then parts[0]
    else parts[0] + sep + Join(sep, parts[1..])
  }

  /** A join starts with its first part. */
  lemma JoinStartsWithFirst(sep: string, parts: seq<string>)
    requires parts != []
    ensures StartsWith(Join(sep, parts), parts[0])
  {
    if |parts| > 1 {
      var r := Join(sep, parts);
      assert r == parts[0] + (sep + Join(sep, parts[1..]));
      assert r[..|parts[0]|] == parts[0];
    }
  }

  /** A join ends with its last part. */
  lemma {:induction false} JoinEndsWithLast(sep: string, parts: seq<string>)
    requires parts != []
    ensures EndsWith(Join(sep, parts), parts[|parts| - 1])
    decreases |parts|
  {
    if |parts| > 1 {
      var tail := Join(sep, parts[1..]);
      JoinEndsWithLast(sep, parts[1..]);
      var head := parts[0] + sep;
      assert Join(sep, parts) == head + tail;
      var z := parts[|parts| - 1];
      assert (head + tail)[|head + tail| - |z|..] == tail[|tail| - |z|..];
    }
  }

  /** The characters Python's `str.isspace` (and the regex class `\s`) accept. */
  predicate IsSpace(c: char)
  {
    c == ' ' || ('\t' <= c <= '\r') || ('\U{1C}' <= c <= '\U{1F}')
    || c == '\U{85}' || c == '\U{A0}' || c == '\U{1680}'
    || ('\U{2000}' <= c <= '\U{200A}') || c == '\U{2028}' || c == '\U{2029}'
    || c == '\U{202F}' || c == '\U{205F}' || c == '\U{3000}'
  }

  predicate IsDigit(c: char)
  {
    '0' <= c <= '9'
  }

  function StripLeft(s: string): (r: string)
    ensures |r| <= |s| && r == s[|s| - |r|..]
    ensures r != [] ==> !IsSpace(r[0])
    decreases |s|
  {
    if s != [] && IsSpace(s[0]) then StripLeft(s[1..]) else s
  }

  function StripRight(s: string): (r: string)
    ensures |r| <= |s| && r == s[..|r|]
    ensures r != [] ==> !IsSpace(r[|r| - 1])
    decreases |s|
  {
    if s != [] && IsSpace(s[|s| - 1]) then StripRight(s[..|s| - 1]) else s
  }

  /** Python's `str.strip()`: drop leading and trailing whitespace. */
  function Strip(s: string): (r: string)
    ensures |r| <= |s|
    ensures r != [] ==> !IsSpace(r[0]) && !IsSpace(r[|r| - 1])
  {
    StripRight(StripLeft(s))
  }

  function LowerChar(c: char): char
  {
    if 'A' <= c <= 'Z' then (c as int + 32) as char else c
  }

  /** `str.lower()` restricted to ASCII letters. */
  function Lower(s: string): (r: string)
    ensures |r| == |s|
    ensures forall i :: 0 <= i < |s| ==> r[i] == LowerChar(s[i])
  {
    seq(|s|, i requires 0 <= i < |s| => LowerChar(s[i]))
  }

  /** `str.replace(a, b)` for single characters. */
  function ReplaceChar(s: string, a: char, b: char): (r: string)
    ensures |r| == |s|
    ensures forall i :: 0 <= i < |s| ==> r[i] == (if s[i] == a then b else s[i])
  {
    seq(|s|, i requires 0 <= i < |s| => if s[i] == a then b else s[i])
  }

  /** Index just after the last occurrence of c, or 0 when c does not occur. */
  function AfterLast(s: string, c: char): (k: nat)
    ensures k <= |s|
    ensures k > 0 ==> s[k - 1] == c
    ensures forall i :: k <= i < |s| ==> s[i] != c
    decreases |s|
  {
    if s == [] then 0
    else if s[|s| - 1] == c then |s|
    else AfterLast(s[..|s| - 1], c)
  }

  /** Python's `s.rsplit(c, 1)[-1]`: the text after the last c. */
  function LastSegment(s: string, c: char): (r: string)
    ensures c !in r
    ensures EndsWith(s, r)
    ensures c !in s ==> r == s
  {
    s[AfterLast(s, c)..]
  }

  /** The last segment after a separator is what follows it, when that holds no separator. */
  lemma LastSegmentAfter(dir: string, name: string, c: char)
    requires c !in name
    ensures LastSegment(dir + [c] + name, c) == name
  {
    var p := dir + [c] + name;
    var k := AfterLast(p, c);
    assert p[|dir|] == c;
    assert p[|dir| + 1..] == name;
  }

  /** A suffix holds no character its string lacks. */
  lemma SuffixKeepsAbsent(s: string, r: string, c: char)
    requires EndsWith(s, r) && c !in s
    ensures c !in r
  {
  }

  /** A suffix of a suffix is a suffix. */
  lemma SuffixOfSuffix(s: string, a: string, r: string)
    requires EndsWith(s, a) && EndsWith(a, r)
    ensures EndsWith(s, r)
  {
    assert forall i :: 0 <= i < |r| ==> r[i] == a[|a| - |r| + i] == s[|s| - |r| + i];
  }

  /** Where pathlib splits a name into stem and suffix: after the last '.', unless that dot is the
      first or the last character (0 when there is no split). */
  function SuffixStart(name: string): (k: nat)
    ensures k <= |name|
    ensures k > 0 ==> 1 <= k < |name| && name[k] == '.'
  {
    var a := AfterLast(name, '.');
    if 2 <= a < |name| then a - 1 else 0
  }

  /** pathlib's Path.suffix: from the last dot on, or "". */
  function Suffix(name: string): (r: string)
    ensures r == [] || r[0] == '.'
  {
    var k := SuffixStart(name);
    if k == 0 then "" else name[k..]
  }

  /** pathlib's Path.stem: the name without its suffix. */
  function Stem(name: string): (r: string)
    ensures r + Suffix(name) == name
  {
    var k := SuffixStart(name);
    if k == 0 then name else name[..k]
  }

  /** Decimal rendering of a natural number, as `str(n)`. */
  function NatToString(n: nat): (r: string)
    ensures r != []
    ensures |r| == 1 <==> n < 10
    ensures forall i :: 0 <= i < |r| ==> IsDigit(r[i])
    decreases n
  {
    if n < 10 then [DigitChar(n)] else NatToString(n / 10) + [DigitChar(n % 10)]
  }

  function DigitChar(d: nat): (c: char)
    requires d < 10
    ensures IsDigit(c)
  {
    ('0' as int + d) as char
  }

  /** Distinct numbers render as distinct strings. */
  lemma {:induction false} NatToStringInjective(m: nat, n: nat)
    requires NatToString(m) == NatToString(n)
    ensures m == n
    decreases m + n
  {
    var a, b := NatToString(m), NatToString(n);
    if m < 10 || n < 10 {
      assert DigitChar(m) == a[0] == b[0] == DigitChar(n);
    } else {
      assert a[..|a| - 1] == NatToString(m / 10);
      assert b[..|b| - 1] == NatToString(n / 10);
      NatToStringInjective(m / 10, n / 10);
      assert DigitChar(m % 10) == a[|a| - 1] == b[|b| - 1] == DigitChar(n % 10);
    }
  }
}
