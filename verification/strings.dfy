/**
 * The PHP string and path built-ins the core relies on: `strrpos`, `substr`,
 * `explode`/`implode`, `strtolower`, `basename`, `dirname`, `pathinfo` and the
 * decimal form of an integer.
 */
module PhpStrings {
  import opened Common

  /** Index of the last occurrence of `c` in `s` (PHP `strrpos`). */
  function LastIndexOf(s: string, c: char): (r: Option<nat>)
    ensures r.None? <==> c !in s
    ensures r.Some? ==> r.value < |s| && s[r.value] == c && c !in s[r.value + 1..]
  {
    if |s| == 0 then None
    else if s[|s| - 1] == c then Some(|s| - 1)
    else
      var r := LastIndexOf(s[..|s| - 1], c);
      assert s == s[..|s| - 1] + [s[|s| - 1]];
      r
  }

  /** The last occurrence of `c` in `prefix + [c] + suffix` is the one given when `suffix` has none. */
  lemma {:induction false} LastIndexOfSplit(prefix: string, c: char, suffix: string)
    requires c !in suffix
    ensures LastIndexOf(prefix + [c] + suffix, c) == Some(|prefix|)
  {
    var s := prefix + [c] + suffix;
    assert s[..|s| - |suffix|] == prefix + [c];
    assert s[|prefix| + 1..] == suffix;
    if |suffix| > 0 {
      assert s[..|s| - 1] == prefix + [c] + suffix[..|suffix| - 1];
      LastIndexOfSplit(prefix, c, suffix[..|suffix| - 1]);
    }
  }

  /** PHP `substr($s, $start, $length)` for non-negative start and length. */
  function Substr(s: string, start: nat, length: nat): (r: string)
    ensures |r| <= length
    ensures start + length <= |s| ==> r == s[start..start + length]
  {
    var b := if start < |s| then start else |s|;
    var e := if start + length < |s| then start + length else |s|;
    s[b..e]
  }

  /** PHP `substr($s, $start)` for a non-negative start. */
  function SubstrFrom(s: string, start: nat): (r: string)
    ensures start <= |s| ==> |r| == |s| - start && s == s[..start] + r
  {
    if start < |s| then s[start..] else []
  }

  /**
   * PHP `basename` for a path without a trailing slash: what follows the last
   * slash. (PHP first drops trailing slashes; this model does not.)
   */
  function Basename(path: string): (b: string)
    ensures '/' !in b
    ensures |b| <= |path|
  {
    match LastIndexOf(path, '/')
    case None => path
    case Some(i) => path[i + 1..]
  }

  /**
   * PHP `dirname` for a path without trailing or repeated slashes: what
   * precedes the last slash ("." without one, "/" for a root entry).
   */
  function Dirname(path: string): string
  {
    match LastIndexOf(path, '/')
    case None => "."
    case Some(i) => if i == 0 then "/" else path[..i]
  }

  /** Joining a non-empty directory and a slash-free name, then splitting again, gives both back. */
  lemma {:induction false} DirnameBasenameOfJoin(dir: string, name: string)
    requires dir != [] && '/' !in name
    ensures Dirname(dir + "/" + name) == dir
    ensures Basename(dir + "/" + name) == name
  {
    LastIndexOfSplit(dir, '/', name);
    assert (dir + "/" + name)[..|dir|] == dir;
    assert (dir + "/" + name)[|dir| + 1..] == name;
  }

  /** `pathinfo($path)['extension']`: after the last dot of the base name, absent without a dot. */
  function Extension(path: string): (e: Option<string>)
    ensures e.Some? ==> '.' !in e.value && '/' !in e.value
  {
    var base := Basename(path);
    match LastIndexOf(base, '.')
    case None => None
    case Some(i) => Some(base[i + 1..])
  }

  /** `pathinfo($path)['filename']`: the base name up to its last dot. */
  function Filename(path: string): (f: string)
    ensures '/' !in f
  {
    var base := Basename(path);
    match LastIndexOf(base, '.')
    case None => base
    case Some(i) => base[..i]
  }

  /** A path built from a directory, a stem and an extension gives the three back. */
  lemma {:induction false} PathinfoOfJoin(dir: string, stem: string, ext: string)
    requires dir != [] && '/' !in stem && '/' !in ext && '.' !in ext
    ensures Dirname(dir + "/" + stem + "." + ext) == dir
    ensures Filename(dir + "/" + stem + "." + ext) == stem
    ensures Extension(dir + "/" + stem + "." + ext) == Some(ext)
  {
    var name := stem + "." + ext;
    NotInJoin(stem, '.', ext, '/');
    assert dir + "/" + stem + "." + ext == dir + "/" + name;
    DirnameBasenameOfJoin(dir, name);
    BaseParts(stem, ext);
  }

  lemma NotInJoin(a: string, c: char, b: string, x: char)
    requires x !in a && x != c && x !in b
    ensures x !in a + [c] + b
  {
    assert a + [c] + b == a + ([c] + b);
  }

  /** `stem + "." + ext` splits at its last dot into `stem` and `ext`. */
  lemma BaseParts(stem: string, ext: string)
    requires '.' !in ext
    ensures var name := stem + "." + ext;
      LastIndexOf(name, '.') == Some(|stem|) && name[..|stem|] == stem && name[|stem| + 1..] == ext
  {
    LastIndexOfSplit(stem, '.', ext);
    var name := stem + "." + ext;
    assert name[..|stem|] == stem;
    assert name[|stem| + 1..] == ext;
  }

  /** ASCII lower-casing of one character, as PHP `strtolower` does it. */
  function LowerChar(c: char): char {
    if 'A' <= c <= 'Z' then (c as int + 32) as char else c
  }

  /** PHP `strtolower`. */
  function ToLower(s: string): string {
    seq(|s|, i requires 0 <= i < |s| => LowerChar(s[i]))
  }

  /** PHP `explode($sep, $s)` for a one-character separator. */
  function Explode(sep: char, s: string): (parts: seq<string>)
    ensures |parts| >= 1
    ensures forall k :: 0 <= k < |parts| ==> sep !in parts[k]
    decreases |s|
  {
    match LastIndexOf(s, sep)
    case None => [s]
    case Some(i) => Explode(sep, s[..i]) + [s[i + 1..]]
  }

  /** PHP `implode($sep, $parts)` for a one-character separator. */
  function Implode(sep: char, parts: seq<string>): string
  {
    if |parts| == 0 then ""
    else if |parts| == 1 then parts[0]
    else Implode(sep, parts[..|parts| - 1]) + [sep] + parts[|parts| - 1]
  }

  /** Imploding the pieces of an explode restores the string. */
  lemma {:induction false} ImplodeExplode(sep: char, s: string)
    ensures Implode(sep, Explode(sep, s)) == s
    decreases |s|
  {
    match LastIndexOf(s, sep)
    case None =>
    case Some(i) =>
      var front := Explode(sep, s[..i]);
      ImplodeExplode(sep, s[..i]);
      var parts := front + [s[i + 1..]];
      assert parts[..|parts| - 1] == front;
      assert s == s[..i] + [sep] + s[i + 1..];
  }

  /** Exploding an implode of separator-free parts gives the parts back. */
  lemma {:induction false} ExplodeImplode(sep: char, parts: seq<string>)
    requires |parts| >= 1
    requires forall k :: 0 <= k < |parts| ==> sep !in parts[k]
    ensures Explode(sep, Implode(sep, parts)) == parts
    decreases |parts|
  {
    if |parts| > 1 {
      var front := parts[..|parts| - 1];
      var last := parts[|parts| - 1];
      var s := Implode(sep, front) + [sep] + last;
      LastIndexOfSplit(Implode(sep, front), sep, last);
      assert s[..|Implode(sep, front)|] == Implode(sep, front);
      assert s[|Implode(sep, front)| + 1..] == last;
      ExplodeImplode(sep, front);
      assert front + [last] == parts;
    }
  }

  function DigitChar(d: nat): char
    requires d < 10
  {
    ('0' as int + d) as char
  }

  function DigitValue(c: char): int {
    c as int - '0' as int
  }

  /** Decimal digits of a natural number, without leading zeros. */
  function NatToString(n: nat): (s: string)
    ensures |s| >= 1
    ensures forall k :: 0 <= k < |s| ==> '0' <= s[k] <= '9'
  {
    if n < 10 then [DigitChar(n)] else NatToString(n / 10) + [DigitChar(n % 10)]
  }

  /** PHP's string form of an integer: a minus sign for negatives, then the digits. */
  function IntToString(n: int): string {
    if n < 0 then "-" + NatToString(-n) else NatToString(n)
  }

  /** The value of a run of decimal digits. */
  function ParseDigits(s: string): int {
    if |s| == 0 then 0 else 10 * ParseDigits(s[..|s| - 1]) + DigitValue(s[|s| - 1])
  }

  /** Reads back an integer written by `IntToString`. */
  function ParseInt(s: string): int {
    if |s| > 0 && s[0] == '-' then -ParseDigits(s[1..]) else ParseDigits(s)
  }

  lemma {:induction false} ParseDigitsNatToString(n: nat)
    ensures ParseDigits(NatToString(n)) == n
  {
    var s := NatToString(n);
    if n >= 10 {
      ParseDigitsNatToString(n / 10);
      assert s[..|s| - 1] == NatToString(n / 10);
      assert DigitValue(s[|s| - 1]) == n % 10;
      assert ParseDigits(s) == 10 * (n / 10) + n % 10;
    }
  }

  /** `ParseInt` inverts `IntToString`. */
  lemma IntToStringRoundTrip(n: int)
    ensures ParseInt(IntToString(n)) == n
  {
    if n < 0 {
      ParseDigitsNatToString(-n);
      assert IntToString(n)[1..] == NatToString(-n);
    } else {
      ParseDigitsNatToString(n);
    }
  }
}
