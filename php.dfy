/**
 * The pieces of PHP's runtime that the application's code leans on: the
 * values json_decode(..., true) produces, the `??` operator, the `(string)`
 * and `(int)` casts, trim(), and the path functions dirname(), basename()
 * and str_replace('\\', '/', ...).
 */
module Php {
  import opened Common

  /**
   * A decoded JSON value. JSON objects and JSON lists both become PHP
   * arrays; a list's keys are its indices written in decimal. JSON numbers
   * with a fraction or an exponent (PHP floats) are not modelled.
   */
  datatype Value =
    | Null
    | Bool(b: bool)
    | Int(i: int)
    | Str(s: string)
    | Arr(entries: map<string, Value>)

  type PhpArray = map<string, Value>

  /** `isset($a[$k])`: the key is there and its value is not null. */
  predicate Present(a: PhpArray, k: string) {
    k in a && a[k] != Null
  }

  /** `$a[$k] ?? $default` */
  function Coalesce(a: PhpArray, k: string, default: Value): Value {
    if Present(a, k) then a[k] else default
  }

  // ---------------------------------------------------------------------
  // Stripping characters from either end of a string
  // ---------------------------------------------------------------------

  /** The end of the run of characters satisfying `strip` that starts at `i`. */
  function LeadingSpan(s: string, strip: char -> bool, i: nat): (k: nat)
    requires i <= |s|
    ensures i <= k <= |s|
    ensures forall j :: i <= j < k ==> strip(s[j])
    ensures k == |s| || !strip(s[k])
    decreases |s| - i
  {
    if i < |s| && strip(s[i]) then LeadingSpan(s, strip, i + 1) else i
  }

  /** The start of the run of characters satisfying `strip` that ends at `j`. */
  function TrailingSpan(s: string, strip: char -> bool, j: nat): (k: nat)
    requires j <= |s|
    ensures k <= j
    ensures forall i :: k <= i < j ==> strip(s[i])
    ensures k == 0 || !strip(s[k - 1])
  {
    if j > 0 && strip(s[j - 1]) then TrailingSpan(s, strip, j - 1) else j
  }

  /** Drops the longest prefix of `s` whose characters all satisfy `strip`. */
  function LStrip(s: string, strip: char -> bool): (r: string)
    ensures |r| <= |s| && r == s[|s| - |r|..]
    ensures forall i :: 0 <= i < |s| - |r| ==> strip(s[i])
    ensures r == [] || !strip(r[0])
  {
    s[LeadingSpan(s, strip, 0)..]
  }

  /** Drops the longest suffix of `s` whose characters all satisfy `strip`. */
  function RStrip(s: string, strip: char -> bool): (r: string)
    ensures |r| <= |s| && r == s[..|r|]
    ensures forall i :: |r| <= i < |s| ==> strip(s[i])
    ensures r == [] || !strip(r[|r| - 1])
  {
    s[..TrailingSpan(s, strip, |s|)]
  }

  /** Stripping a prefix of strippable characters stops where `x` begins. */
  lemma LStripSkips(w: string, x: string, strip: char -> bool)
    requires forall i :: 0 <= i < |w| ==> strip(w[i])
    requires x == [] || !strip(x[0])
    ensures LStrip(w + x, strip) == x
  {
    assert (w + x)[|w|..] == x;
  }

  /** Stripping a suffix of strippable characters stops where `x` ends. */
  lemma RStripSkips(x: string, w: string, strip: char -> bool)
    requires forall i :: 0 <= i < |w| ==> strip(w[i])
    requires x == [] || !strip(x[|x| - 1])
    ensures RStrip(x + w, strip) == x
  {
    assert (x + w)[..|x|] == x;
  }

  /** The characters trim() removes by default: " \t\n\r\0\x0B". */
  predicate IsTrimChar(c: char) {
    c == ' ' || c == '\t' || c == '\n' || c == '\r' || c == '\0' || c == '\U{0B}'
  }

  /**
   * ASCII white space: what PCRE's `\s` matches without the /u flag, and
   * what PHP skips before the digits of a numeric string: " \t\n\x0B\f\r".
   */
  predicate IsAsciiSpace(c: char) {
    c == ' ' || c == '\t' || c == '\n' || c == '\U{0B}' || c == '\U{0C}' || c == '\r'
  }

  /** Neither end of `s` is a character trim() removes. */
  predicate Trimmed(s: string) {
    s == [] || (!IsTrimChar(s[0]) && !IsTrimChar(s[|s| - 1]))
  }

  /** Only characters trim() removes: `trim($s) === ''`. */
  predicate Blank(s: string) {
    forall i :: 0 <= i < |s| ==> IsTrimChar(s[i])
  }

  /** trim($s): `s` without the trim characters at its start and at its end. */
  function Trim(s: string): (r: string)
    ensures Trimmed(r)
    ensures r == [] <==> Blank(s)
    ensures Trimmed(s) ==> r == s
    ensures exists k :: 0 <= k <= |s| - |r| && r == s[k..k + |r|] && Blank(s[..k]) && Blank(s[k + |r|..])
  {
    var t := LStrip(s, IsTrimChar);
    assert t != [] ==> t[0] == s[|s| - |t|];
    var r := RStrip(t, IsTrimChar);
    StripsAreEnds(s, t, r);
    r
  }

  /** Stripping both ends leaves an infix of `s` with only trim characters around it. */
  lemma StripsAreEnds(s: string, t: string, r: string)
    requires t == LStrip(s, IsTrimChar) && r == RStrip(t, IsTrimChar)
    ensures exists k :: 0 <= k <= |s| - |r| && r == s[k..k + |r|] && Blank(s[..k]) && Blank(s[k + |r|..])
  {
    var k := |s| - |t|;
    assert s[k..k + |r|] == r;
    var head := s[..k];
    assert Blank(head) by {
      forall i | 0 <= i < |head| ensures IsTrimChar(head[i]) {
        assert head[i] == s[i];
      }
    }
    var tail := s[k + |r|..];
    assert Blank(tail) by {
      forall i | 0 <= i < |tail| ensures IsTrimChar(tail[i]) {
        assert tail[i] == t[|r| + i];
      }
    }
    assert 0 <= k <= |s| - |r| && r == s[k..k + |r|] && Blank(s[..k]) && Blank(s[k + |r|..]);
  }

  predicate StartsWith(s: string, prefix: string) {
    |prefix| <= |s| && s[..|prefix|] == prefix
  }

  predicate EndsWith(s: string, suffix: string) {
    |suffix| <= |s| && s[|s| - |suffix|..] == suffix
  }

  /** ASCII lower-casing, as PCRE's /i flag compares letters. */
  function LowerAscii(c: char): char {
    if 'A' <= c <= 'Z' then (c as int + 32) as char else c
  }

  // ---------------------------------------------------------------------
  // Decimal numbers and the casts
  // ---------------------------------------------------------------------

  predicate IsDigit(c: char) {
    '0' <= c <= '9'
  }

  predicate AllDigits(s: string) {
    forall i :: 0 <= i < |s| ==> IsDigit(s[i])
  }

  function DigitChar(d: nat): char
    requires d < 10
  {
    ('0' as int + d) as char
  }

  /** The decimal representation of `n`, as PHP prints an int. */
  function NatToString(n: nat): (s: string)
    ensures |s| > 0 && AllDigits(s)
    decreases n
  {
    if n < 10 then [DigitChar(n)] else NatToString(n / 10) + [DigitChar(n % 10)]
  }

  function IntToString(i: int): (s: string) {
    if i < 0 then "-" + NatToString(-i) else NatToString(i)
  }

  /** The number a string of decimal digits denotes (0 for the empty string). */
  function DigitsValue(s: string): nat
    requires AllDigits(s)
  {
    if s == [] then 0 else DigitsValue(s[..|s| - 1]) * 10 + (s[|s| - 1] as int - '0' as int)
  }

  /** The length of the longest prefix of `s` made of digits. */
  function DigitPrefixLength(s: string): (k: nat)
    ensures k <= |s| && AllDigits(s[..k])
    ensures k == |s| || !IsDigit(s[k])
  {
    var k := LeadingSpan(s, IsDigit, 0);
    assert forall j :: 0 <= j < k ==> s[..k][j] == s[j];
    k
  }

  /**
   * `(int) $s` for a string: leading white space is skipped, then an
   * optional sign and the longest run of digits are read; a string with no
   * leading digits gives 0. A fraction or an exponent after the digits is
   * not read (PHP reads "1e2" as 100; that case is not modelled).
   */
  function LeadingInt(s: string): int {
    var t := LStrip(s, IsAsciiSpace);
    if |t| > 0 && (t[0] == '-' || t[0] == '+') then
      var n: int := DigitsValue(t[1..][..DigitPrefixLength(t[1..])]);
      if t[0] == '-' then -n else n
    else
      DigitsValue(t[..DigitPrefixLength(t)])
  }

  /** `(int) $v` */
  function ToInt(v: Value): int {
    match v
    case Null => 0
    case Bool(b) => if b then 1 else 0
    case Int(i) => i
    case Str(s) => LeadingInt(s)
    case Arr(m) => if |m| == 0 then 0 else 1
  }

  /** `(string) $v` for a value that is not an array. */
  function AsString(v: Value): string
    requires !v.Arr?
  {
    match v
    case Null => ""
    case Bool(b) => if b then "1" else ""
    case Int(i) => IntToString(i)
    case Str(s) => s
  }

  /**
   * `(string) $v`: an array raises the "Array to string conversion"
   * warning, which Laravel's error handler turns into an ErrorException.
   */
  function StringCast(v: Value): (r: Result<string>)
    ensures r.Err? <==> v.Arr?
    ensures r.Err? ==> r.error == ArrayToString
    ensures v.Str? ==> r == Ok(v.s)
  {
    if v.Arr? then Err(ArrayToString) else Ok(AsString(v))
  }

  // ---------------------------------------------------------------------
  // Paths
  // ---------------------------------------------------------------------

  /** DIRECTORY_SEPARATOR */
  function DirectorySeparator(windows: bool): char {
    if windows then '\\' else '/'
  }

  /** dirname() and basename() accept '/' everywhere, and '\' too on Windows. */
  predicate IsSeparator(c: char, windows: bool) {
    c == '/' || (windows && c == '\\')
  }

  /** The index of the last separator in `p`, if there is one. */
  function LastSeparator(p: string, windows: bool): (k: Option<nat>)
    ensures k.Some? ==> k.value < |p| && IsSeparator(p[k.value], windows)
    ensures k.Some? ==> forall i :: k.value < i < |p| ==> !IsSeparator(p[i], windows)
    ensures k.None? ==> forall i :: 0 <= i < |p| ==> !IsSeparator(p[i], windows)
  {
    if p == [] then None
    else if IsSeparator(p[|p| - 1], windows) then Some(|p| - 1)
    else LastSeparator(p[..|p| - 1], windows)
  }

  /**
   * dirname($p): trailing separators are ignored, the last component is
   * dropped together with the separators before it; "." when there is no
   * separator, the root separator when nothing is left. Drive letters and
   * UNC prefixes on Windows are not modelled.
   */
  function Dirname(p: string, windows: bool): string {
    var sep := c => IsSeparator(c, windows);
    if p == [] then []
    else
      var q := RStrip(p, sep);
      if q == [] then [DirectorySeparator(windows)]
      else match LastSeparator(q, windows)
        case None => "."
        case Some(k) =>
          var head := RStrip(q[..k], sep);
          if head == [] then [DirectorySeparator(windows)] else head
  }

  /** basename($p): the last component, trailing separators ignored. */
  function Basename(p: string, windows: bool): string {
    var q := RStrip(p, c => IsSeparator(c, windows));
    match LastSeparator(q, windows)
    case None => q
    case Some(k) => q[k + 1..]
  }

  /** Splitting `dir + DIRECTORY_SEPARATOR + name` gives back `dir` and `name`. */
  lemma DirnameBasenameOfJoin(dir: string, name: string, windows: bool)
    requires |dir| > 0 && !IsSeparator(dir[|dir| - 1], windows)
    requires |name| > 0 && forall i :: 0 <= i < |name| ==> !IsSeparator(name[i], windows)
    ensures Dirname(dir + [DirectorySeparator(windows)] + name, windows) == dir
    ensures Basename(dir + [DirectorySeparator(windows)] + name, windows) == name
  {
    var sep := c => IsSeparator(c, windows);
    var p := dir + [DirectorySeparator(windows)] + name;
    assert p[|p| - 1] == name[|name| - 1];
    assert RStrip(p, sep) == p;
    var k := LastSeparator(p, windows);
    assert p[|dir|] == DirectorySeparator(windows);
    assert k.Some?;
    assert forall i :: |dir| < i < |p| ==> p[i] == name[i - |dir| - 1];
    assert k.value == |dir|;
    assert p[..|dir|] == dir;
    assert p[|dir| + 1..] == name;
    assert RStrip(dir, sep) == dir;
  }

  /** str_replace('\\', '/', $s) */
  function ForwardSlashes(s: string): (r: string)
    ensures |r| == |s|
  {
    seq(|s|, i requires 0 <= i < |s| => if s[i] == '\\' then '/' else s[i])
  }

  /** Every backslash becomes a slash and nothing else changes, so no backslash is left. */
  lemma ForwardSlashesReplaces(s: string)
    ensures forall i :: 0 <= i < |s| ==> ForwardSlashes(s)[i] == (if s[i] == '\\' then '/' else s[i])
    ensures forall i :: 0 <= i < |s| ==> ForwardSlashes(s)[i] != '\\'
  {
  }
}
