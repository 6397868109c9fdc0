/** String helpers used by the store (file names), the reconciler (units) and the UI helpers. */
module Text {

  /** Go's strings.HasPrefix and JavaScript's startsWith. */
  predicate StartsWith(s: string, prefix: string) {
    |prefix| <= |s| && s[..|prefix|] == prefix
  }

  /** Go's `<` on strings: byte order, which for UTF-8 is code-point order. */
  predicate LexLess(a: string, b: string) {
    if a == [] then b != []
    else b != [] && (a[0] < b[0] || (a[0] == b[0] && LexLess(a[1..], b[1..])))
  }

  lemma {:induction false} LexLessIrreflexive(a: string)
    ensures !LexLess(a, a)
  {
    if a != [] { LexLessIrreflexive(a[1..]); }
  }

  lemma {:induction false} LexLessTransitive(a: string, b: string, c: string)
    requires LexLess(a, b) && LexLess(b, c)
    ensures LexLess(a, c)
  {
    if a != [] && b != [] && c != [] && a[0] == b[0] && b[0] == c[0] {
      LexLessTransitive(a[1..], b[1..], c[1..]);
    }
  }

  lemma {:induction false} LexLessAsymmetric(a: string, b: string)
    requires LexLess(a, b)
    ensures !LexLess(b, a)
  {
    if a != [] && b != [] && a[0] == b[0] { LexLessAsymmetric(a[1..], b[1..]); }
  }

  /** "Not before" is transitive too: it is the order <= . */
  lemma NotLexLessTransitive(a: string, b: string, c: string)
    requires !LexLess(a, b) && !LexLess(b, c)
    ensures !LexLess(a, c)
  {
    if a != b && b != c {
      LexLessTotal(a, b);
      LexLessTotal(b, c);
      LexLessTransitive(c, b, a);
      LexLessAsymmetric(c, a);
    }
  }

  lemma {:induction false} LexLessTotal(a: string, b: string)
    requires a != b
    ensures LexLess(a, b) || LexLess(b, a)
  {
    if a != [] && b != [] && a[0] == b[0] {
      assert a == [a[0]] + a[1..] && b == [b[0]] + b[1..];
      LexLessTotal(a[1..], b[1..]);
    }
  }

  /** Go's strings.HasSuffix and JavaScript's endsWith. */
  predicate EndsWith(s: string, suffix: string) {
    |suffix| <= |s| && s[|s| - |suffix|..] == suffix
  }

  /** JavaScript's includes on strings: `part` occurs somewhere in `s`. */
  predicate Contains(s: string, part: string)
    decreases |s|
  {
    StartsWith(s, part) || (|s| > 0 && Contains(s[1..], part))
  }

  /** Go's strings.ReplaceAll(s, pattern, ""): every non-overlapping occurrence of
      `pattern`, scanned left to right, is removed. */
  function RemoveAll(s: string, pattern: string): (r: string)
    requires |pattern| > 0
    ensures |r| <= |s|
    decreases |s|
  {
    if |s| == 0 then ""
    else if StartsWith(s, pattern) then RemoveAll(s[|pattern|..], pattern)
    else [s[0]] + RemoveAll(s[1..], pattern)
  }

  /** Lower-casing of one character: ASCII letters, the Cyrillic capitals А..Я and Ё.
      Every other character is left alone. */
  function LowerChar(c: char): (r: char)
    ensures 'A' <= c <= 'Z' ==> 'a' <= r <= 'z'
    ensures !('A' <= c <= 'Z') && !('А' <= c <= 'Я') && c != 'Ё' ==> r == c
  {
    if 'A' <= c <= 'Z' then (c as int + 32) as char
    else if 'А' <= c <= 'Я' then (c as int + 32) as char
    else if c == 'Ё' then 'ё'
    else c
  }

  /** Upper-casing of one character: ASCII letters, the Cyrillic small letters а..я and ё. */
  function UpperChar(c: char): (r: char)
    ensures 'a' <= c <= 'z' ==> 'A' <= r <= 'Z'
    ensures !('a' <= c <= 'z') && !('а' <= c <= 'я') && c != 'ё' ==> r == c
  {
    if 'a' <= c <= 'z' then (c as int - 32) as char
    else if 'а' <= c <= 'я' then (c as int - 32) as char
    else if c == 'ё' then 'Ё'
    else c
  }

  /** Go's strings.ToLower and JavaScript's toLowerCase, restricted to the letters above. */
  function Lower(s: string): (r: string)
    ensures |r| == |s|
    ensures forall i :: 0 <= i < |s| ==> r[i] == LowerChar(s[i])
  {
    if s == "" then "" else [LowerChar(s[0])] + Lower(s[1..])
  }

  /** One character's full upper-case mapping, as JavaScript's toUpperCase applies it:
      the letters UpperChar knows, and every special mapping of the Unicode
      SpecialCasing table whose result holds a Latin capital A-Z (ß is SS, the
      ligature ﬁ is FI, the dotless ı is I, ŉ is ʼN). Other letters outside ASCII and
      Cyrillic are left as they are, which never yields a Latin capital. */
  function UpperImage(c: char): (r: string)
    ensures 1 <= |r| <= 3
    ensures c as int < 128 ==> r == [UpperChar(c)]
    ensures 'а' <= c <= 'я' || c == 'ё' ==> r == [UpperChar(c)]
  {
    if c as int < 0xDF then [UpperChar(c)] else SpecialUpper(c)
  }

  /** The full upper case of a character from ß on. */
  function SpecialUpper(c: char): (r: string)
    ensures 1 <= |r| <= 3
  {
    match c
    case 'ß' => "SS"
    case 'ı' => "I"
    case 'ſ' => "S"
    case 'ŉ' => "\U{02BC}N"
    case 'ǰ' => "J\U{030C}"
    case 'ẖ' => "H\U{0331}"
    case 'ẗ' => "T\U{0308}"
    case 'ẘ' => "W\U{030A}"
    case 'ẙ' => "Y\U{030A}"
    case 'ẚ' => "A\U{02BE}"
    case 'ﬀ' => "FF"
    case 'ﬁ' => "FI"
    case 'ﬂ' => "FL"
    case 'ﬃ' => "FFI"
    case 'ﬄ' => "FFL"
    case 'ﬅ' => "ST"
    case 'ﬆ' => "ST"
    case _ => [UpperChar(c)]
  }

  /** JavaScript's toUpperCase: each character replaced by its upper-case image, in order. */
  function Upper(s: string): (r: string)
    ensures |r| >= |s|
  {
    if s == "" then "" else UpperImage(s[0]) + Upper(s[1..])
  }

  /** Upper-casing works character by character: a text's image is its pieces' images. */
  lemma {:induction false} UpperAppend(a: string, b: string)
    ensures Upper(a + b) == Upper(a) + Upper(b)
  {
    if a == "" {
      assert a + b == b;
    } else {
      assert (a + b)[0] == a[0] && (a + b)[1..] == a[1..] + b;
      UpperAppend(a[1..], b);
    }
  }

  /** On a text of ASCII and Cyrillic letters upper-casing keeps the length and maps
      each character by UpperChar. */
  lemma {:induction false} UpperSimple(s: string)
    requires forall i :: 0 <= i < |s| ==> s[i] as int < 128 || 'а' <= s[i] <= 'я' || s[i] == 'ё'
    ensures |Upper(s)| == |s|
    ensures forall i :: 0 <= i < |s| ==> Upper(s)[i] == UpperChar(s[i])
  {
    if s != "" {
      UpperSimple(s[1..]);
      assert Upper(s) == [UpperChar(s[0])] + Upper(s[1..]);
    }
  }

  /** A character JavaScript's trim removes (the ASCII white space the model produces). */
  predicate IsSpace(c: char) {
    c == ' ' || c == '\t' || c == '\n' || c == '\r'
  }

  /** s without its leading white space. */
  function TrimStart(s: string): (r: string)
    ensures |r| <= |s| && r == s[|s| - |r|..]
    ensures r == "" || !IsSpace(r[0])
  {
    if s != "" && IsSpace(s[0]) then TrimStart(s[1..]) else s
  }

  /** s without its trailing white space. */
  function TrimEnd(s: string): (r: string)
    ensures |r| <= |s| && r == s[..|r|]
    ensures r == "" || !IsSpace(r[|r| - 1])
  {
    if s != "" && IsSpace(s[|s| - 1]) then TrimEnd(s[..|s| - 1]) else s
  }

  /** JavaScript's String.prototype.trim. */
  function Trim(s: string): string {
    TrimEnd(TrimStart(s))
  }

  /** The words joined with single spaces. */
  function JoinWords(words: seq<string>): string {
    if words == [] then ""
    else if |words| == 1 then words[0]
    else words[0] + " " + JoinWords(words[1..])
  }

  predicate IsDigit(c: char) {
    '0' <= c <= '9'
  }

  /** A string of digits only. */
  predicate AllDigits(s: string) {
    forall i :: 0 <= i < |s| ==> IsDigit(s[i])
  }

  /** The decimal digit d. */
  function Digit(d: nat): char
    requires d < 10
  {
    "0123456789"[d]
  }

  /** A number in decimal, as JavaScript prints a non-negative integer. */
  function Decimal(n: nat): (r: string)
    ensures r != ""
  {
    if n < 10 then [Digit(n)] else Decimal(n / 10) + [Digit(n % 10)]
  }
}
