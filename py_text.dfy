/**
 * The few Python `str` operations the detection server's parsing relies on:
 * `isspace`, `strip`, `split(sep)`, `split(maxsplit=1)` and `int(str)`.
 */
module PyText {
  import opened Wrappers

  /** `str.isspace` for one character: the Unicode whitespace Python recognises. */
  predicate IsSpace(c: char) {
    var u := c as int;
    || (0x09 <= u <= 0x0D) || (0x1C <= u <= 0x20)
    || u == 0x85 || u == 0xA0 || u == 0x1680
    || (0x2000 <= u <= 0x200A)
    || u == 0x2028 || u == 0x2029 || u == 0x202F || u == 0x205F || u == 0x3000
  }

  /**
   * Which whitespace a strip removes: `str.isspace` for `str.strip()`, or
   * what `int()` skips around its argument.  `int()` turns whitespace
   * outside ASCII into spaces and then skips only the ASCII whitespace of
   * C's `isspace`, so U+001C to U+001F, which `str.isspace` counts, stay and
   * make the argument invalid.
   */
  datatype Blanks = StrBlanks | IntBlanks

  predicate IsBlank(blanks: Blanks, c: char) {
    IsSpace(c) && (blanks == IntBlanks ==> !(0x1C <= c as int <= 0x1F))
  }

  predicate IsDigit(c: char) { '0' <= c <= '9' }

  // ---------------------------------------------------------------------------
  // strip()
  // ---------------------------------------------------------------------------

  /** The first index at or after `i` that holds no whitespace, or `|s|`. */
  function SkipSpaces(s: string, i: nat, blanks: Blanks := StrBlanks): (j: nat)
    requires i <= |s|
    ensures i <= j <= |s|
    ensures forall k | i <= k < j :: IsBlank(blanks, s[k])
    ensures j < |s| ==> !IsBlank(blanks, s[j])
    decreases |s| - i
  {
    if i == |s| || !IsBlank(blanks, s[i]) then i else SkipSpaces(s, i + 1, blanks)
  }

  /** The first index at or after `i` that holds whitespace, or `|s|`. */
  function SkipWord(s: string, i: nat): (j: nat)
    requires i <= |s|
    ensures i <= j <= |s|
    ensures forall k | i <= k < j :: !IsSpace(s[k])
    ensures j < |s| ==> IsSpace(s[j])
    decreases |s| - i
  {
    if i == |s| || IsSpace(s[i]) then i else SkipWord(s, i + 1)
  }

  /** The index just past the last character before `j` that is not whitespace, or 0. */
  function TextEnd(s: string, j: nat, blanks: Blanks := StrBlanks): (e: nat)
    requires j <= |s|
    ensures e <= j
    ensures forall k | e <= k < j :: IsBlank(blanks, s[k])
    ensures e > 0 ==> !IsBlank(blanks, s[e - 1])
  {
    if j == 0 || !IsBlank(blanks, s[j - 1]) then j else TextEnd(s, j - 1, blanks)
  }

  /** Only one index can end a run of whitespace that starts at `i`. */
  lemma SkipSpacesUnique(s: string, i: nat, j: nat, blanks: Blanks := StrBlanks)
    requires i <= j <= |s|
    requires forall k | i <= k < j :: IsBlank(blanks, s[k])
    requires j < |s| ==> !IsBlank(blanks, s[j])
    ensures SkipSpaces(s, i, blanks) == j
  {
  }

  lemma TextEndUnique(s: string, e: nat, j: nat, blanks: Blanks := StrBlanks)
    requires e <= j <= |s|
    requires forall k | e <= k < j :: IsBlank(blanks, s[k])
    requires e > 0 ==> !IsBlank(blanks, s[e - 1])
    ensures TextEnd(s, j, blanks) == e
  {
  }

  /**
   * `strip()`: the part of `s` between its leading and its trailing
   * whitespace; it neither starts nor ends with whitespace, and it is empty
   * only for a blank string.
   */
  function Strip(s: string, blanks: Blanks := StrBlanks): (r: string)
    ensures r == [] <==> forall k | 0 <= k < |s| :: IsBlank(blanks, s[k])
    ensures r != [] ==> !IsBlank(blanks, r[0]) && !IsBlank(blanks, r[|r| - 1])
  {
    var i := SkipSpaces(s, 0, blanks);
    if i == |s| then []
    else
      var e := TextEnd(s, |s|, blanks);
      assert i < e;
      s[i..e]
  }

  /**
   * What `strip()` removes: whitespace in front of and behind a text that
   * neither starts nor ends with whitespace leaves exactly that text.
   */
  lemma StripOfPadded(before: string, text: string, after: string, blanks: Blanks := StrBlanks)
    requires forall k | 0 <= k < |before| :: IsBlank(blanks, before[k])
    requires forall k | 0 <= k < |after| :: IsBlank(blanks, after[k])
    requires text == [] || (!IsBlank(blanks, text[0]) && !IsBlank(blanks, text[|text| - 1]))
    ensures Strip(before + text + after, blanks) == text
  {
    if text == [] {
      StripOfBlank(before, after, blanks);
    } else {
      StripOfPaddedText(before, text, after, blanks);
    }
  }

  lemma StripOfBlank(before: string, after: string, blanks: Blanks)
    requires forall k | 0 <= k < |before| :: IsBlank(blanks, before[k])
    requires forall k | 0 <= k < |after| :: IsBlank(blanks, after[k])
    ensures Strip(before + [] + after, blanks) == []
  {
    var s := before + [] + after;
    forall k | 0 <= k < |s| ensures IsBlank(blanks, s[k]) {
      if k < |before| { assert s[k] == before[k]; } else { assert s[k] == after[k - |before|]; }
    }
  }

  lemma StripOfPaddedText(before: string, text: string, after: string, blanks: Blanks)
    requires forall k | 0 <= k < |before| :: IsBlank(blanks, before[k])
    requires forall k | 0 <= k < |after| :: IsBlank(blanks, after[k])
    requires text != [] && !IsBlank(blanks, text[0]) && !IsBlank(blanks, text[|text| - 1])
    ensures Strip(before + text + after, blanks) == text
  {
    var s := before + text + after;
    var i, e := |before|, |before| + |text|;
    assert s[i] == text[0] && s[e - 1] == text[|text| - 1];
    forall k | 0 <= k < i ensures IsBlank(blanks, s[k]) { assert s[k] == before[k]; }
    forall k | e <= k < |s| ensures IsBlank(blanks, s[k]) { assert s[k] == after[k - e]; }
    SkipSpacesUnique(s, 0, i, blanks);
    TextEndUnique(s, e, |s|, blanks);
    assert s[i..e] == text;
  }

  /** A string without leading or trailing whitespace is its own `strip()`. */
  lemma StripOfStripped(s: string, blanks: Blanks := StrBlanks)
    requires s == [] || (!IsBlank(blanks, s[0]) && !IsBlank(blanks, s[|s| - 1]))
    ensures Strip(s, blanks) == s
  {
    StripOfPadded([], s, [], blanks);
    assert [] + s + [] == s;
  }

  /** `strip()` is idempotent. */
  lemma StripIdempotent(s: string, blanks: Blanks := StrBlanks)
    ensures Strip(Strip(s, blanks), blanks) == Strip(s, blanks)
  {
    StripOfStripped(Strip(s, blanks), blanks);
  }

  // ---------------------------------------------------------------------------
  // split(sep)
  // ---------------------------------------------------------------------------

  /** `sep.join(parts)`. */
  function Join(parts: seq<string>, sep: char): string {
    if parts == [] then ""
    else if |parts| == 1 then parts[0]
    else parts[0] + [sep] + Join(parts[1..], sep)
  }

  /**
   * `s.split(sep)` for a one-character separator: the pieces between the
   * separators, at least one and none containing it.
   */
  function Split(s: string, sep: char): (parts: seq<string>)
    ensures |parts| >= 1
    ensures forall i | 0 <= i < |parts| :: sep !in parts[i]
  {
    if s == [] then [""]
    else
      var rest := Split(s[1..], sep);
      if s[0] == sep then [""] + rest
      else [[s[0]] + rest[0]] + rest[1..]
  }

  /** Joining the pieces with the separator gives back the string. */
  lemma {:induction false} JoinSplit(s: string, sep: char)
    ensures Join(Split(s, sep), sep) == s
  {
    if s != [] {
      var rest := Split(s[1..], sep);
      JoinSplit(s[1..], sep);
      if s[0] == sep {
        assert Split(s, sep)[1..] == rest;
      } else if |rest| == 1 {
        assert [s[0]] + s[1..] == s;
      } else {
        var parts := Split(s, sep);
        assert parts[1..] == rest[1..];
        assert Join(rest, sep) == rest[0] + [sep] + Join(rest[1..], sep);
        assert [s[0]] + s[1..] == s;
      }
    }
  }

  lemma {:induction false} SplitPrepend(c: char, s: string, sep: char)
    requires c != sep
    ensures Split([c] + s, sep) == [[c] + Split(s, sep)[0]] + Split(s, sep)[1..]
  {
    assert ([c] + s)[1..] == s;
  }

  lemma {:induction false} SplitOfPiece(p: string, rest: string, sep: char)
    requires sep !in p
    ensures Split(p + rest, sep) == [p + Split(rest, sep)[0]] + Split(rest, sep)[1..]
  {
    var tail := Split(rest, sep);
    if p == [] {
      assert p + rest == rest;
      assert tail == [tail[0]] + tail[1..];
    } else {
      SplitOfPiece(p[1..], rest, sep);
      assert p + rest == [p[0]] + (p[1..] + rest);
      SplitPrepend(p[0], p[1..] + rest, sep);
      assert Split(p[1..] + rest, sep) == [p[1..] + tail[0]] + tail[1..];
      assert [p[0]] + (p[1..] + tail[0]) == p + tail[0];
    }
    assert p == [] ==> p + tail[0] == tail[0];
  }

  /** Splitting pieces joined by a separator none of them contains gives back the pieces. */
  lemma {:induction false} SplitJoin(parts: seq<string>, sep: char)
    requires |parts| >= 1 && forall i | 0 <= i < |parts| :: sep !in parts[i]
    ensures Split(Join(parts, sep), sep) == parts
  {
    if |parts| == 1 {
      SplitOfPiece(parts[0], [], sep);
      assert parts[0] + [] == parts[0];
    } else {
      var tail := Join(parts[1..], sep);
      SplitJoin(parts[1..], sep);
      assert ([sep] + tail)[1..] == tail;
      assert Split([sep] + tail, sep) == [""] + parts[1..];
      assert Join(parts, sep) == parts[0] + ([sep] + tail);
      SplitOfPiece(parts[0], [sep] + tail, sep);
      assert ([""] + parts[1..])[0] == "" && ([""] + parts[1..])[1..] == parts[1..];
      assert parts[0] + "" == parts[0];
      assert [parts[0]] + parts[1..] == parts;
    }
  }

  // ---------------------------------------------------------------------------
  // split(maxsplit=1)
  // ---------------------------------------------------------------------------

  /**
   * `s.split(maxsplit=1)`: no piece for a blank string; otherwise the first
   * whitespace-free word and, when anything but whitespace follows it, the
   * rest after the whitespace that ends the word.
   */
  function SplitOnce(s: string): (parts: seq<string>)
    ensures parts == [] <==> forall k | 0 <= k < |s| :: IsSpace(s[k])
    ensures |parts| <= 2 && forall n | 0 <= n < |parts| :: parts[n] != []
    ensures |parts| >= 1 ==> forall k | 0 <= k < |parts[0]| :: !IsSpace(parts[0][k])
    ensures |parts| == 2 ==> !IsSpace(parts[1][0])
  {
    var i := SkipSpaces(s, 0);
    if i == |s| then []
    else
      var w := SkipWord(s, i);
      var r := SkipSpaces(s, w);
      if r == |s| then [s[i..w]] else [s[i..w], s[r..]]
  }

  /**
   * Leading whitespace, a word, a non-empty run of whitespace and a remainder
   * that starts with no whitespace split into the word and the remainder.
   */
  lemma SplitOnceOfPair(lead: string, word: string, sep: string, rest: string)
    requires forall k | 0 <= k < |lead| :: IsSpace(lead[k])
    requires word != [] && forall k | 0 <= k < |word| :: !IsSpace(word[k])
    requires sep != [] && forall k | 0 <= k < |sep| :: IsSpace(sep[k])
    requires rest != [] && !IsSpace(rest[0])
    ensures SplitOnce(lead + word + sep + rest) == [word, rest]
  {
    var s := lead + word + sep + rest;
    var a := |lead|;
    var w := a + |word|;
    var r := w + |sep|;
    assert forall k | 0 <= k < a :: IsSpace(s[k]) by {
      forall k | 0 <= k < a ensures IsSpace(s[k]) { assert s[k] == lead[k]; }
    }
    assert s[a] == word[0];
    SkipSpacesUnique(s, 0, a);
    assert forall k | a <= k < w :: !IsSpace(s[k]) by {
      forall k | a <= k < w ensures !IsSpace(s[k]) { assert s[k] == word[k - a]; }
    }
    assert s[w] == sep[0];
    SkipWordUnique(s, a, w);
    assert forall k | w <= k < r :: IsSpace(s[k]) by {
      forall k | w <= k < r ensures IsSpace(s[k]) { assert s[k] == sep[k - w]; }
    }
    assert s[r] == rest[0];
    SkipSpacesUnique(s, w, r);
    assert s[a..w] == word;
    assert s[r..] == rest;
  }

  /** A single word with whitespace around it splits into that word alone. */
  lemma SplitOnceOfWord(lead: string, word: string, trail: string)
    requires forall k | 0 <= k < |lead| :: IsSpace(lead[k])
    requires word != [] && forall k | 0 <= k < |word| :: !IsSpace(word[k])
    requires forall k | 0 <= k < |trail| :: IsSpace(trail[k])
    ensures SplitOnce(lead + word + trail) == [word]
  {
    var s := lead + word + trail;
    var a := |lead|;
    var w := a + |word|;
    assert forall k | 0 <= k < a :: IsSpace(s[k]) by {
      forall k | 0 <= k < a ensures IsSpace(s[k]) { assert s[k] == lead[k]; }
    }
    assert s[a] == word[0];
    SkipSpacesUnique(s, 0, a);
    assert forall k | a <= k < w :: !IsSpace(s[k]) by {
      forall k | a <= k < w ensures !IsSpace(s[k]) { assert s[k] == word[k - a]; }
    }
    assert w < |s| ==> s[w] == trail[0];
    SkipWordUnique(s, a, w);
    assert forall k | w <= k < |s| :: IsSpace(s[k]) by {
      forall k | w <= k < |s| ensures IsSpace(s[k]) { assert s[k] == trail[k - w]; }
    }
    SkipSpacesUnique(s, w, |s|);
    assert s[a..w] == word;
  }

  lemma SkipWordUnique(s: string, i: nat, j: nat)
    requires i <= j <= |s|
    requires forall k | i <= k < j :: !IsSpace(s[k])
    requires j < |s| ==> IsSpace(s[j])
    ensures SkipWord(s, i) == j
  {
  }

  // ---------------------------------------------------------------------------
  // int(str)
  // ---------------------------------------------------------------------------

  /** The value of a string of ASCII digits. */
  function DigitsValue(d: string): nat
    requires forall i | 0 <= i < |d| :: IsDigit(d[i])
  {
    if d == [] then 0
    else
      var last := d[|d| - 1];
      assert IsDigit(last);
      DigitsValue(d[..|d| - 1]) * 10 + (last as int - '0' as int)
  }

  /** Digits with single underscores between them, as `int()` accepts. */
  predicate IsDigitGroup(b: string) {
    && b != [] && IsDigit(b[0]) && IsDigit(b[|b| - 1])
    && (forall i | 0 <= i < |b| :: IsDigit(b[i]) || b[i] == '_')
    && NoDoubleUnderscore(b)
  }

  /** No two underscores in a row. */
  predicate NoDoubleUnderscore(b: string) {
    |b| < 2 || (!(b[0] == '_' && b[1] == '_') && NoDoubleUnderscore(b[1..]))
  }

  function RemoveUnderscores(b: string): (d: string)
    ensures (forall i | 0 <= i < |b| :: IsDigit(b[i]) || b[i] == '_') ==> forall i | 0 <= i < |d| :: IsDigit(d[i])
  {
    if b == [] then [] else (if b[0] == '_' then [] else [b[0]]) + RemoveUnderscores(b[1..])
  }

  /** The digit group after an optional sign. */
  function Unsigned(t: string): string {
    if t != [] && (t[0] == '-' || t[0] == '+') then t[1..] else t
  }

  /** A stripped `int()` argument: an optional sign and a digit group. */
  function ParseIntLiteral(t: string): (r: Option<int>)
    ensures r.Some? <==> IsDigitGroup(Unsigned(t))
    ensures r.Some? && t[0] != '-' ==> r.value >= 0
  {
    var body := Unsigned(t);
    if !IsDigitGroup(body) then None
    else
      var value: int := DigitsValue(RemoveUnderscores(body));
      Some(if t[0] == '-' then -value else value)
  }

  /**
   * `int(s)` in base 10: surrounding whitespace (other than U+001C to
   * U+001F) is ignored, then an optional sign and a digit group; anything
   * else raises ValueError (`None`).
   */
  function PyInt(s: string): (r: Option<int>)
    ensures r.Some? <==> IsDigitGroup(Unsigned(Strip(s, IntBlanks)))
    ensures r.Some? && Strip(s, IntBlanks)[0] != '-' ==> r.value >= 0
  {
    ParseIntLiteral(Strip(s, IntBlanks))
  }

  /** A file separator in front of the digits is whitespace to `strip()` but not to `int()`. */
  lemma IntKeepsFileSeparator()
    ensures Strip([0x1C as char, '1']) == "1"
    ensures PyInt([0x1C as char, '1']) == None
  {
    var s := [0x1C as char, '1'];
    StripOfPadded([0x1C as char], "1", []);
    assert [0x1C as char] + "1" + [] == s;
    StripOfStripped(s, IntBlanks);
    assert !IsDigit(Unsigned(s)[0]);
  }

  // ---------------------------------------------------------------------------
  // str(int)
  // ---------------------------------------------------------------------------

  function DigitChar(d: nat): char
    requires d < 10
  {
    ('0' as int + d) as char
  }

  /** The decimal digits of `n`, without leading zeros. */
  function NatString(n: nat): (d: string)
    ensures d != [] && forall i | 0 <= i < |d| :: IsDigit(d[i])
    ensures DigitsValue(d) == n
  {
    if n < 10 then [DigitChar(n)]
    else
      var d := NatString(n / 10) + [DigitChar(n % 10)];
      assert d[..|d| - 1] == NatString(n / 10);
      d
  }

  /** `str(n)`: a minus sign for negatives, then the digits. */
  function DecimalString(n: int): string {
    if n < 0 then "-" + NatString(-n) else NatString(n)
  }

  lemma {:induction false} RemoveUnderscoresOfDigits(d: string)
    requires forall i | 0 <= i < |d| :: IsDigit(d[i])
    ensures RemoveUnderscores(d) == d
  {
    if d != [] {
      RemoveUnderscoresOfDigits(d[1..]);
      assert [d[0]] + d[1..] == d;
    }
  }

  lemma {:induction false} DigitsAreGroup(d: string)
    requires d != [] && forall i | 0 <= i < |d| :: IsDigit(d[i])
    ensures IsDigitGroup(d)
  {
    if |d| >= 2 {
      DigitsAreGroup(d[1..]);
    }
  }

  lemma DecimalStringIsStripped(n: int)
    ensures var s := DecimalString(n); s != [] && !IsSpace(s[0]) && !IsSpace(s[|s| - 1])
  {
  }

  lemma ParseDecimalString(n: int)
    ensures ParseIntLiteral(DecimalString(n)) == Some(n)
  {
    var digits := NatString(if n < 0 then -n else n);
    var s := DecimalString(n);
    assert Unsigned(s) == digits by {
      if n < 0 {
        assert s[1..] == digits;
      }
    }
    DigitsAreGroup(digits);
    RemoveUnderscoresOfDigits(digits);
  }

  lemma ParseDigits(d: string)
    requires d != [] && forall k | 0 <= k < |d| :: IsDigit(d[k])
    ensures ParseIntLiteral(d) == Some(DigitsValue(d))
  {
    assert Unsigned(d) == d;
    DigitsAreGroup(d);
    RemoveUnderscoresOfDigits(d);
  }

  /** `int()` of ASCII digits, leading zeros included, is their decimal value. */
  lemma PyIntOfDigits(d: string)
    requires d != [] && forall k | 0 <= k < |d| :: IsDigit(d[k])
    ensures PyInt(d) == Some(DigitsValue(d))
  {
    assert !IsBlank(IntBlanks, d[0]) && !IsBlank(IntBlanks, d[|d| - 1]);
    StripOfStripped(d, IntBlanks);
    ParseDigits(d);
  }

  /** `int(str(n)) == n`. */
  lemma PyIntOfDecimalString(n: int)
    ensures PyInt(DecimalString(n)) == Some(n)
  {
    DecimalStringIsStripped(n);
    StripOfStripped(DecimalString(n), IntBlanks);
    ParseDecimalString(n);
  }
}
