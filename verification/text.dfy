/**
 * The string primitives the source uses: `String.prototype.trim`,
 * `startsWith`, `Array.prototype.join`, `split` on one character, and the
 * decimal rendering of a non-negative integer in a template literal.
 */
module Text {

  /**
   * The characters `trim()` removes: ECMAScript WhiteSpace (tab, vertical
   * tab, form feed, space, no-break space, the byte order mark and the
   * Unicode space separators) and LineTerminator (LF, CR, U+2028, U+2029).
   */
  predicate IsSpace(c: char) {
    c == ' ' || c == '\t' || c == '\n' || c == '\r' || c == '\U{0B}' || c == '\U{0C}'
    || c == '\U{A0}' || c == '\U{1680}' || ('\U{2000}' <= c <= '\U{200A}')
    || c == '\U{2028}' || c == '\U{2029}' || c == '\U{202F}' || c == '\U{205F}'
    || c == '\U{3000}' || c == '\U{FEFF}'
  }

  /** Every character of `s` is white space (this includes the empty string). */
  predicate IsBlank(s: string) {
    forall i :: 0 <= i < |s| ==> IsSpace(s[i])
  }

  /** A character outside the Basic Multilingual Plane, which JavaScript stores as a surrogate pair. */
  predicate IsAstral(c: char) {
    c as int >= 0x1_0000
  }

  /** The UTF-16 code units a character occupies. */
  function Units(c: char): nat {
    if IsAstral(c) then 2 else 1
  }

  /** No character of `s` needs a surrogate pair. */
  predicate IsBmp(s: string) {
    forall i :: 0 <= i < |s| ==> !IsAstral(s[i])
  }

  /** JavaScript's `s.length`: the number of UTF-16 code units. */
  function Utf16Length(s: string): (n: nat)
    ensures |s| <= n <= 2 * |s|
    decreases |s|
  {
    if |s| == 0 then 0 else Units(s[0]) + Utf16Length(s[1..])
  }

  /** Code units add up over concatenation. */
  lemma {:induction false} Utf16LengthConcat(a: string, b: string)
    ensures Utf16Length(a + b) == Utf16Length(a) + Utf16Length(b)
    decreases |a|
  {
    if |a| == 0 {
      assert a + b == b;
    } else {
      assert (a + b)[0] == a[0];
      assert (a + b)[1..] == a[1..] + b;
      Utf16LengthConcat(a[1..], b);
    }
  }

  /** A slice occupies no more code units than the whole string. */
  lemma Utf16LengthOfSlice(s: string, i: nat, j: nat)
    requires i <= j <= |s|
    ensures Utf16Length(s[i..j]) <= Utf16Length(s)
  {
    var head := s[..j];
    assert s == head + s[j..];
    Utf16LengthConcat(head, s[j..]);
    assert head == head[..i] + s[i..j];
    Utf16LengthConcat(head[..i], s[i..j]);
  }

  /**
   * The whole characters of `s.slice(0, n)`: the longest prefix of `s` that
   * fits in `n` code units. When `n` falls between the two halves of a
   * surrogate pair, JavaScript keeps the lone high half; that half is not a
   * character and is not part of this prefix.
   */
  function Utf16Prefix(s: string, n: nat): (p: string)
    ensures |p| <= |s| && p == s[..|p|]
    ensures Utf16Length(p) <= n
    ensures |p| < |s| ==> Utf16Length(p) + Units(s[|p|]) > n
    ensures Utf16Length(s) <= n ==> p == s
    decreases |s|
  {
    if |s| == 0 || Units(s[0]) > n then ""
    else [s[0]] + Utf16Prefix(s[1..], n - Units(s[0]))
  }

  /** A leading character that fits is kept, and the cut goes on in the rest. */
  lemma Utf16PrefixCons(c: char, s: string, n: nat)
    requires Units(c) <= n
    ensures Utf16Prefix([c] + s, n) == [c] + Utf16Prefix(s, n - Units(c))
  {
    assert ([c] + s)[0] == c && ([c] + s)[1..] == s;
  }

  /** A leading character that does not fit ends the cut. */
  lemma Utf16PrefixStops(c: char, s: string, n: nat)
    requires Units(c) > n
    ensures Utf16Prefix([c] + s, n) == ""
  {
    assert ([c] + s)[0] == c;
  }

  /** On text without surrogate pairs the cut is exactly `n` characters. */
  lemma {:induction false} Utf16PrefixOfBmp(s: string, n: nat)
    requires IsBmp(s) && n <= |s|
    ensures Utf16Prefix(s, n) == s[..n]
    decreases |s|
  {
    if |s| > 0 && n > 0 {
      BmpTail(s);
      Utf16PrefixOfBmp(s[1..], n - 1);
      Utf16PrefixStep(s, n);
      PrefixCons(s, n);
    }
  }

  /** A non-empty prefix is the head followed by a prefix of the tail. */
  lemma PrefixCons(s: string, n: nat)
    requires 0 < n <= |s|
    ensures s[..n] == [s[0]] + s[1..][..n - 1]
  {
  }

  /** The head of a string without surrogate pairs is one unit, and its tail has none either. */
  lemma BmpTail(s: string)
    requires IsBmp(s) && |s| > 0
    ensures Units(s[0]) == 1 && IsBmp(s[1..])
  {
    assert !IsAstral(s[0]);
    forall i | 0 <= i < |s[1..]| ensures !IsAstral(s[1..][i]) {
      assert s[1..][i] == s[i + 1];
    }
  }

  /** One step of the cut: a first character that fits is kept. */
  lemma Utf16PrefixStep(s: string, n: nat)
    requires |s| > 0 && Units(s[0]) <= n
    ensures Utf16Prefix(s, n) == [s[0]] + Utf16Prefix(s[1..], n - Units(s[0]))
  {
  }

  /** `s.startsWith(p)`. */
  predicate StartsWith(s: string, p: string) {
    p <= s
  }

  /** Leading white space removed: a suffix of `s` after a blank prefix. */
  function TrimStart(s: string): (r: string)
    ensures |r| <= |s| && r == s[|s| - |r|..]
    ensures IsBlank(s[..|s| - |r|])
    ensures |r| > 0 ==> !IsSpace(r[0])
    decreases |s|
  {
    if |s| > 0 && IsSpace(s[0]) then TrimStart(s[1..]) else s
  }

  /** Trailing white space removed: a prefix of `s` before a blank suffix. */
  function TrimEnd(s: string): (r: string)
    ensures |r| <= |s| && r == s[..|r|]
    ensures IsBlank(s[|r|..])
    ensures |r| > 0 ==> !IsSpace(r[|r| - 1])
    decreases |s|
  {
    if |s| > 0 && IsSpace(s[|s| - 1]) then TrimEnd(s[..|s| - 1]) else s
  }

  /**
   * `s.trim()`: a contiguous slice of `s` with only white space before and
   * after it, and neither starting nor ending with white space.
   */
  function Trim(s: string): (r: string)
    ensures |r| <= |s|
    ensures BetweenBlanks(s, |s| - |TrimStart(s)|, r)
    ensures |r| > 0 ==> !IsSpace(r[0]) && !IsSpace(r[|r| - 1])
  {
    TrimBetweenBlanks(s);
    TrimEnds(s);
    TrimEnd(TrimStart(s))
  }

  /** Trimming never adds code units. */
  lemma Utf16LengthOfTrim(s: string)
    ensures Utf16Length(Trim(s)) <= Utf16Length(s)
  {
    BlanksFrameSlice(s, |s| - |TrimStart(s)|, Trim(s));
  }

  /** A string found inside `s` occupies no more code units than `s`. */
  lemma BlanksFrameSlice(s: string, i: int, r: string)
    requires BetweenBlanks(s, i, r)
    ensures Utf16Length(r) <= Utf16Length(s)
  {
    Utf16LengthOfSlice(s, i, i + |r|);
  }

  /** `r` occurs in `s` at offset `i`, with only white space before and after it. */
  predicate BetweenBlanks(s: string, i: int, r: string) {
    0 <= i <= i + |r| <= |s| && r == s[i..i + |r|] && IsBlank(s[..i]) && IsBlank(s[i + |r|..])
  }

  /** The trimmed string sits between the two blank runs the trims remove. */
  lemma TrimBetweenBlanks(s: string)
    ensures BetweenBlanks(s, |s| - |TrimStart(s)|, TrimEnd(TrimStart(s)))
  {
    var t := TrimStart(s);
    var r := TrimEnd(t);
    BlankFramed(s, t, r);
  }

  /** A blank-free cut of a suffix sits between the blank prefix and the blank rest. */
  lemma BlankFramed(s: string, t: string, r: string)
    requires |t| <= |s| && t == s[|s| - |t|..] && IsBlank(s[..|s| - |t|])
    requires |r| <= |t| && r == t[..|r|] && IsBlank(t[|r|..])
    ensures BetweenBlanks(s, |s| - |t|, r)
  {
    var i := |s| - |t|;
    assert s[i + |r|..] == t[|r|..];
  }

  /** The two trims leave a string that neither starts nor ends with white space. */
  lemma TrimEnds(s: string)
    ensures var r := TrimEnd(TrimStart(s)); |r| > 0 ==> !IsSpace(r[0]) && !IsSpace(r[|r| - 1])
  {
    var t := TrimStart(s);
    var r := TrimEnd(t);
    if |r| > 0 {
      assert r[0] == t[0];
    }
  }

  /** A string that neither starts nor ends with white space is its own trim. */
  lemma TrimOfTrimmed(s: string)
    requires |s| > 0 ==> !IsSpace(s[0]) && !IsSpace(s[|s| - 1])
    ensures Trim(s) == s
  {
  }

  /** Trimming twice is trimming once. */
  lemma TrimIdempotent(s: string)
    ensures Trim(Trim(s)) == Trim(s)
  {
    TrimOfTrimmed(Trim(s));
  }

  /** A blank string trims to nothing from the left. */
  lemma {:induction false} TrimStartOfBlank(s: string)
    requires IsBlank(s)
    ensures TrimStart(s) == ""
    decreases |s|
  {
    if |s| > 0 {
      TrimStartOfBlank(s[1..]);
    }
  }

  /** Trailing trimming stops at a leading non-space character. */
  lemma {:induction false} TrimEndKeepsHead(s: string)
    requires |s| > 0 && !IsSpace(s[0])
    ensures |TrimEnd(s)| > 0
    decreases |s|
  {
    if IsSpace(s[|s| - 1]) {
      TrimEndKeepsHead(s[..|s| - 1]);
    }
  }

  /** `!s.trim()` holds exactly for blank strings. */
  lemma TrimEmptyIffBlank(s: string)
    ensures Trim(s) == "" <==> IsBlank(s)
  {
    if IsBlank(s) {
      TrimStartOfBlank(s);
    } else {
      var t := TrimStart(s);
      assert s[..|s|] == s;
      assert |t| > 0;
      TrimEndKeepsHead(t);
    }
  }

  /** `parts.join(sep)`. */
  function Join(parts: seq<string>, sep: string): (r: string)
    ensures |parts| == 1 ==> r == parts[0]
    decreases |parts|
  {
    if |parts| == 0 then ""
    else if |parts| == 1 then parts[0]
    else parts[0] + sep + Join(parts[1..], sep)
  }

  /** Each of three concatenated strings can be cut back out by position. */
  lemma Pieces(a: string, b: string, c: string)
    ensures (a + b + c)[..|a|] == a
    ensures (a + b + c)[|a|..|a| + |b|] == b
    ensures (a + b + c)[|a| + |b|..] == c
  {
  }

  /** `s.split(c)` for a one-character separator: never empty. */
  function Split(s: string, c: char): (r: seq<string>)
    ensures |r| >= 1
    decreases |s|
  {
    if |s| == 0 then [""]
    else
      var rest := Split(s[1..], c);
      if s[0] == c then [""] + rest else [[s[0]] + rest[0]] + rest[1..]
  }

  /** A string without the separator splits into itself. */
  lemma {:induction false} SplitNoSeparator(s: string, c: char)
    requires c !in s
    ensures Split(s, c) == [s]
    decreases |s|
  {
    if |s| > 0 {
      assert c !in s[1..];
      SplitNoSeparator(s[1..], c);
      assert [s[0]] + s[1..] == s;
    }
  }

  /** Splitting at the first separator peels off the text before it. */
  lemma {:induction false} SplitAtFirst(p: string, c: char, t: string)
    requires c !in p
    ensures Split(p + [c] + t, c) == [p] + Split(t, c)
    decreases |p|
  {
    var s := p + [c] + t;
    if |p| == 0 {
      assert s == [c] + t;
      assert s[1..] == t;
    } else {
      assert s[0] == p[0];
      assert s[1..] == p[1..] + [c] + t;
      assert c !in p[1..];
      SplitAtFirst(p[1..], c, t);
      assert [p[0]] + p[1..] == p;
    }
  }

  /** Splitting at a separator between two strings splits each of them on its own. */
  lemma {:induction false} SplitAtSeparator(a: string, c: char, t: string)
    ensures Split(a + [c] + t, c) == Split(a, c) + Split(t, c)
    decreases |a|
  {
    var s := a + [c] + t;
    if |a| == 0 {
      assert s == [c] + t;
      assert s[1..] == t;
    } else {
      assert s[0] == a[0];
      assert s[1..] == a[1..] + [c] + t;
      SplitAtSeparator(a[1..], c, t);
    }
  }

  /** Joining lines with a character none of them contains, then splitting at it, gives the lines back. */
  lemma {:induction false} SplitJoin(parts: seq<string>, c: char)
    requires |parts| >= 1
    requires forall i :: 0 <= i < |parts| ==> c !in parts[i]
    ensures Split(Join(parts, [c]), c) == parts
    decreases |parts|
  {
    if |parts| == 1 {
      SplitNoSeparator(parts[0], c);
    } else {
      SplitJoin(parts[1..], c);
      SplitAtFirst(parts[0], c, Join(parts[1..], [c]));
      assert [parts[0]] + parts[1..] == parts;
    }
  }

  predicate IsDigit(c: char) {
    '0' as int <= c as int <= '9' as int
  }

  /** The decimal digit for `d`. */
  function DigitChar(d: nat): (c: char)
    requires d < 10
    ensures IsDigit(c) && c as int - '0' as int == d
  {
    ['0', '1', '2', '3', '4', '5', '6', '7', '8', '9'][d]
  }

  /** `${n}` for a non-negative integer: its decimal digits, no leading zero. */
  function NatToString(n: nat): (r: string)
    ensures |r| >= 1
    ensures forall i :: 0 <= i < |r| ==> IsDigit(r[i])
    ensures |r| > 1 ==> r[0] != '0'
    decreases n
  {
    if n < 10 then [DigitChar(n)] else NatToString(n / 10) + [DigitChar(n % 10)]
  }

  /** The value of a string of decimal digits. */
  function ParseNat(s: string): nat
    requires forall i :: 0 <= i < |s| ==> IsDigit(s[i])
    decreases |s|
  {
    if |s| == 0 then 0
    else
      assert IsDigit(s[|s| - 1]);
      ParseNat(s[..|s| - 1]) * 10 + (s[|s| - 1] as int - '0' as int)
  }

  /** Rendering a number and reading it back gives the number. */
  lemma {:induction false} ParseNatToString(n: nat)
    ensures ParseNat(NatToString(n)) == n
    decreases n
  {
    if n >= 10 {
      ParseNatToString(n / 10);
      var r := NatToString(n);
      assert r[..|r| - 1] == NatToString(n / 10);
    }
  }
}
