/**
 * The JavaScript string operations that the front end relies on, over Dafny's
 * `string` (a sequence of Unicode scalar values): `trim`, `split` on one
 * character, `includes`, global `replace` of a fixed pattern, ASCII case
 * mapping, `Number.prototype.toString(radix)` and `padStart`.
 */
module Text {

  /** A code point that `String.prototype.trim` removes: ECMAScript WhiteSpace or LineTerminator. */
  predicate IsJsSpace(c: char) {
    c == '\t' || c == '\n' || c == '\U{000B}' || c == '\U{000C}' || c == '\r' || c == ' ' ||
    c == '\U{00A0}' || c == '\U{1680}' || ('\U{2000}' <= c <= '\U{200A}') ||
    c == '\U{2028}' || c == '\U{2029}' || c == '\U{202F}' || c == '\U{205F}' ||
    c == '\U{3000}' || c == '\U{FEFF}'
  }

  /** Every character of `s` is white space (so `s.trim()` is falsy). */
  predicate Blank(s: string) {
    forall i :: 0 <= i < |s| ==> IsJsSpace(s[i])
  }

  /** `s` neither starts nor ends with white space. */
  predicate Trimmed(s: string) {
    s == [] || (!IsJsSpace(s[0]) && !IsJsSpace(s[|s| - 1]))
  }

  /** White space in front of blank text is blank. */
  lemma BlankCons(c: char, s: string)
    requires IsJsSpace(c) && Blank(s)
    ensures Blank([c] + s)
  {
    assert forall i :: 1 <= i < |[c] + s| ==> ([c] + s)[i] == s[i - 1];
  }

  /** Blank text followed by white space is blank. */
  lemma BlankSnoc(s: string, c: char)
    requires Blank(s) && IsJsSpace(c)
    ensures Blank(s + [c])
  {
    assert forall i :: 0 <= i < |s| ==> (s + [c])[i] == s[i];
  }

  /** Drops the leading white space: what is dropped is blank, what is kept is a suffix. */
  function TrimStart(s: string): (r: string)
    ensures |r| <= |s| && r == s[|s| - |r|..]
    ensures Blank(s[..|s| - |r|])
    ensures r == [] || !IsJsSpace(r[0])
  {
    if s != [] && IsJsSpace(s[0]) then
      var r := TrimStart(s[1..]);
      assert s[..|s| - |r|] == [s[0]] + s[1..][..|s| - 1 - |r|];
      BlankCons(s[0], s[1..][..|s| - 1 - |r|]);
      r
    else
      s
  }

  /** Drops the trailing white space: what is dropped is blank, what is kept is a prefix. */
  function TrimEnd(s: string): (r: string)
    ensures |r| <= |s| && r == s[..|r|]
    ensures Blank(s[|r|..])
    ensures r == [] || !IsJsSpace(r[|r| - 1])
  {
    if s != [] && IsJsSpace(s[|s| - 1]) then
      var r := TrimEnd(s[..|s| - 1]);
      assert s[|r|..] == s[..|s| - 1][|r|..] + [s[|s| - 1]];
      BlankSnoc(s[..|s| - 1][|r|..], s[|s| - 1]);
      r
    else
      s
  }

  /** Trimming the start leaves nothing exactly when the text is blank. */
  lemma TrimStartEmpty(s: string)
    ensures TrimStart(s) == [] <==> Blank(s)
  {
    var t := TrimStart(s);
    if t == [] {
      assert s[..|s| - |t|] == s;
    } else {
      assert t[0] == s[|s| - |t|] && !IsJsSpace(t[0]);
    }
  }

  /** Trimming the end leaves nothing exactly when the text is blank. */
  lemma TrimEndEmpty(s: string)
    ensures TrimEnd(s) == [] <==> Blank(s)
  {
    var t := TrimEnd(s);
    if t == [] {
      assert s[|t|..] == s;
    } else {
      assert t[|t| - 1] == s[|t| - 1] && !IsJsSpace(t[|t| - 1]);
    }
  }

  /** Both trims leave nothing exactly when the text is blank. */
  lemma TrimBlank(s: string)
    ensures TrimEnd(TrimStart(s)) == [] <==> Blank(s)
  {
    var t := TrimStart(s);
    TrimStartEmpty(s);
    TrimEndEmpty(t);
    assert Blank(t) ==> t == [] by {
      if t != [] {
        assert !IsJsSpace(t[0]);
      }
    }
  }

  /** Both trims leave text that neither starts nor ends with white space. */
  lemma TrimTrimmed(s: string)
    ensures Trimmed(TrimEnd(TrimStart(s)))
  {
    var t := TrimStart(s);
    var r := TrimEnd(t);
    if r != [] {
      assert r[0] == t[0];
    }
  }

  /** `String.prototype.trim`. */
  function Trim(s: string): (r: string)
    ensures |r| <= |s|
    ensures r == [] <==> Blank(s)
    ensures Trimmed(r)
    ensures Trimmed(s) ==> r == s
  {
    TrimBlank(s);
    TrimTrimmed(s);
    TrimEnd(TrimStart(s))
  }

  /** Trimming twice is trimming once. */
  lemma TrimIdempotent(s: string)
    ensures Trim(Trim(s)) == Trim(s)
  {
  }

  /** `pat` occurs in `s` starting at index `j`. */
  predicate At(s: string, pat: string, j: nat) {
    j + |pat| <= |s| && s[j..j + |pat|] == pat
  }

  /** `s.includes(sub)`. */
  predicate Contains(s: string, sub: string) {
    exists j :: 0 <= j <= |s| && At(s, sub, j)
  }

  /** Dropping the first character shifts every occurrence one place to the left. */
  lemma AtShift(s: string, pat: string, j: nat)
    requires s != []
    ensures At(s[1..], pat, j) <==> At(s, pat, j + 1)
  {
    if j + 1 + |pat| <= |s| {
      assert s[1..][j..j + |pat|] == s[j + 1..j + 1 + |pat|];
    }
  }

  /** The index of the first `c` in `s`. */
  function IndexOfChar(s: string, c: char): (i: nat)
    requires c in s
    ensures i < |s| && s[i] == c && forall k :: 0 <= k < i ==> s[k] != c
  {
    if s[0] == c then 0 else 1 + IndexOfChar(s[1..], c)
  }

  /** `parts.join(sep)`. */
  function Join(parts: seq<string>, sep: char): string {
    if parts == [] then ""
    else if |parts| == 1 then parts[0]
    else parts[0] + [sep] + Join(parts[1..], sep)
  }

  /** `s.split(sep)` for a one-character separator, scanning from the left. */
  function Split(s: string, sep: char): (parts: seq<string>)
    ensures |parts| >= 1
    decreases |s|
  {
    if s == [] then [""]
    else
      var rest := Split(s[1..], sep);
      if s[0] == sep then [""] + rest
      else [[s[0]] + rest[0]] + rest[1..]
  }

  /** Joining the parts with the separator gives the text back. */
  lemma {:induction false} SplitJoin(s: string, sep: char)
    ensures Join(Split(s, sep), sep) == s
    decreases |s|
  {
    if s != [] {
      var rest := Split(s[1..], sep);
      SplitJoin(s[1..], sep);
      if s[0] != sep && |rest| > 1 {
        assert rest == [rest[0]] + rest[1..];
        assert Join(rest, sep) == rest[0] + [sep] + Join(rest[1..], sep);
      }
      assert s == [s[0]] + s[1..];
    }
  }

  /** No part contains the separator. */
  lemma {:induction false} SplitPartsFree(s: string, sep: char)
    ensures forall k :: 0 <= k < |Split(s, sep)| ==> sep !in Split(s, sep)[k]
    decreases |s|
  {
    if s != [] {
      SplitPartsFree(s[1..], sep);
    }
  }

  /** Text without the separator is a single part. */
  lemma {:induction false} SplitNoSeparator(s: string, sep: char)
    requires sep !in s
    ensures Split(s, sep) == [s]
    decreases |s|
  {
    if s != [] {
      SplitNoSeparator(s[1..], sep);
      assert s == [s[0]] + s[1..];
    }
  }

  /** A leading separator opens an empty first part. */
  lemma SplitConsSeparator(s: string, sep: char)
    ensures Split([sep] + s, sep) == [""] + Split(s, sep)
  {
    var t := [sep] + s;
    assert t[0] == sep && t[1..] == s;
  }

  /** Any other leading character joins the first part. */
  lemma SplitConsOther(c: char, s: string, sep: char)
    requires c != sep
    ensures Split([c] + s, sep) == [[c] + Split(s, sep)[0]] + Split(s, sep)[1..]
  {
    var t := [c] + s;
    assert t[0] == c && t[1..] == s;
  }

  /** A separator between `a` and `b` splits them apart: splitting distributes over it. */
  lemma {:induction false} SplitConcat(a: string, b: string, sep: char)
    ensures Split(a + [sep] + b, sep) == Split(a, sep) + Split(b, sep)
    decreases |a|
  {
    if a == [] {
      assert a + [sep] + b == [sep] + b;
      SplitConsSeparator(b, sep);
    } else {
      SplitConcat(a[1..], b, sep);
      SplitConcatCons(a[0], a[1..], a[1..] + [sep] + b, Split(b, sep), sep);
      assert a + [sep] + b == [a[0]] + (a[1..] + [sep] + b);
      assert a == [a[0]] + a[1..];
    }
  }

  /** One more leading character in front of both texts keeps their parts related. */
  lemma SplitConcatCons(c: char, a: string, x: string, rb: seq<string>, sep: char)
    requires Split(x, sep) == Split(a, sep) + rb
    ensures Split([c] + x, sep) == Split([c] + a, sep) + rb
  {
    var ra := Split(a, sep);
    if c == sep {
      SplitConsSeparator(x, sep);
      SplitConsSeparator(a, sep);
      AppendAssoc([""], ra, rb);
    } else {
      SplitConsOther(c, x, sep);
      SplitConsOther(c, a, sep);
      FirstPartJoined([c], ra, rb);
    }
  }

  /** Concatenation of sequences is associative. */
  lemma AppendAssoc<T>(p: seq<T>, q: seq<T>, r: seq<T>)
    ensures p + (q + r) == (p + q) + r
  {
  }

  /** Joining a prefix to the first of several parts commutes with appending more parts. */
  lemma FirstPartJoined(c: string, ra: seq<string>, rb: seq<string>)
    requires ra != []
    ensures [c + (ra + rb)[0]] + (ra + rb)[1..] == ([c + ra[0]] + ra[1..]) + rb
  {
    assert (ra + rb)[0] == ra[0] && (ra + rb)[1..] == ra[1..] + rb;
  }

  /** `s.split(sep)[0]`: the text before the first separator. */
  lemma SplitFirst(a: string, b: string, sep: char)
    requires sep !in a
    ensures Split(a + [sep] + b, sep)[0] == a
  {
    SplitConcat(a, b, sep);
    SplitNoSeparator(a, sep);
  }

  /** The first part is the text up to the first separator, or all of it. */
  lemma {:induction false} SplitFirstPrefix(s: string, sep: char)
    ensures var first := Split(s, sep)[0];
      first <= s && sep !in first && (|first| < |s| ==> s[|first|] == sep)
    decreases |s|
  {
    if s != [] {
      SplitFirstPrefix(s[1..], sep);
    }
  }

  /** `s.split(sep).pop()`: the text after the last separator. */
  lemma SplitLast(a: string, b: string, sep: char)
    requires sep !in b
    ensures var parts := Split(a + [sep] + b, sep); parts[|parts| - 1] == b
  {
    SplitConcat(a, b, sep);
    SplitNoSeparator(b, sep);
  }

  /**
   * `s.replace(/pat/g, v)` for a pattern without special characters and a
   * replacement without `$` sequences: every occurrence, left to right and not
   * overlapping, is replaced by `v`.
   */
  function ReplaceAll(s: string, pat: string, v: string): string
    requires pat != []
    decreases |s|
  {
    if s == [] then []
    else if At(s, pat, 0) then v + ReplaceAll(s[|pat|..], pat, v)
    else [s[0]] + ReplaceAll(s[1..], pat, v)
  }

  /** Text in which the pattern does not occur is left exactly as it is. */
  lemma {:induction false} ReplaceAllNoOccurrence(s: string, pat: string, v: string)
    requires pat != [] && !Contains(s, pat)
    ensures ReplaceAll(s, pat, v) == s
    decreases |s|
  {
    if s != [] {
      assert !At(s, pat, 0);
      forall j | 0 <= j <= |s| - 1 ensures !At(s[1..], pat, j) {
        AtShift(s, pat, j);
      }
      ReplaceAllNoOccurrence(s[1..], pat, v);
      assert s == [s[0]] + s[1..];
    }
  }

  /**
   * The text before the first occurrence of the pattern is kept verbatim, that
   * occurrence becomes `v`, and the replacement goes on after it.
   */
  lemma {:induction false} ReplaceAllAtFirst(s: string, pat: string, v: string, k: nat)
    requires pat != [] && At(s, pat, k)
    requires forall j :: 0 <= j < k ==> !At(s, pat, j)
    ensures ReplaceAll(s, pat, v) == s[..k] + v + ReplaceAll(s[k + |pat|..], pat, v)
    decreases k
  {
    if k == 0 {
      ReplaceAllHit(s, pat, v);
    } else {
      assert !At(s, pat, 0);
      NoneBeforeShift(s, pat, k);
      AtShift(s, pat, k - 1);
      var rest := ReplaceAll(s[k + |pat|..], pat, v);
      ReplaceAllAtFirst(s[1..], pat, v, k - 1);
      PrefixAssemble(s, k, |pat|, v, rest);
      assert ReplaceAll(s[1..], pat, v) == s[1..][..k - 1] + v + rest;
      ReplaceAllSkip(s, pat, v);
    }
  }

  /** Where the pattern starts, it is replaced. */
  lemma ReplaceAllHit(s: string, pat: string, v: string)
    requires pat != [] && At(s, pat, 0)
    ensures ReplaceAll(s, pat, v) == s[..0] + v + ReplaceAll(s[|pat|..], pat, v)
  {
    assert s != [];
    assert s[..0] + v == v;
  }

  /** Where the pattern does not start, the first character is kept. */
  lemma ReplaceAllSkip(s: string, pat: string, v: string)
    requires pat != [] && s != [] && !At(s, pat, 0)
    ensures ReplaceAll(s, pat, v) == [s[0]] + ReplaceAll(s[1..], pat, v)
  {
  }

  /** No occurrence before `k` in `s` means none before `k - 1` once the first character is dropped. */
  lemma NoneBeforeShift(s: string, pat: string, k: nat)
    requires 0 < k <= |s|
    requires forall j :: 0 <= j < k ==> !At(s, pat, j)
    ensures forall j :: 0 <= j < k - 1 ==> !At(s[1..], pat, j)
  {
    forall j | 0 <= j < k - 1 ensures !At(s[1..], pat, j) {
      AtShift(s, pat, j);
    }
  }

  /** Putting the first character back in front of the rewritten tail. */
  lemma PrefixAssemble(s: string, k: nat, n: nat, v: string, x: string)
    requires 0 < k && k + n <= |s|
    ensures [s[0]] + (s[1..][..k - 1] + v + x) == s[..k] + v + x
    ensures s[1..][k - 1 + n..] == s[k + n..]
  {
    assert s[..k] == [s[0]] + s[1..][..k - 1];
  }

  /** ASCII `toLowerCase` of one character. */
  function LowerChar(c: char): char {
    if 'A' <= c <= 'Z' then (c as int - 'A' as int + 'a' as int) as char else c
  }

  /** ASCII `toUpperCase` of one character. */
  function UpperChar(c: char): char {
    if 'a' <= c <= 'z' then (c as int - 'a' as int + 'A' as int) as char else c
  }

  /** `s.toLowerCase()` restricted to ASCII letters. */
  function ToLower(s: string): (r: string)
    ensures |r| == |s| && forall i :: 0 <= i < |s| ==> r[i] == LowerChar(s[i])
  {
    seq(|s|, i requires 0 <= i < |s| => LowerChar(s[i]))
  }

  /** `s.toUpperCase()` restricted to ASCII letters. */
  function ToUpper(s: string): (r: string)
    ensures |r| == |s| && forall i :: 0 <= i < |s| ==> r[i] == UpperChar(s[i])
  {
    seq(|s|, i requires 0 <= i < |s| => UpperChar(s[i]))
  }

  /** The lower-case digit character for `d`. */
  function DigitChar(d: nat): char
    requires d < 16
  {
    if d < 10 then ('0' as int + d) as char else ('a' as int + d - 10) as char
  }

  /** The value of a digit character, the inverse of `DigitChar`. */
  function DigitValue(c: char): (r: nat)
    ensures r < 16
  {
    if '0' <= c <= '9' then c as int - '0' as int
    else if 'a' <= c <= 'f' then c as int - 'a' as int + 10
    else 0
  }

  /** The two radixes the front end prints numbers in. */
  type Radix = r: nat | r == 10 || r == 16 witness 10

  /** A digit of the given radix. */
  predicate IsDigit(c: char, radix: nat) {
    ('0' <= c <= '9' && c as int - '0' as int < radix) || ('a' <= c <= 'f' && c as int - 'a' as int + 10 < radix)
  }

  /** `n.toString(radix)` for a non-negative integer: digits, most significant first, no leading zero. */
  function ToRadix(n: nat, radix: Radix): (r: string)
    ensures r != [] && (|r| > 1 ==> r[0] != '0')
    ensures forall i :: 0 <= i < |r| ==> IsDigit(r[i], radix)
    decreases n
  {
    if n < radix then [DigitChar(n)]
    else if radix == 10 then ToRadix(n / 10, radix) + [DigitChar(n % 10)]
    else ToRadix(n / 16, radix) + [DigitChar(n % 16)]
  }

  /** The number a digit string stands for. */
  function RadixValue(s: string, radix: Radix): nat {
    if s == [] then 0 else RadixValue(s[..|s| - 1], radix) * radix + DigitValue(s[|s| - 1])
  }

  /** Reading back what `ToRadix` wrote gives the number. */
  lemma {:induction false} ToRadixRoundTrip(n: nat, radix: Radix)
    ensures RadixValue(ToRadix(n, radix), radix) == n
    decreases n
  {
    if n >= radix {
      ToRadixRoundTrip(n / radix, radix);
      var r := ToRadix(n, radix);
      assert r[..|r| - 1] == ToRadix(n / radix, radix);
      assert DigitValue(DigitChar(n % radix)) == n % radix;
    } else {
      assert DigitValue(DigitChar(n)) == n;
    }
  }

  /** Decimal text of a non-negative integer, as template literals print it. */
  function NatToString(n: nat): string {
    ToRadix(n, 10)
  }

  /** `s.padStart(len, [c])`. */
  function PadStart(s: string, len: nat, c: char): (r: string)
    ensures |r| == if |s| >= len then |s| else len
    ensures r[|r| - |s|..] == s
    ensures forall i :: 0 <= i < |r| - |s| ==> r[i] == c
  {
    if |s| >= len then s else seq(len - |s|, _ => c) + s
  }

  /**
   * `s.length`: JavaScript counts UTF-16 code units, so a character outside
   * the Basic Multilingual Plane counts twice.
   */
  function Utf16Length(s: string): (n: nat)
    ensures |s| <= n <= 2 * |s|
    ensures n == |s| <==> forall i :: 0 <= i < |s| ==> s[i] as int < 0x1_0000
  {
    if s == [] then 0
    else (if s[0] as int < 0x1_0000 then 1 else 2) + Utf16Length(s[1..])
  }
}
