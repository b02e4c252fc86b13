/** The ways to write a string in a JSON document, and that the reader understands them all. */
module JsonSpellings {
  import opened Json
  import opened JsonGrammar
  import opened JsonRoundTrip

  /** Document d goes on with t from position i to its end. */
  predicate Rest(d: string, i: nat, t: string) {
    i <= |d| && d[i..] == t
  }

  lemma Behind(d: string, i: nat, a: string, b: string)
    requires Rest(d, i, a + b)
    ensures Rest(d, i + |a|, b) && At(d, i, a) && i + |a| == |d| - |b|
  {
    assert (a + b)[..|a|] == a && (a + b)[|a|..] == b;
    assert d[i..i + |a|] == d[i..][..|a|];
    assert d[i + |a|..] == d[i..][|a|..];
  }

  lemma First(d: string, i: nat, t: string)
    requires Rest(d, i, t) && t != ""
    ensures i < |d| && d[i] == t[0] && Rest(d, i + 1, t[1..])
  {
    assert d[i..][0] == d[i] && d[i..][1..] == d[i + 1..];
  }

  // ------------------------------------------------------------------------------------------
  // UTF-8
  // ------------------------------------------------------------------------------------------

  predicate IsContinuation(c: char) { 0x80 <= c as int < 0xC0 }

  /** The code point that a sequence of bytes stands for in UTF-8, in its shortest form. */
  predicate IsUtf8(s: string, cp: nat) {
    match |s|
    case 1 => cp < 0x80 && s[0] as int == cp
    case 2 => 0x80 <= cp < 0x800 && 0xC0 <= s[0] as int < 0xE0 && IsContinuation(s[1])
              && (s[0] as int - 0xC0) * 0x40 + (s[1] as int - 0x80) == cp
    case 3 => 0x800 <= cp < 0x1_0000 && 0xE0 <= s[0] as int < 0xF0 && IsContinuation(s[1]) && IsContinuation(s[2])
              && ((s[0] as int - 0xE0) * 0x40 + (s[1] as int - 0x80)) * 0x40 + (s[2] as int - 0x80) == cp
    case 4 => 0x1_0000 <= cp < 0x11_0000 && 0xF0 <= s[0] as int < 0xF8 && IsContinuation(s[1]) && IsContinuation(s[2]) && IsContinuation(s[3])
              && (((s[0] as int - 0xF0) * 0x40 + (s[1] as int - 0x80)) * 0x40 + (s[2] as int - 0x80)) * 0x40 + (s[3] as int - 0x80) == cp
    case _ => false
  }

  lemma SixBits(n: nat)
    ensures n == n / 0x40 * 0x40 + n % 0x40 && n % 0x40 < 0x40
  {
  }

  lemma Shifts(n: nat)
    ensures n / 0x1000 == n / 0x40 / 0x40 && n / 0x4_0000 == n / 0x1000 / 0x40
  {
  }

  lemma ByteIs(n: nat)
    requires n < 0x100
    ensures ByteOf(n) as int == n
  {
  }

  /** What is left after k shifts is small. */
  lemma HighBits(cp: nat)
    ensures cp < 0x800 ==> cp / 0x40 % 0x20 == cp / 0x40 < 0x20
    ensures cp < 0x1_0000 ==> cp / 0x1000 % 0x10 == cp / 0x1000 < 0x10
    ensures cp < 0x20_0000 ==> cp / 0x4_0000 % 8 == cp / 0x4_0000 < 8
  {
  }

  lemma OneByte(cp: nat)
    requires cp < 0x80
    ensures IsUtf8(Utf8(cp), cp)
  {
    ByteIs(cp);
    hide ByteOf;
  }

  lemma TwoBytes(cp: nat)
    requires 0x80 <= cp < 0x800
    ensures IsUtf8(Utf8(cp), cp)
  {
    HighBits(cp);
    SixBits(cp);
    ByteIs(0xC0 + cp / 0x40 % 0x20);
    ByteIs(0x80 + cp % 0x40);
    hide ByteOf;
  }

  lemma ThreeBytes(cp: nat)
    requires 0x800 <= cp < 0x1_0000
    ensures IsUtf8(Utf8(cp), cp)
  {
    Shifts(cp);
    HighBits(cp);
    SixBits(cp);
    SixBits(cp / 0x40);
    ByteIs(0xE0 + cp / 0x1000 % 0x10);
    ByteIs(0x80 + cp / 0x40 % 0x40);
    ByteIs(0x80 + cp % 0x40);
    hide ByteOf;
  }

  lemma FourBytes(cp: nat)
    requires 0x1_0000 <= cp < 0x11_0000
    ensures IsUtf8(Utf8(cp), cp)
  {
    Shifts(cp);
    HighBits(cp);
    SixBits(cp);
    SixBits(cp / 0x40);
    SixBits(cp / 0x1000);
    ByteIs(0xF0 + cp / 0x4_0000 % 8);
    ByteIs(0x80 + cp / 0x1000 % 0x40);
    ByteIs(0x80 + cp / 0x40 % 0x40);
    ByteIs(0x80 + cp % 0x40);
    hide ByteOf;
  }

  /** codePointToUTF8: a code point is encoded in UTF-8, in its shortest form. */
  lemma Utf8IsRight(cp: nat)
    ensures cp < 0x11_0000 ==> IsUtf8(Utf8(cp), cp)
    ensures cp >= 0x11_0000 ==> Utf8(cp) == ""
  {
    hide IsUtf8;
    if cp < 0x80 {
      OneByte(cp);
    } else if cp < 0x800 {
      TwoBytes(cp);
    } else if cp < 0x1_0000 {
      ThreeBytes(cp);
    } else if cp < 0x11_0000 {
      FourBytes(cp);
    }
  }

  // ------------------------------------------------------------------------------------------
  // Letters
  // ------------------------------------------------------------------------------------------

  const SHORT_NAMES: string := ['"', '\\', '/', 'b', 'f', 'n', 'r', 't']
  const SHORT_MEANINGS: string := ['"', '\\', '/', 8 as char, 12 as char, 10 as char, 13 as char, 9 as char]

  /** One character of a string as it may be written. */
  datatype Letter =
    | Raw(c: char)
    | Short(k: nat)                       // a backslash and a character
    | Unicode(h: string)                  // \u and four hexadecimal digits
    | Surrogates(high: string, low: string)

  predicate IsHex(h: string) {
    |h| == 4 && forall k :: 0 <= k < 4 ==> '0' <= h[k] <= '9' || 'a' <= h[k] <= 'f' || 'A' <= h[k] <= 'F'
  }

  function HexDigitValue(c: char): nat {
    if '0' <= c <= '9' then c as int - '0' as int
    else if 'a' <= c <= 'f' then c as int - 'a' as int + 10
    else if 'A' <= c <= 'F' then c as int - 'A' as int + 10
    else 0
  }

  function HexValue(h: string): nat
    requires |h| == 4
  {
    HexDigitValue(h[0]) * 0x1000 + HexDigitValue(h[1]) * 0x100 + HexDigitValue(h[2]) * 0x10 + HexDigitValue(h[3])
  }

  predicate LetterOk(l: Letter) {
    match l
    case Raw(c) => c != '"' && c != '\\'
    case Short(k) => k < 8
    case Unicode(h) => IsHex(h) && !(0xD800 <= HexValue(h) < 0xDC00)
    case Surrogates(high, low) =>
      IsHex(high) && IsHex(low) && 0xD800 <= HexValue(high) < 0xDC00 && 0xDC00 <= HexValue(low) < 0xE000
  }

  function LetterText(l: Letter): string
    requires LetterOk(l)
  {
    match l
    case Raw(c) => [c]
    case Short(k) => ['\\', SHORT_NAMES[k]]
    case Unicode(h) => ['\\', 'u'] + h
    case Surrogates(high, low) => ['\\', 'u'] + high + (['\\', 'u'] + low)
  }

  function SurrogatesValue(high: string, low: string): int
    requires |high| == |low| == 4
  {
    0x1_0000 + (HexValue(high) - 0xD800) * 0x400 + (HexValue(low) - 0xDC00)
  }

  /** The bytes that the letter stands for. */
  function MeaningOf(l: Letter): string
    requires LetterOk(l)
  {
    match l
    case Raw(c) => [c]
    case Short(k) => [SHORT_MEANINGS[k]]
    case Unicode(h) => Utf8(HexValue(h))
    case Surrogates(high, low) => Utf8(SurrogatesValue(high, low))
  }

  predicate LettersOk(ls: seq<Letter>) {
    forall k :: 0 <= k < |ls| ==> LetterOk(ls[k])
  }

  function LettersText(ls: seq<Letter>): string
    requires LettersOk(ls)
  {
    if ls == [] then "" else LetterText(ls[0]) + LettersText(ls[1..])
  }

  function Meaning(ls: seq<Letter>): string
    requires LettersOk(ls)
  {
    if ls == [] then "" else MeaningOf(ls[0]) + Meaning(ls[1..])
  }

  lemma HexIsDecoded(h: string, more: string)
    requires IsHex(h)
    ensures HexFour(h + more) == Some(HexValue(h)) && HexValue(h) < 0x1_0000
    ensures forall k :: 0 <= k < 4 ==> h[k] != '"' && h[k] != '\\'
  {
    var t := h + more;
    assert t[0] == h[0] && t[1] == h[1] && t[2] == h[2] && t[3] == h[3];
    HexDigitIs(h[0]);
    HexDigitIs(h[1]);
    HexDigitIs(h[2]);
    HexDigitIs(h[3]);
    hide HexOf, HexDigitValue;
  }

  lemma HexDigitIs(c: char)
    requires '0' <= c <= '9' || 'a' <= c <= 'f' || 'A' <= c <= 'F'
    ensures HexOf(c) == Some(HexDigitValue(c)) && HexDigitValue(c) < 16
  {
  }

  lemma UnicodeIsDecoded(h: string, more: string)
    requires LetterOk(Unicode(h))
    ensures DecodeCodePoint(h + more) == CodePoint(HexValue(h), more)
  {
    HexIsDecoded(h, more);
    hide HexFour, HexValue;
    assert (h + more)[4..] == more;
  }

  lemma SurrogatesAreDecoded(high: string, low: string, more: string)
    requires LetterOk(Surrogates(high, low))
    ensures DecodeCodePoint(high + (['\\', 'u'] + (low + more))) ==
            CodePoint(SurrogatesValue(high, low), more)
  {
    var t := high + (['\\', 'u'] + (low + more));
    HexIsDecoded(high, ['\\', 'u'] + (low + more));
    HexIsDecoded(low, more);
    hide HexFour, HexValue;
    assert t[4] == '\\' && t[5] == 'u' && t[6..] == low + more && t[10..] == more;
    TenBits(HexValue(high), HexValue(low));
  }

  lemma TenBits(u: int, v: int)
    requires 0xD800 <= u < 0xDC00 && 0xDC00 <= v < 0xE000
    ensures u % 0x400 == u - 0xD800 && v % 0x400 == v - 0xDC00
  {
  }

  lemma Regroup(a: string, b: string, c: string)
    ensures (a + b) + c == a + (b + c)
  {
  }

  lemma BehindU(t: string)
    ensures (['\\', 'u'] + t)[2..] == t
  {
  }

  lemma EscapedUnicode(h: string, more: string)
    requires LetterOk(Unicode(h))
    ensures Unescape(LetterText(Unicode(h)) + more) == Prefixed(Utf8(HexValue(h)), Unescape(more))
  {
    hide Unescape, DecodeCodePoint, Utf8, HexValue;
    Regroup(['\\', 'u'], h, more);
    BehindU(h + more);
    UnicodeIsDecoded(h, more);
    UnicodeIsUnescaped(['\\', 'u'] + (h + more), HexValue(h), more);
  }

  lemma EscapedSurrogates(high: string, low: string, more: string)
    requires LetterOk(Surrogates(high, low))
    ensures Unescape(LetterText(Surrogates(high, low)) + more) ==
            Prefixed(Utf8(SurrogatesValue(high, low)), Unescape(more))
  {
    hide Unescape, DecodeCodePoint, Utf8, HexValue;
    var u := ['\\', 'u'];
    Regroup(u + high, u + low, more);
    Regroup(u, low, more);
    Regroup(u, high, u + (low + more));
    BehindU(high + (u + (low + more)));
    SurrogatesAreDecoded(high, low, more);
    UnicodeIsUnescaped(u + (high + (u + (low + more))), SurrogatesValue(high, low), more);
  }

  /** The reader's loop over one letter. */
  lemma LetterIsUnescaped(l: Letter, more: string)
    requires LetterOk(l)
    ensures Unescape(LetterText(l) + more) == Prefixed(MeaningOf(l), Unescape(more))
  {
    hide Unescape, Utf8, HexValue;
    match l
    case Raw(c) =>
      assert ([c] + more)[1..] == more;
      JsonRoundTrip.PlainIsUnescaped([c] + more);
    case Short(k) =>
      var t := ['\\', SHORT_NAMES[k]] + more;
      assert t[2..] == more;
      SimpleIsUnescaped(t, SHORT_MEANINGS[k]);
    case Unicode(h) => EscapedUnicode(h, more);
    case Surrogates(high, low) => EscapedSurrogates(high, low, more);
  }

  lemma {:induction false} LettersAreUnescaped(ls: seq<Letter>)
    requires LettersOk(ls)
    ensures Unescape(LettersText(ls)) == Some(Meaning(ls))
  {
    if ls != [] {
      hide LetterText, MeaningOf, Unescape;
      LettersAreUnescaped(ls[1..]);
      LetterIsUnescaped(ls[0], LettersText(ls[1..]));
    }
  }

  // ------------------------------------------------------------------------------------------
  // Where the string ends
  // ------------------------------------------------------------------------------------------

  lemma HexIsRead(d: string, i: nat, h: string)
    requires IsHex(h) && At(d, i, ['\\', 'u'] + h)
    ensures ReadString(d, i) == ReadString(d, i + 6)
  {
    var t := ['\\', 'u'] + h;
    forall k | 0 <= k < 6
      ensures d[i + k] == t[k]
    {
      assert d[i..i + 6][k] == t[k];
    }
    assert d[i] == t[0];
    HexIsDecoded(h, "");
    hide ReadString;
    BackslashIsRead(d, i);
    PlainIsRead(d, i + 2);
    PlainIsRead(d, i + 3);
    PlainIsRead(d, i + 4);
    PlainIsRead(d, i + 5);
  }

  lemma LetterIsRead(d: string, i: nat, l: Letter)
    requires LetterOk(l) && At(d, i, LetterText(l))
    ensures ReadString(d, i) == ReadString(d, i + |LetterText(l)|)
  {
    hide ReadString, HexValue, IsHex;
    var t := LetterText(l);
    match l
    case Raw(c) =>
      AtFirst(d, i, t);
      PlainIsRead(d, i);
    case Short(k) =>
      AtFirst(d, i, t);
      BackslashIsRead(d, i);
    case Unicode(h) =>
      assert IsHex(h);
      FourEach(h, h);
      HexIsRead(d, i, h);
    case Surrogates(high, low) =>
      assert IsHex(high) && IsHex(low);
      FourEach(high, low);
      assert t == (['\\', 'u'] + high) + (['\\', 'u'] + low);
      AtParts(d, i, ['\\', 'u'] + high, ['\\', 'u'] + low);
      HexIsRead(d, i, high);
      HexIsRead(d, i + 6, low);
  }

  lemma FourEach(high: string, low: string)
    requires IsHex(high) && IsHex(low)
    ensures |high| == |low| == 4
  {
  }

  lemma {:induction false} LettersAreRead(d: string, i: nat, ls: seq<Letter>, more: string)
    requires LettersOk(ls) && Rest(d, i, LettersText(ls) + ("\"" + more))
    ensures ReadString(d, i) == Scan(true, |d| - |more|)
    decreases |ls|
  {
    if ls == [] {
      assert "" + ("\"" + more) == "\"" + more;
      First(d, i, "\"" + more);
      assert ("\"" + more)[1..] == more;
    } else {
      var a, b := LetterText(ls[0]), LettersText(ls[1..]);
      hide LetterText, ReadString, LettersText, At, Rest;
      Regroup(a, b, "\"" + more);
      Behind(d, i, a, b + ("\"" + more));
      LetterIsRead(d, i, ls[0]);
      LettersAreRead(d, i + |a|, ls[1..], more);
    }
  }

  /** A string between quotes, and what follows it. */
  function QuotedText(ls: seq<Letter>, more: string): string
    requires LettersOk(ls)
  {
    "\"" + (LettersText(ls) + ("\"" + more))
  }

  /** However a string is written, its token ends at its closing quote and is decoded to the bytes that
      its letters stand for. */
  lemma SpelledStringIsRead(d: string, i: nat, ls: seq<Letter>, more: string)
    requires LettersOk(ls) && Rest(d, i, QuotedText(ls, more))
    ensures i + 2 <= |d| - |more| && Rest(d, |d| - |more|, more)
    ensures SkipComments(d, i) == Token(StringToken, i, |d| - |more|)
    ensures DecodeString(d, Token(StringToken, i, |d| - |more|)) == Some(Meaning(ls))
  {
    hide LettersText, Meaning, ReadString, SkipComments, Unescape;
    var t := LettersText(ls);
    Behind(d, i, "\"", t + ("\"" + more));
    First(d, i, QuotedText(ls, more));
    LettersAreRead(d, i + 1, ls, more);
    QuoteStartsString(d, i);
    Behind(d, i + 1, t, "\"" + more);
    Behind(d, i + 1 + |t|, "\"", more);
    LettersAreUnescaped(ls);
    assert |d| - |more| - 1 == i + 1 + |t|;
    assert d[i + 1..|d| - |more| - 1] == t;
  }
}
