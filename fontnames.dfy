/** The names the font converter computes: the character set, the width of
    character ids, the font id of a font file, the glyph name a character is
    looked up by, the output file names and the five-line description
    record. */
module FontNames {
  import opened Decimal
  import opened Text

  /** The characters converted for every font: the Thai set, followed by the
      English set when 52 reference glyphs are requested. */
  function Charset(th: string, eng: string, refNshot: int): string {
    if refNshot == 52 then th + eng else th
  }

  /** The Thai characters come first, at their own indices, and the English
      set follows only for `ref_nshot == 52`. */
  lemma CharsetLayout(th: string, eng: string, refNshot: int)
    ensures var cs := Charset(th, eng, refNshot);
      && |cs| == |th| + (if refNshot == 52 then |eng| else 0)
      && (forall i :: 0 <= i < |th| ==> cs[i] == th[i])
      && (refNshot == 52 ==> forall j :: 0 <= j < |eng| ==> cs[|th| + j] == eng[j])
      && (refNshot != 52 ==> cs == th)
  {
  }

  /** `charset_lenw`: the number of decimal digits of the charset's length. */
  function CharIdWidth(charset: string): (w: nat)
    ensures w >= 1
  {
    |ToDecimal(|charset|)|
  }

  /** Every character id of the charset, zero-padded, takes exactly
      `charset_lenw` characters and reads back as the id; distinct ids give
      distinct names. */
  lemma CharIdNames(charset: string, a: nat, b: nat)
    requires a < |charset| && b < |charset|
    ensures |Pad(a, CharIdWidth(charset))| == CharIdWidth(charset)
    ensures AllDigits(Pad(a, CharIdWidth(charset)))
    ensures ParseDecimal(Pad(a, CharIdWidth(charset))) == a
    ensures Pad(a, CharIdWidth(charset)) == Pad(b, CharIdWidth(charset)) <==> a == b
  {
    PadFixedWidth(a, |charset|);
    PadRoundTrip(a, CharIdWidth(charset));
    PadInjective(a, b, CharIdWidth(charset));
  }

  /** The width is the smallest that fits every id: the charset's length
      needs all of it, and it is `len(str(len(charset)))`. */
  lemma CharIdWidthBounds(charset: string)
    ensures |charset| < Pow10(CharIdWidth(charset))
    ensures |charset| >= 10 ==> Pow10(CharIdWidth(charset) - 1) <= |charset|
  {
    DigitCount(|charset|);
  }

  /** `font_id`: the file name up to its first `.`. */
  function FontId(fileName: string): string {
    Split(fileName, '.')[0]
  }

  /** The font id holds no `.`, is a prefix of the file name, and is followed
      there by a `.` or by nothing. */
  lemma FontIdPrefix(fileName: string)
    ensures var id := FontId(fileName);
      && '.' !in id
      && |id| <= |fileName| && fileName[..|id|] == id
      && (|id| == |fileName| || fileName[|id|] == '.')
  {
    if '.' in fileName {
      var i := IndexOf(fileName, '.');
      assert FontId(fileName) == fileName[..i];
    }
  }

  /** A concrete name: the extension is dropped. */
  lemma FontIdExample()
    ensures FontId("Sarabun.ttf") == "Sarabun"
  {
    var stem := "Sarabun";
    assert forall k :: 0 <= k < |stem| ==> stem[k] != '.';
    assert "Sarabun.ttf" == stem + ['.'] + "ttf";
    SplitCons(stem, '.', "ttf");
  }

  /** A name without a dot is its own id. */
  lemma FontIdWithoutDot(name: string)
    requires '.' !in name
    ensures FontId(name) == name
  {
    FontIdPrefix(name);
  }

  /** Taking the id twice changes nothing. */
  lemma FontIdIdempotent(fileName: string)
    ensures FontId(FontId(fileName)) == FontId(fileName)
  {
    FontIdPrefix(fileName);
    FontIdWithoutDot(FontId(fileName));
  }

  predicate IsHexLower(c: char) {
    '0' <= c <= '9' || 'a' <= c <= 'f'
  }

  function HexValue(c: char): (v: nat)
    requires IsHexLower(c)
    ensures v < 16
  {
    if c <= '9' then (c as int) - ('0' as int) else (c as int) - ('a' as int) + 10
  }

  function HexDigit(d: nat): (c: char)
    requires d < 16
    ensures IsHexLower(c) && HexValue(c) == d
  {
    if d < 10 then (('0' as int) + d) as char else (('a' as int) + d - 10) as char
  }

  function Pow16(k: nat): (p: nat)
    ensures p >= 1
  {
    if k == 0 then 1 else 16 * Pow16(k - 1)
  }

  /** The last `k` lowercase hex digits of `v`, most significant first. */
  function Hex(v: nat, k: nat): (s: string)
    ensures |s| == k && forall i :: 0 <= i < |s| ==> IsHexLower(s[i])
  {
    if k == 0 then "" else Hex(v / 16, k - 1) + [HexDigit(v % 16)]
  }

  /** `int(s, 16)` for lowercase hex text. */
  function ParseHex(s: string): nat
    requires forall i :: 0 <= i < |s| ==> IsHexLower(s[i])
  {
    if s == [] then 0 else ParseHex(s[..|s| - 1]) * 16 + HexValue(s[|s| - 1])
  }

  /** A number below `16^k` written with `k` hex digits reads back as itself. */
  lemma {:induction false} HexRoundTrip(v: nat, k: nat)
    requires v < Pow16(k)
    ensures ParseHex(Hex(v, k)) == v
  {
    if k > 0 {
      var s := Hex(v, k);
      assert s[..k - 1] == Hex(v / 16, k - 1);
      HexRoundTrip(v / 16, k - 1);
    }
  }

  /** `c.encode("unicode_escape")[2:]`: the escape sequence without its first
      two bytes. The characters with a two-byte escape (tab, newline, carriage
      return, backslash) and the printable ASCII characters (one byte) leave
      nothing; the other characters below U+0100 leave two hex digits
      (`\xhh`), the rest of the Basic Multilingual Plane four (`\uhhhh`), and
      the characters above it eight (`\Uhhhhhhhh`). */
  function EscapeTail(c: char): (t: string)
    ensures forall i :: 0 <= i < |t| ==> IsHexLower(t[i])
  {
    var v := c as int;
    if c == '\t' || c == '\n' || c == '\r' || c == '\\' then ""
    else if 0x20 <= v < 0x7f then ""
    else if v < 0x100 then Hex(v, 2)
    else if v < 0x10000 then Hex(v, 4)
    else Hex(v, 8)
  }

  /** The glyph name a character of the charset is selected by: `uni` and the
      escape's hex digits for a character of the Thai set, the character
      itself otherwise. */
  function GlyphSelector(c: char, th: string): string {
    if c in th then "uni" + EscapeTail(c) else [c]
  }

  /** A Thai-set character of the Basic Multilingual Plane above U+00FF is
      selected by `uni` and its four hex digits, which read back as its code
      point; so two such characters never share a glyph name. */
  lemma ThaiGlyphName(c: char, d: char, th: string)
    requires c in th && 0x100 <= c as int < 0x10000
    requires d in th && 0x100 <= d as int < 0x10000
    ensures var name := GlyphSelector(c, th);
      && |name| == 7 && name[..3] == "uni"
      && (forall i :: 3 <= i < 7 ==> IsHexLower(name[i]))
      && ParseHex(name[3..]) == c as int
    ensures GlyphSelector(c, th) == GlyphSelector(d, th) <==> c == d
  {
    assert GlyphSelector(c, th)[3..] == Hex(c as int, 4);
    assert GlyphSelector(d, th)[3..] == Hex(d as int, 4);
    HexRoundTrip(c as int, 4);
    HexRoundTrip(d as int, 4);
    if c != d {
      assert GlyphSelector(c, th)[3..] != GlyphSelector(d, th)[3..];
    }
  }

  /** THAI CHARACTER KO KAI is selected by `uni0e01`. */
  lemma KoKaiGlyphName()
    ensures GlyphSelector('\U{0E01}', "\U{0E01}") == "uni0e01"
  {
    assert Hex(0x0E01, 4) == "0e01";
  }

  /** Every printable ASCII character of the Thai set, and tab, newline,
      carriage return and backslash, are all selected by the same name
      `uni`; a character outside the Thai set is selected by itself. */
  lemma EscapelessGlyphName(c: char, th: string)
    ensures c in th && (0x20 <= c as int < 0x7f || c == '\t' || c == '\n' || c == '\r') ==>
      GlyphSelector(c, th) == "uni"
    ensures c !in th ==> GlyphSelector(c, th) == [c]
  {
  }

  /** `'{}_{num:0{width}}'.format(font_id, ...)` followed by the extension. */
  function OutputName(fontId: string, charId: nat, width: nat, ext: string): string {
    fontId + "_" + Pad(charId, width) + ext
  }

  /** Within one font, the names of two character ids below the charset's
      length with extensions of one length are equal exactly when the ids and
      the extensions are. */
  lemma OutputNameInjective(charset: string, fontId: string, a: nat, b: nat, e1: string, e2: string)
    requires a < |charset| && b < |charset| && |e1| == |e2|
    ensures var w := CharIdWidth(charset);
      OutputName(fontId, a, w, e1) == OutputName(fontId, b, w, e2) <==> a == b && e1 == e2
  {
    var w := CharIdWidth(charset);
    CharIdNames(charset, a, b);
    CharIdNames(charset, b, a);
    var x, y := OutputName(fontId, a, w, e1), OutputName(fontId, b, w, e2);
    var k := |fontId| + 1;
    if x == y {
      assert Pad(a, w) == x[k..k + w] && Pad(b, w) == y[k..k + w];
      assert e1 == x[k + w..] && e2 == y[k + w..];
    }
  }

  /** A name with the font id in front never starts with `/` when the font
      file's name holds none, so joining it to a directory appends it. */
  lemma OutputNameRelative(fileName: string, charId: nat, width: nat, ext: string)
    requires '/' !in fileName
    ensures var name := OutputName(FontId(fileName), charId, width, ext);
      |name| > 0 && name[0] != '/'
  {
    FontIdPrefix(fileName);
    var id := FontId(fileName);
    if |id| > 0 {
      assert id[0] == fileName[0];
    }
  }

  /** The five lines of a character's description file: the code point of
      `A` (the variable is reassigned to `'A'` before it is written), the
      glyph's width and vertical width, the padded character id and the font
      id, without a final newline. */
  function Description(width: int, vwidth: int, padded: string, fontId: string): string {
    IntToString('A' as int) + "\n" + IntToString(width) + "\n" + IntToString(vwidth) + "\n"
      + padded + "\n" + fontId
  }

  lemma NumberHasNoNewline(x: int)
    ensures '\n' !in IntToString(x)
  {
    var s := IntToString(x);
    var d := ToDecimal(if x < 0 then -x else x);
    forall i | 0 <= i < |s|
      ensures s[i] != '\n'
    {
      if x < 0 && i > 0 {
        assert s[i] == d[i - 1];
      }
    }
  }

  /** Five newline-free lines joined by newlines split back into those
      lines. */
  lemma SplitLines(a: string, b: string, c: string, d: string, e: string)
    requires '\n' !in a && '\n' !in b && '\n' !in c && '\n' !in d && '\n' !in e
    ensures Split(a + "\n" + b + "\n" + c + "\n" + d + "\n" + e, '\n') == [a, b, c, d, e]
  {
    LinesAssociate(a, b, c, d, e);
    var r1 := b + "\n" + (c + "\n" + (d + "\n" + e));
    SplitNested(b, c, d, e);
    SplitCons(a, '\n', r1);
    Prepend(a, [b, c, d, e]);
  }

  lemma LinesAssociate(a: string, b: string, c: string, d: string, e: string)
    ensures a + "\n" + b + "\n" + c + "\n" + d + "\n" + e ==
      a + "\n" + (b + "\n" + (c + "\n" + (d + "\n" + e)))
  {
  }

  lemma SplitNested(b: string, c: string, d: string, e: string)
    requires '\n' !in b && '\n' !in c && '\n' !in d && '\n' !in e
    ensures Split(b + "\n" + (c + "\n" + (d + "\n" + e)), '\n') == [b, c, d, e]
  {
    var r2 := c + "\n" + (d + "\n" + e);
    SplitThree(c, d, e);
    SplitCons(b, '\n', r2);
  }

  lemma SplitThree(c: string, d: string, e: string)
    requires '\n' !in c && '\n' !in d && '\n' !in e
    ensures Split(c + "\n" + (d + "\n" + e), '\n') == [c, d, e]
  {
    SplitPair(d, '\n', e);
    SplitCons(c, '\n', d + "\n" + e);
  }

  lemma Prepend<T>(x: T, rest: seq<T>)
    requires |rest| == 4
    ensures [x] + rest == [x, rest[0], rest[1], rest[2], rest[3]]
  {
  }

  /** Splitting a description at its newlines gives back its five fields, the
      first being `65` whatever character the file describes. */
  lemma DescriptionFields(width: int, vwidth: int, padded: string, fontId: string)
    requires '\n' !in padded && '\n' !in fontId
    ensures Split(Description(width, vwidth, padded, fontId), '\n') ==
      ["65", IntToString(width), IntToString(vwidth), padded, fontId]
  {
    assert IntToString('A' as int) == "65" by {
      assert ToDecimal(65) == ToDecimal(6) + [DigitChar(5)];
      assert DigitChar(6) == '6' && DigitChar(5) == '5';
    }
    NumberHasNoNewline(width);
    NumberHasNoNewline(vwidth);
    SplitLines("65", IntToString(width), IntToString(vwidth), padded, fontId);
  }
}
