/** UTF-8 to LCD character-ROM transcoding (ui_print.cpp): two-byte Cyrillic
    sequences become the display's own codes, ASCII passes through, anything
    else becomes '?'. Strings are byte sequences ending at their first 0. */
module UiPrint {
  import opened Ints
  import opened CText

  const QMARK: u8 := 0x3F   // '?'

  /** The `switch` of `unicodeToLcdByte`: the display codes of А..Я and
      а..я (U+0410..U+044F); '?' for anything else. */
  function CyrillicCode(cp: int): (r: u8)
    ensures 0x0410 <= cp <= 0x044F <==> r != QMARK
  {
    match cp
    case 0x0410 => 0x41  // А
    case 0x0411 => 0xA0  // Б
    case 0x0412 => 0x42  // В
    case 0x0413 => 0xA1  // Г
    case 0x0414 => 0x44  // Д
    case 0x0415 => 0x45  // Е
    case 0x0416 => 0xA3  // Ж
    case 0x0417 => 0xA4  // З
    case 0x0418 => 0xA5  // И
    case 0x0419 => 0xA6  // Й
    case 0x041A => 0x4B  // К
    case 0x041B => 0xA7  // Л
    case 0x041C => 0x4D  // М
    case 0x041D => 0x48  // Н
    case 0x041E => 0x4F  // О
    case 0x041F => 0xA8  // П
    case 0x0420 => 0x50  // Р
    case 0x0421 => 0x43  // С
    case 0x0422 => 0x54  // Т
    case 0x0423 => 0xA9  // У
    case 0x0424 => 0xAA  // Ф
    case 0x0425 => 0x58  // Х
    case 0x0426 => 0x43  // Ц
    case 0x0427 => 0xAB  // Ч
    case 0x0428 => 0xAC  // Ш
    case 0x0429 => 0xAC  // Щ
    case 0x042A => 0xAD  // Ъ
    case 0x042B => 0xAE  // Ы
    case 0x042C => 0x62  // Ь
    case 0x042D => 0xAF  // Э
    case 0x042E => 0xB0  // Ю
    case 0x042F => 0xB1  // Я
    case 0x0430 => 0x61  // а
    case 0x0431 => 0xB2  // б
    case 0x0432 => 0xB3  // в
    case 0x0433 => 0xB4  // г
    case 0x0434 => 0x64  // д
    case 0x0435 => 0x65  // е
    case 0x0436 => 0xB6  // ж
    case 0x0437 => 0xB7  // з
    case 0x0438 => 0xB8  // и
    case 0x0439 => 0xB9  // й
    case 0x043A => 0xBA  // к
    case 0x043B => 0xBB  // л
    case 0x043C => 0xBC  // м
    case 0x043D => 0xBD  // н
    case 0x043E => 0x6F  // о
    case 0x043F => 0xBE  // п
    case 0x0440 => 0x70  // р
    case 0x0441 => 0x63  // с
    case 0x0442 => 0xBF  // т
    case 0x0443 => 0x79  // у
    case 0x0444 => 0xAA  // ф
    case 0x0445 => 0x78  // х
    case 0x0446 => 0x63  // ц
    case 0x0447 => 0xC0  // ч
    case 0x0448 => 0xC1  // ш
    case 0x0449 => 0xC1  // щ
    case 0x044A => 0xC2  // ъ
    case 0x044B => 0xC3  // ы
    case 0x044C => 0xC4  // ь
    case 0x044D => 0xC5  // э
    case 0x044E => 0xC6  // ю
    case 0x044F => 0xC7  // я
    case _ => QMARK
  }

  /** `unicodeToLcdByte`: Ё shares Е's code 0x45, ё maps to 0xB5, ь has an
      explicit 0xC4 ahead of the table, and every other code point outside
      U+0410..U+044F is '?'. */
  function UnicodeToLcdByte(cp: int): (r: u8)
    ensures cp == 0x0401 ==> r == 0x45
    ensures cp == 0x0451 ==> r == 0xB5
    ensures 0x0410 <= cp <= 0x044F ==> r == CyrillicCode(cp) && r != QMARK
    ensures !(0x0410 <= cp <= 0x044F) && cp != 0x0401 && cp != 0x0451 ==> r == QMARK
  {
    if cp == 0x0401 then 0x45
    else if cp == 0x0451 then 0xB5
    else if cp == 0x044C then 0xC4
    else CyrillicCode(cp)
  }

  /** The explicit checks for ь, in `unicodeToLcdByte` and for the bytes
      D1 8C in the converter, agree with the table entry for U+044C. */
  lemma SoftSignShortcutAgrees()
    ensures CyrillicCode(0x044C) == 0xC4
    ensures UnicodeToLcdByte(CodePoint(0xD1, 0x8C)) == 0xC4
  {
  }

  /** `((c1 & 0x1F) << 6) | (c2 & 0x3F)`: the two masked fields do not overlap,
      so the OR is a sum. */
  function CodePoint(c1: u8, c2: u8): int
  {
    (c1 % 32) * 64 + c2 % 64
  }

  /** One turn of the conversion loop on the unread input `t`: the byte it
      emits and how many input bytes it consumes. */
  function Step(t: seq<u8>): (r: (u8, nat))
    requires |t| > 0
    ensures r.1 == 1 || (r.1 == 2 && |t| >= 2)
    ensures t[0] < 128 ==> r == (t[0], 1)
    ensures t[0] >= 128 && |t| == 1 ==> r == (QMARK, 1)
    ensures r.1 == 2 <==> |t| >= 2 && (t[0] == 0xD0 || t[0] == 0xD1) && 0x80 <= t[1] <= 0xBF
    // a recognised pair emits the display code of its code point; any other
    // non-ASCII byte emits '?' and is consumed alone
    ensures r.1 == 2 ==> r.0 == UnicodeToLcdByte(CodePoint(t[0], t[1]))
    ensures t[0] >= 128 && r.1 == 1 ==> r.0 == QMARK
  {
    var c1 := t[0];
    if c1 < 128 then (c1, 1)
    else if |t| == 1 then (QMARK, 1)
    else
      var c2 := t[1];
      if c1 == 0xD0 && 0x80 <= c2 <= 0xBF then (UnicodeToLcdByte(CodePoint(c1, c2)), 2)
      else if c1 == 0xD1 && c2 == 0x8C then (0xC4, 2)
      else if c1 == 0xD1 && 0x80 <= c2 <= 0xBF then (UnicodeToLcdByte(CodePoint(c1, c2)), 2)
      else (QMARK, 1)
  }

  /** The whole conversion with an unbounded destination: one output byte
      per step, so never longer than the input. */
  function Transcode(t: seq<u8>): (out: seq<u8>)
    ensures |out| <= |t|
    decreases |t|
  {
    if t == [] then [] else [Step(t).0] + Transcode(t[Step(t).1..])
  }

  /** ASCII text is copied unchanged. */
  lemma {:induction false} AsciiUnchanged(t: seq<u8>)
    requires forall k :: 0 <= k < |t| ==> t[k] < 128
    ensures Transcode(t) == t
  {
    if t != [] {
      AsciiUnchanged(t[1..]);
    }
  }

  /** Text without a D0 or D1 lead byte keeps its length: ASCII bytes are
      copied and every other byte becomes '?'. */
  lemma {:induction false} NonCyrillicMarked(t: seq<u8>)
    requires forall k :: 0 <= k < |t| ==> t[k] != 0xD0 && t[k] != 0xD1
    ensures Transcode(t) == seq(|t|, k requires 0 <= k < |t| => if t[k] < 128 then t[k] else QMARK)
  {
    if t != [] {
      NonCyrillicMarked(t[1..]);
    }
  }

  /** The UTF-8 encoding of a code point in U+0400..U+047F: lead byte 0xD0
      or 0xD1, then a continuation byte. */
  function EncodeCyrillic(cp: int): (b: seq<u8>)
    requires 0x0400 <= cp <= 0x047F
    ensures |b| == 2 && (b[0] == 0xD0 || b[0] == 0xD1) && 0x80 <= b[1] <= 0xBF
  {
    [0xC0 + cp / 64, 0x80 + cp % 64]
  }

  function EncodeAll(cps: seq<int>): (b: seq<u8>)
    requires forall k :: 0 <= k < |cps| ==> 0x0400 <= cps[k] <= 0x047F
  {
    if cps == [] then [] else EncodeCyrillic(cps[0]) + EncodeAll(cps[1..])
  }

  /** Decoding inverts the UTF-8 encoding: a string of Cyrillic code points
      comes out as their display codes, one byte per letter (the ь shortcut
      included). */
  lemma {:induction false} CyrillicDecodes(cps: seq<int>)
    requires forall k :: 0 <= k < |cps| ==> 0x0400 <= cps[k] <= 0x047F
    ensures Transcode(EncodeAll(cps)) == seq(|cps|, k requires 0 <= k < |cps| => UnicodeToLcdByte(cps[k]))
  {
    if cps != [] {
      var cp, rest := cps[0], EncodeAll(cps[1..]);
      var b := EncodeAll(cps);
      assert b == EncodeCyrillic(cp) + rest;
      StepOnEncoded(cp, rest);
      assert b[2..] == rest;
      CyrillicDecodes(cps[1..]);
      assert Transcode(b) == [UnicodeToLcdByte(cp)] + Transcode(rest);
    }
  }

  /** One step reads an encoded code point back as its display code. */
  lemma StepOnEncoded(cp: int, rest: seq<u8>)
    requires 0x0400 <= cp <= 0x047F
    ensures Step(EncodeCyrillic(cp) + rest) == (UnicodeToLcdByte(cp), 2)
  {
    var b := EncodeCyrillic(cp) + rest;
    assert b[0] == EncodeCyrillic(cp)[0] && b[1] == EncodeCyrillic(cp)[1];
    assert CodePoint(b[0], b[1]) == cp;
  }

  /** The body of the conversion loop at input position `i`: the byte to
      emit and the number of input bytes consumed. */
  method DecodeAt(src: seq<u8>, i: nat, srcLen: nat) returns (b: u8, n: nat)
    requires i < srcLen <= |src|
    ensures (b, n) == Step(src[i..srcLen])
  {
    ghost var t := src[i..srcLen];
    var c1 := src[i];
    if c1 < 128 {
      return c1, 1;
    }
    if i + 1 >= srcLen {
      return QMARK, 1;
    }
    var c2 := src[i + 1];
    assert t[0] == c1 && t[1] == c2;
    if c1 == 0xD0 && 0x80 <= c2 <= 0xBF {
      return UnicodeToLcdByte(CodePoint(c1, c2)), 2;
    }
    if c1 == 0xD1 {
      if c2 == 0x8C {
        return 0xC4, 2;
      }
      if 0x80 <= c2 <= 0xBF {
        return UnicodeToLcdByte(CodePoint(c1, c2)), 2;
      }
    }
    return QMARK, 1;
  }

  /** `utf8ToLcdEncoding`: convert from the left until the input ends or
      `destSize - 1` bytes are written, then terminate. The written bytes are
      the start of the unbounded conversion; nothing past the terminator
      changes. */
  method Utf8ToLcdEncoding(dest: array<u8>, src: seq<u8>, destSize: nat)
    requires 1 <= destSize <= dest.Length
    modifies dest
    ensures var out := Transcode(src[..StrLen(src, 0)]);
            var n := Min(|out|, destSize - 1);
            && dest[..n] == out[..n]
            && dest[n] == 0
            && dest[n + 1..] == old(dest[n + 1..])
  {
    var srcLen := StrLen(src, 0);
    var j := ConvertPrefix(dest, src, srcLen, destSize);
    ghost var written := dest[..j];
    dest[j] := 0;
    assert dest[..j] == written;
  }

  /** The conversion loop of `utf8ToLcdEncoding`: it stops when the input
      ends or `destSize - 1` bytes are written, and returns how many were
      written; the bytes from there on are untouched. */
  method ConvertPrefix(dest: array<u8>, src: seq<u8>, srcLen: nat, destSize: nat) returns (j: nat)
    requires srcLen <= |src| && 1 <= destSize <= dest.Length
    modifies dest
    ensures j == Min(|Transcode(src[..srcLen])|, destSize - 1)
    ensures dest[..j] == Transcode(src[..srcLen])[..j]
    ensures forall k :: j <= k < dest.Length ==> dest[k] == old(dest[k])
  {
    ghost var out := Transcode(src[..srcLen]);
    var i := 0;
    j := 0;
    ghost var done: seq<u8> := [];
    assert src[0..srcLen] == src[..srcLen];
    while i < srcLen && j < destSize - 1
      invariant 0 <= i <= srcLen && 0 <= j <= destSize - 1 && |done| == j
      invariant dest[..j] == done && out == done + Transcode(src[i..srcLen])
      invariant forall k :: j <= k < dest.Length ==> dest[k] == old(dest[k])
    {
      var b, n := DecodeAt(src, i, srcLen);
      TranscodeAdvance(src, srcLen, i, out, done, b, n);
      dest[j] := b;
      done := done + [b];
      j, i := j + 1, i + n;
    }
    FinishPrefix(src, srcLen, i, done, destSize);
  }

  /** At loop exit the written prefix is as long as the bounded output. */
  lemma FinishPrefix(src: seq<u8>, srcLen: nat, i: nat, done: seq<u8>, destSize: nat)
    requires i <= srcLen <= |src| && 1 <= destSize && |done| <= destSize - 1
    requires i == srcLen || |done| == destSize - 1
    requires Transcode(src[..srcLen]) == done + Transcode(src[i..srcLen])
    ensures Min(|Transcode(src[..srcLen])|, destSize - 1) == |done|
    ensures Transcode(src[..srcLen])[..|done|] == done
  {
    if i == srcLen {
      assert src[i..srcLen] == [];
    }
  }

  /** One turn of the loop keeps "written bytes followed by the conversion
      of the rest is the whole conversion". */
  lemma TranscodeAdvance(src: seq<u8>, srcLen: nat, i: nat, out: seq<u8>, done: seq<u8>, b: u8, n: nat)
    requires i < srcLen <= |src| && (b, n) == Step(src[i..srcLen])
    requires out == done + Transcode(src[i..srcLen])
    ensures i + n <= srcLen
    ensures out == (done + [b]) + Transcode(src[i + n..srcLen])
  {
    assert src[i..srcLen][n..] == src[i + n..srcLen];
  }

  /** `uiConvertUtf8ToAscii` is `utf8ToLcdEncoding` under a public name. */
  method ConvertUtf8ToAscii(dest: array<u8>, src: seq<u8>, destSize: nat)
    requires 1 <= destSize <= dest.Length
    modifies dest
    ensures var out := Transcode(src[..StrLen(src, 0)]);
            var n := Min(|out|, destSize - 1);
            && dest[..n] == out[..n]
            && dest[n] == 0
            && dest[n + 1..] == old(dest[n + 1..])
  {
    Utf8ToLcdEncoding(dest, src, destSize);
  }
}
