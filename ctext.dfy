/** NUL-terminated character buffers as the UI code fills them. A C string is
    held as a sequence; it ends at its first NUL, or at the end of the sequence. */
module CText {
  const NUL: char := '\0'

  /** `strlen`: the number of elements before the first terminator `nul`
      (NUL for characters, 0 for bytes). */
  function StrLen<T(==)>(s: seq<T>, nul: T): (n: nat)
    ensures n <= |s|
    ensures forall i :: 0 <= i < n ==> s[i] != nul
    ensures n < |s| ==> s[n] == nul
  {
    if s == [] || s[0] == nul then 0 else 1 + StrLen(s[1..], nul)
  }

  /** The first `width` characters of a padded line: the string up to its NUL
      (at most `width` of it), then spaces. */
  function Padded(s: seq<char>, width: nat): (r: seq<char>)
  {
    var n := if StrLen(s, NUL) < width then StrLen(s, NUL) else width;
    s[..n] + seq(width - n, _ => ' ')
  }

  lemma PaddedAt(s: seq<char>, width: nat, i: nat)
    requires i < width
    ensures |Padded(s, width)| == width
    ensures Padded(s, width)[i] == if i < StrLen(s, NUL) then s[i] else ' '
  {
  }

  /** The padding loops of `pad19` and `pad20`: copy until NUL or `width`
      characters, fill the rest with spaces, terminate with NUL. */
  method PadInto(out: array<char>, s: seq<char>, width: nat)
    requires out.Length == width + 1
    modifies out
    ensures out[..] == Padded(s, width) + [NUL]
  {
    var i := 0;
    while i < width && i < |s| && s[i] != NUL
      invariant 0 <= i <= width && i <= StrLen(s, NUL)
      invariant forall k :: 0 <= k < i ==> out[k] == s[k]
    {
      out[i] := s[i];
      i := i + 1;
    }
    assert i == width || i == StrLen(s, NUL);
    while i < width
      invariant 0 <= i <= width
      invariant forall k :: 0 <= k < i ==> out[k] == if k < StrLen(s, NUL) then s[k] else ' '
    {
      out[i] := ' ';
      i := i + 1;
    }
    out[width] := NUL;
    forall k | 0 <= k < width + 1
      ensures out[..][k] == (Padded(s, width) + [NUL])[k]
    {
      if k < width { PaddedAt(s, width, k); }
    }
  }
}
