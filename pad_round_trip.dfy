/**
 * The dimensions file is written by the asset-generation script and read by the viewer: what the viewer
 * reads back from a written file is the three numerals written, with the values written.
 */
module PadRoundTrip {
  import opened Options
  import opened Text
  import opened PadParser
  import opened GripGenPad

  /** Neither header line contains the letter X in either case, so no match can start inside the header. */
  lemma HeaderHasNoKey()
    ensures forall q :: 0 <= q < |TitleLine + RuleLine| ==> !IsKey((TitleLine + RuleLine)[q], 'X', 'x')
  {
  }

  /** A dimensions file: a header, then the `X`, `Y` and `Z` lines. */
  function Layout(header: string, x: string, y: string, z: string): string {
    header + "X: " + x + "\nY: " + y + "\nZ: " + z + "\n"
  }

  /** Where the pieces of such a file stand: the occurrence of the expression the viewer looks for. */
  function LayoutOccurrence(h: nat, nx: nat, ny: nat, nz: nat): Occurrence {
    Occurrence(h, h + 3, h + 3 + nx, h + 4 + nx, h + 7 + nx, h + 7 + nx + ny,
               h + 8 + nx + ny, h + 11 + nx + ny, h + 11 + nx + ny + nz)
  }

  /** The characters around the numerals. */
  lemma LayoutChars(header: string, x: string, y: string, z: string)
    ensures var text, h, nx, ny, nz := Layout(header, x, y, z), |header|, |x|, |y|, |z|;
      && |text| == h + 12 + nx + ny + nz
      && text[h] == 'X' && text[h + 1] == ':' && text[h + 2] == ' '
      && text[h + 3 + nx] == '\n' && text[h + 4 + nx] == 'Y' && text[h + 5 + nx] == ':' && text[h + 6 + nx] == ' '
      && text[h + 7 + nx + ny] == '\n' && text[h + 8 + nx + ny] == 'Z' && text[h + 9 + nx + ny] == ':' && text[h + 10 + nx + ny] == ' '
      && text[h + 11 + nx + ny + nz] == '\n'
  {
  }
  /** The header and the numerals, where they stand. */
  lemma LayoutSlices(header: string, x: string, y: string, z: string)
    ensures var text, h, nx, ny, nz := Layout(header, x, y, z), |header|, |x|, |y|, |z|;
      && text[..h] == header
      && text[h + 3..h + 3 + nx] == x
      && text[h + 7 + nx..h + 7 + nx + ny] == y
      && text[h + 11 + nx + ny..h + 11 + nx + ny + nz] == z
  {
    var t1 := header + "X: ";
    var t2 := t1 + x;
    var t3 := t2 + "\nY: ";
    var t4 := t3 + y;
    var t5 := t4 + "\nZ: ";
    var t6 := t5 + z;
    var text := t6 + "\n";
    assert text[..|t6|] == t6;
    assert t6[..|t5|] == t5;
    assert t5[..|t4|] == t4;
    assert t4[..|t3|] == t3;
    assert t3[..|t2|] == t2;
    assert t2[..|t1|] == t1;
    assert t1[..|header|] == header;
    assert t2[|t1|..] == x;
    assert t4[|t3|..] == y;
    assert t6[|t5|..] == z;
  }
  /** Such a file contains a greedy occurrence of the expression right after its header. */
  lemma LayoutOccurs(header: string, x: string, y: string, z: string)
    requires x != [] && AllDigits(x) && y != [] && AllDigits(y) && z != [] && AllDigits(z)
    ensures var text, o := Layout(header, x, y, z), LayoutOccurrence(|header|, |x|, |y|, |z|);
      OccursAt(text, o) && Greedy(text, o) && Groups(text, o) == PadDimensions(x, y, z)
  {
    LayoutChars(header, x, y, z);
    LayoutSlices(header, x, y, z);
    PiecesOccur(Layout(header, x, y, z), |header|, x, y, z);
  }

  /** A text holding the pieces of a dimensions file after `h` characters holds the expression there. */
  lemma PiecesOccur(text: string, h: nat, x: string, y: string, z: string)
    requires x != [] && AllDigits(x) && y != [] && AllDigits(y) && z != [] && AllDigits(z)
    requires var nx, ny, nz := |x|, |y|, |z|;
      && |text| == h + 12 + nx + ny + nz
      && text[h] == 'X' && text[h + 1] == ':' && text[h + 2] == ' '
      && text[h + 3 + nx] == '\n' && text[h + 4 + nx] == 'Y' && text[h + 5 + nx] == ':' && text[h + 6 + nx] == ' '
      && text[h + 7 + nx + ny] == '\n' && text[h + 8 + nx + ny] == 'Z' && text[h + 9 + nx + ny] == ':' && text[h + 10 + nx + ny] == ' '
      && text[h + 11 + nx + ny + nz] == '\n'
      && text[h + 3..h + 3 + nx] == x
      && text[h + 7 + nx..h + 7 + nx + ny] == y
      && text[h + 11 + nx + ny..h + 11 + nx + ny + nz] == z
    ensures var o := LayoutOccurrence(h, |x|, |y|, |z|);
      OccursAt(text, o) && Greedy(text, o) && Groups(text, o) == PadDimensions(x, y, z)
  {
    var o := LayoutOccurrence(h, |x|, |y|, |z|);
    KeyedDigits(text, o.start, 'X', 'x', x);
    LineBreak(text, o.xTo);
    KeyedDigits(text, o.yAt, 'Y', 'y', y);
    LineBreak(text, o.yTo);
    KeyedDigits(text, o.zAt, 'Z', 'z', z);
  }

  /** `K: ` followed by a numeral at position `at`: the key, the space and the group of the expression. */
  lemma KeyedDigits(text: string, at: nat, upper: char, lower: char, digits: string)
    requires at + 3 + |digits| <= |text| && text[at] == upper && text[at + 1] == ':' && text[at + 2] == ' '
    requires text[at + 3..at + 3 + |digits|] == digits && AllDigits(digits)
    ensures KeyAt(text, at, upper, lower) && WhitespaceBetween(text, at + 2, at + 3)
    ensures NumberCharsBetween(text, at + 3, at + 3 + |digits|)
  {
    DigitsPlaced(text, at + 3, digits);
  }

  /** A line feed is a `\s*[\r\n]+`, and it ends a greedy number. */
  lemma LineBreak(text: string, at: nat)
    requires at < |text| && text[at] == '\n'
    ensures BreakBetween(text, at, at + 1) && !IsNumberChar(text[at])
  {
  }

  /** No match of the expression can start inside a header without the letter X. */
  lemma NoMatchInHeader(header: string, x: string, y: string, z: string)
    requires forall q :: 0 <= q < |header| ==> !IsKey(header[q], 'X', 'x')
    ensures forall q :: 0 <= q < |header| ==> MatchAt(Layout(header, x, y, z), q).None?
  {
    var text := Layout(header, x, y, z);
    LayoutSlices(header, x, y, z);
    forall q | 0 <= q < |header| ensures MatchAt(text, q).None? {
      assert text[q] == header[q];
      assert !KeyAt(text, q, 'X', 'x');
    }
  }

  /** After a header without the letter X, the viewer reads exactly the three numerals of the file. */
  lemma LayoutParses(header: string, x: string, y: string, z: string)
    requires forall q :: 0 <= q < |header| ==> !IsKey(header[q], 'X', 'x')
    requires x != [] && AllDigits(x) && y != [] && AllDigits(y) && z != [] && AllDigits(z)
    ensures ParsePadDimensions(Layout(header, x, y, z)) == Some(PadDimensions(x, y, z))
  {
    LayoutOccurs(header, x, y, z);
    NoMatchInHeader(header, x, y, z);
    ParseLeftmost(Layout(header, x, y, z), LayoutOccurrence(|header|, |x|, |y|, |z|));
  }

  /** Parsing the text `save_pad_dimensions` writes gives back the three numerals it wrote. */
  lemma WrittenFileParses(d: MmDims)
    ensures ParsePadDimensions(PadDimensionsText(d)) == Some(PadDimensions(NatToString(d.x), NatToString(d.y), NatToString(d.z)))
  {
    var x, y, z := NatToString(d.x), NatToString(d.y), NatToString(d.z);
    assert PadDimensionsText(d) == Layout(TitleLine + RuleLine, x, y, z);
    HeaderHasNoKey();
    LayoutParses(TitleLine + RuleLine, x, y, z);
  }

  /** A numeral placed in the text is a run `[0-9.]*` can consume. */
  lemma DigitsPlaced(text: string, at: nat, digits: string)
    requires at + |digits| <= |text| && text[at..at + |digits|] == digits && AllDigits(digits)
    ensures NumberCharsBetween(text, at, at + |digits|)
  {
    forall k | at <= k < at + |digits| ensures IsNumberChar(text[k]) {
      assert text[k] == digits[k - at];
    }
    NumberCharsFromChars(text, at, at + |digits|);
  }

  /** The numbers the viewer reads from a written file have the values that were written. */
  lemma WrittenValuesRead(d: MmDims)
    ensures var r := ParsePadDimensions(PadDimensionsText(d));
      && r.Some? && AllDigits(r.value.x) && AllDigits(r.value.y) && AllDigits(r.value.z)
      && DigitsValue(r.value.x) == d.x && DigitsValue(r.value.y) == d.y && DigitsValue(r.value.z) == d.z
  {
    WrittenFileParses(d);
    NatToStringValue(d.x);
    NatToStringValue(d.y);
    NatToStringValue(d.z);
  }
}
