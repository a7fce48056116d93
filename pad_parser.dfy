/**
 * The reader of `pad_dimensions.txt` in the viewer (`parsePadDimensions`): a case-insensitive search for
 * the first place where the text reads
 *   X: <number> <line break> Y: <number> <line break> Z: <number>
 * with optional whitespace after each colon and before each line break, where a number is a nonempty
 * run of digits and dots. The regular expression is modelled by a deterministic scan over positions of
 * the text, proved sound and complete against `OccursAt`, the declarative reading of the expression.
 */
module PadParser {
  import opened Options
  import opened Text

  /** The three captured groups; they stay strings, as in the source. */
  datatype PadDimensions = PadDimensions(x: string, y: string, z: string)

  /** The class `[0-9.]`. */
  predicate IsNumberChar(c: char) {
    IsDigit(c) || c == '.'
  }

  predicate AllNumberChars(s: string) {
    forall i :: 0 <= i < |s| ==> IsNumberChar(s[i])
  }

  predicate IsLineBreak(c: char) {
    c == '\r' || c == '\n'
  }

  /** A key letter of the expression under the `i` flag. */
  predicate IsKey(c: char, upper: char, lower: char) {
    c == upper || c == lower
  }

  // ---------------------------------------------------------------------------
  // The declarative reading of the expression, over positions of the text

  /** `\s*` matches `text[i..j]`. */
  predicate WhitespaceBetween(text: string, i: nat, j: nat)
    decreases j - i
  {
    i <= j <= |text| && (i == j || (IsJsWhitespace(text[i]) && WhitespaceBetween(text, i + 1, j)))
  }

  /** `[0-9.]*` matches `text[i..j]`. */
  predicate NumberCharsBetween(text: string, i: nat, j: nat)
    decreases j - i
  {
    i <= j <= |text| && (i == j || (IsNumberChar(text[i]) && NumberCharsBetween(text, i + 1, j)))
  }

  /** `\s*[\r\n]+` matches `text[i..j]`: nonempty whitespace whose last character is a line break. */
  predicate BreakBetween(text: string, i: nat, j: nat) {
    i < j && WhitespaceBetween(text, i, j) && IsLineBreak(text[j - 1])
  }

  /** `K:` (either case of the letter) at position `i`. */
  predicate KeyAt(text: string, i: nat, upper: char, lower: char) {
    i + 1 < |text| && IsKey(text[i], upper, lower) && text[i + 1] == ':'
  }

  /**
   * One way the expression can match: it starts at `start`, the three groups are `text[xFrom..xTo]`,
   * `text[yFrom..yTo]` and `text[zFrom..zTo]`, and the `Y` and `Z` keys stand at `yAt` and `zAt`.
   */
  datatype Occurrence = Occurrence(
    start: nat, xFrom: nat, xTo: nat,
    yAt: nat, yFrom: nat, yTo: nat,
    zAt: nat, zFrom: nat, zTo: nat)

  predicate OccursAt(text: string, o: Occurrence) {
    && KeyAt(text, o.start, 'X', 'x') && WhitespaceBetween(text, o.start + 2, o.xFrom)
    && o.xFrom < o.xTo && NumberCharsBetween(text, o.xFrom, o.xTo) && BreakBetween(text, o.xTo, o.yAt)
    && KeyAt(text, o.yAt, 'Y', 'y') && WhitespaceBetween(text, o.yAt + 2, o.yFrom)
    && o.yFrom < o.yTo && NumberCharsBetween(text, o.yFrom, o.yTo) && BreakBetween(text, o.yTo, o.zAt)
    && KeyAt(text, o.zAt, 'Z', 'z') && WhitespaceBetween(text, o.zAt + 2, o.zFrom)
    && o.zFrom < o.zTo && NumberCharsBetween(text, o.zFrom, o.zTo)
  }

  /** The greedy last group takes every digit or dot that follows it. */
  predicate Greedy(text: string, o: Occurrence) {
    o.zTo == |text| || (o.zTo < |text| && !IsNumberChar(text[o.zTo]))
  }

  function Groups(text: string, o: Occurrence): PadDimensions
    requires o.xFrom <= o.xTo <= |text| && o.yFrom <= o.yTo <= |text| && o.zFrom <= o.zTo <= |text|
  {
    PadDimensions(text[o.xFrom..o.xTo], text[o.yFrom..o.yTo], text[o.zFrom..o.zTo])
  }

  // ---------------------------------------------------------------------------
  // The scan

  /** End of the longest whitespace run from `i` (a greedy `\s*`). */
  function WhitespaceEnd(text: string, i: nat): (j: nat)
    requires i <= |text|
    ensures WhitespaceBetween(text, i, j)
    ensures j == |text| || !IsJsWhitespace(text[j])
    decreases |text| - i
  {
    if i == |text| || !IsJsWhitespace(text[i]) then i else WhitespaceEnd(text, i + 1)
  }

  /** End of the longest `[0-9.]` run from `i` (a greedy `[0-9.]*`). */
  function NumberEnd(text: string, i: nat): (j: nat)
    requires i <= |text|
    ensures NumberCharsBetween(text, i, j)
    ensures j == |text| || !IsNumberChar(text[j])
    decreases |text| - i
  {
    if i == |text| || !IsNumberChar(text[i]) then i else NumberEnd(text, i + 1)
  }

  /** `K:\s*([0-9.]+)` at position `i`: where the group starts and ends. */
  function KeyedNumberAt(text: string, i: nat, upper: char, lower: char): (r: Option<(nat, nat)>)
  {
    if KeyAt(text, i, upper, lower) then
      var from := WhitespaceEnd(text, i + 2);
      var to := NumberEnd(text, from);
      if from < to then Some((from, to)) else None
    else None
  }

  /** `\s*[\r\n]+` at position `i`, when a key letter must follow: where the next key stands. */
  function BreakEnd(text: string, i: nat): (r: Option<nat>)
    requires i <= |text|
  {
    var j := WhitespaceEnd(text, i);
    if i < j && IsLineBreak(text[j - 1]) then Some(j) else None
  }

  /** The match of the expression anchored at position `p`, if any. */
  function MatchAt(text: string, p: nat): (r: Option<Occurrence>)
  {
    match KeyedNumberAt(text, p, 'X', 'x')
    case None => None
    case Some(x) =>
      match BreakEnd(text, x.1)
      case None => None
      case Some(yAt) =>
        match KeyedNumberAt(text, yAt, 'Y', 'y')
        case None => None
        case Some(y) =>
          match BreakEnd(text, y.1)
          case None => None
          case Some(zAt) =>
            match KeyedNumberAt(text, zAt, 'Z', 'z')
            case None => None
            case Some(z) => Some(Occurrence(p, x.0, x.1, yAt, y.0, y.1, zAt, z.0, z.1))
  }

  /** The leftmost index from `p` on where `hits` holds: the search loop of a regular-expression engine. */
  function FirstHit(hits: seq<bool>, p: nat): (r: Option<nat>)
    requires p <= |hits|
    ensures r.Some? ==> p <= r.value < |hits| && hits[r.value]
    ensures r.Some? ==> forall q :: p <= q < r.value ==> !hits[q]
    ensures r.None? ==> forall q :: p <= q < |hits| ==> !hits[q]
    decreases |hits| - p
  {
    if p == |hits| then None
    else if hits[p] then Some(p)
    else FirstHit(hits, p + 1)
  }

  /** Where the expression matches, position by position (a match may start at the very end). */
  function MatchPositions(text: string): (hits: seq<bool>)
    ensures |hits| == |text| + 1
    ensures forall q :: 0 <= q <= |text| ==> hits[q] == MatchAt(text, q).Some?
  {
    seq(|text| + 1, q requires 0 <= q => MatchAt(text, q).Some?)
  }

  /** The leftmost position where the expression matches. */
  function FirstMatch(text: string): (r: Option<nat>)
    ensures r.Some? ==> r.value <= |text| && MatchAt(text, r.value).Some?
    ensures r.Some? ==> forall q :: 0 <= q < r.value ==> MatchAt(text, q).None?
    ensures r.None? ==> forall q :: 0 <= q <= |text| ==> MatchAt(text, q).None?
  {
    FirstHit(MatchPositions(text), 0)
  }

  /** The occurrence the expression finds: the greedy match at the leftmost position that matches. */
  function FindOccurrence(text: string): (r: Option<Occurrence>)
    ensures r.None? <==> forall q :: 0 <= q <= |text| ==> MatchAt(text, q).None?
  {
    match FirstMatch(text)
    case None => None
    case Some(p) => MatchAt(text, p)
  }

  /**
   * `parsePadDimensions(text)`: the three groups of the occurrence found, or `None` (the source's `null`)
   * when the expression matches nowhere in the text.
   */
  function ParsePadDimensions(text: string): (r: Option<PadDimensions>)
    ensures r.None? <==> forall q :: 0 <= q <= |text| ==> MatchAt(text, q).None?
  {
    match FindOccurrence(text)
    case None => None
    case Some(o) =>
      MatchAtSound(text, o.start);
      Some(Groups(text, o))
  }

  // ---------------------------------------------------------------------------
  // Soundness and completeness of the scan

  lemma KeyedNumberAtSound(text: string, i: nat, upper: char, lower: char)
    requires KeyedNumberAt(text, i, upper, lower).Some?
    ensures var r := KeyedNumberAt(text, i, upper, lower).value;
      && KeyAt(text, i, upper, lower) && WhitespaceBetween(text, i + 2, r.0)
      && r.0 < r.1 && NumberCharsBetween(text, r.0, r.1)
      && (r.1 == |text| || !IsNumberChar(text[r.1]))
  {
  }

  lemma BreakEndSound(text: string, i: nat)
    requires i <= |text| && BreakEnd(text, i).Some?
    ensures BreakBetween(text, i, BreakEnd(text, i).value)
  {
  }

  /** Every match the scan reports is a greedy occurrence of the expression at that position. */
  lemma MatchAtSound(text: string, p: nat)
    requires MatchAt(text, p).Some?
    ensures MatchAt(text, p).value.start == p
    ensures OccursAt(text, MatchAt(text, p).value) && Greedy(text, MatchAt(text, p).value)
  {
    var x := KeyedNumberAt(text, p, 'X', 'x').value;
    KeyedNumberAtSound(text, p, 'X', 'x');
    var yAt := BreakEnd(text, x.1).value;
    BreakEndSound(text, x.1);
    var y := KeyedNumberAt(text, yAt, 'Y', 'y').value;
    KeyedNumberAtSound(text, yAt, 'Y', 'y');
    var zAt := BreakEnd(text, y.1).value;
    BreakEndSound(text, y.1);
    KeyedNumberAtSound(text, zAt, 'Z', 'z');
  }

  /** A whitespace run followed by a non-whitespace character is exactly what `\s*` consumes. */
  lemma {:induction false} WhitespaceEndExact(text: string, i: nat, j: nat)
    requires WhitespaceBetween(text, i, j) && (j == |text| || !IsJsWhitespace(text[j]))
    ensures WhitespaceEnd(text, i) == j
    decreases j - i
  {
    if i < j {
      WhitespaceEndExact(text, i + 1, j);
    }
  }

  /** The greedy `[0-9.]*` consumes at least any run of digits and dots, and exactly a run that ends. */
  lemma {:induction false} NumberEndExact(text: string, i: nat, j: nat)
    requires NumberCharsBetween(text, i, j)
    ensures NumberEnd(text, i) >= j
    ensures j == |text| || !IsNumberChar(text[j]) ==> NumberEnd(text, i) == j
    decreases j - i
  {
    if i < j {
      NumberEndExact(text, i + 1, j);
    }
  }

  /** A number run read off the text is a string of digits and dots. */
  lemma {:induction false} NumberCharsSlice(text: string, i: nat, j: nat)
    requires NumberCharsBetween(text, i, j)
    ensures AllNumberChars(text[i..j])
    decreases j - i
  {
    if i < j {
      NumberCharsSlice(text, i + 1, j);
      assert text[i..j] == [text[i]] + text[i + 1..j];
    }
  }

  /** A stretch of digits and dots in the text is a run `[0-9.]*` can consume. */
  lemma {:induction false} NumberCharsFromChars(text: string, i: nat, j: nat)
    requires i <= j <= |text| && forall k :: i <= k < j ==> IsNumberChar(text[k])
    ensures NumberCharsBetween(text, i, j)
    decreases j - i
  {
    if i < j {
      NumberCharsFromChars(text, i + 1, j);
    }
  }

  lemma KeyedNumberAtComplete(text: string, i: nat, upper: char, lower: char, from: nat, to: nat)
    requires KeyAt(text, i, upper, lower) && WhitespaceBetween(text, i + 2, from)
    requires from < to && NumberCharsBetween(text, from, to)
    ensures NumberEnd(text, from) >= to
    ensures KeyedNumberAt(text, i, upper, lower) == Some((from, NumberEnd(text, from)))
  {
    WhitespaceEndExact(text, i + 2, from);
    NumberEndExact(text, from, to);
  }

  lemma BreakEndComplete(text: string, i: nat, j: nat, upper: char, lower: char)
    requires BreakBetween(text, i, j) && KeyAt(text, j, upper, lower)
    requires !IsJsWhitespace(upper) && !IsJsWhitespace(lower)
    ensures BreakEnd(text, i) == Some(j)
  {
    WhitespaceEndExact(text, i, j);
  }

  /**
   * Wherever the expression can match, the scan matches there with the same positions, except that the
   * last group may be longer: the greedy `[0-9.]+` takes every digit or dot that follows.
   */
  lemma MatchAtComplete(text: string, o: Occurrence)
    requires OccursAt(text, o)
    ensures MatchAt(text, o.start) == Some(o.(zTo := NumberEnd(text, o.zFrom)))
    ensures NumberEnd(text, o.zFrom) >= o.zTo
    ensures Greedy(text, o) ==> MatchAt(text, o.start) == Some(o)
  {
    KeyedNumberAtComplete(text, o.start, 'X', 'x', o.xFrom, o.xTo);
    NumberEndExact(text, o.xFrom, o.xTo);
    assert KeyedNumberAt(text, o.start, 'X', 'x') == Some((o.xFrom, o.xTo));
    BreakEndComplete(text, o.xTo, o.yAt, 'Y', 'y');
    KeyedNumberAtComplete(text, o.yAt, 'Y', 'y', o.yFrom, o.yTo);
    NumberEndExact(text, o.yFrom, o.yTo);
    assert KeyedNumberAt(text, o.yAt, 'Y', 'y') == Some((o.yFrom, o.yTo));
    BreakEndComplete(text, o.yTo, o.zAt, 'Z', 'z');
    KeyedNumberAtComplete(text, o.zAt, 'Z', 'z', o.zFrom, o.zTo);
    NumberEndExact(text, o.zFrom, o.zTo);
  }

  /**
   * What the parser returns is the groups of a greedy occurrence of the expression that no earlier
   * position of the text can start: three nonempty strings of digits and dots.
   */
  lemma ParseSound(text: string)
    requires ParsePadDimensions(text).Some?
    ensures FindOccurrence(text).Some?
    ensures var o := FindOccurrence(text).value;
      && OccursAt(text, o) && Greedy(text, o)
      && ParsePadDimensions(text) == Some(Groups(text, o))
      && forall q :: 0 <= q < o.start ==> MatchAt(text, q).None?
    ensures var d := ParsePadDimensions(text).value;
      && d.x != [] && AllNumberChars(d.x) && d.y != [] && AllNumberChars(d.y) && d.z != [] && AllNumberChars(d.z)
  {
    var p := FirstMatch(text).value;
    var o := MatchAt(text, p).value;
    MatchAtSound(text, p);
    NumberCharsSlice(text, o.xFrom, o.xTo);
    NumberCharsSlice(text, o.yFrom, o.yTo);
    NumberCharsSlice(text, o.zFrom, o.zTo);
  }

  /**
   * A greedy occurrence that no earlier position can start is what the parser reads: the occurrence found
   * is unique.
   */
  lemma ParseLeftmost(text: string, o: Occurrence)
    requires OccursAt(text, o) && Greedy(text, o)
    requires forall q :: 0 <= q < o.start ==> MatchAt(text, q).None?
    ensures ParsePadDimensions(text) == Some(Groups(text, o))
  {
    MatchAtComplete(text, o);
    var p := FirstMatch(text);
    assert p.Some? && p.value <= o.start;
    assert !(p.value < o.start);
    assert FindOccurrence(text) == Some(o);
  }

  /** Whenever the expression can match somewhere in the text, parsing succeeds. */
  lemma ParseComplete(text: string, o: Occurrence)
    requires OccursAt(text, o)
    ensures ParsePadDimensions(text).Some?
  {
    MatchAtComplete(text, o);
  }
}
