/**
 * Naming rules of the asset-generation script: Blender's `.NNN` duplicate suffix, the cut-name
 * prefixes, main-object lookup and the collection-prefixed export name.
 */
module GripGenNames {
  import opened Options
  import opened Text

  /** The start of the run of digits that ends at position `j` of `s`. */
  function DigitRunStart(s: string, j: nat): (d: nat)
    requires j <= |s|
    ensures d <= j
    ensures forall i :: d <= i < j ==> IsDigit(s[i])
    ensures d == 0 || !IsDigit(s[d - 1])
    decreases j
  {
    if j == 0 || !IsDigit(s[j - 1]) then j else DigitRunStart(s, j - 1)
  }

  /** `s` ends in `.` followed by one or more digits, the `.` being at position `j`: what `\.\d+$` matches. */
  predicate NumericSuffixAt(s: string, j: nat) {
    j + 1 < |s| && s[j] == '.' && forall i :: j < i < |s| ==> IsDigit(s[i])
  }

  /**
   * `re.sub(r'\.\d+$', '', s)`: removes a trailing `.` plus digits, if there is one, and
   * nothing else.
   */
  function StripNumericSuffix(s: string): (r: string)
    ensures forall j: nat :: NumericSuffixAt(s, j) ==> r == s[..j]
    ensures (forall j: nat :: !NumericSuffixAt(s, j)) ==> r == s
  {
    var d := DigitRunStart(s, |s|);
    assert forall j: nat :: NumericSuffixAt(s, j) ==> d == j + 1 by {
      forall j: nat | NumericSuffixAt(s, j) ensures d == j + 1 {
        assert !IsDigit(s[j]);
      }
    }
    if 0 < d < |s| && s[d - 1] == '.' then
      assert NumericSuffixAt(s, d - 1);
      s[..d - 1]
    else
      s
  }

  /** A name the suffix rule leaves alone, such as `pad` or `motor_mount`. */
  ghost predicate PlainName(s: string) {
    forall j: nat :: !NumericSuffixAt(s, j)
  }

  /** Python's `s[n:]`, which is empty when `n` is past the end. */
  function DropPrefix(s: string, n: nat): (r: string)
    ensures n <= |s| ==> r == s[n..]
    ensures n > |s| ==> r == []
  {
    if n <= |s| then s[n..] else []
  }

  /**
   * `get_main_object_name`: the cut name without its first `|prefix|` characters and without a `.NNN`
   * suffix, so always a leading part of what follows the prefix.
   */
  function MainObjectName(cutName: string, prefix: string): (r: string)
    ensures r <= DropPrefix(cutName, |prefix|)
  {
    StripNumericSuffix(DropPrefix(cutName, |prefix|))
  }

  /** The name of the main object a cut called `prefix + main + "." + digits` belongs to is `main`. */
  lemma MainObjectNameOfDuplicate(prefix: string, main: string, digits: string)
    requires digits != [] && AllDigits(digits)
    ensures MainObjectName(prefix + main + "." + digits, prefix) == main
  {
    var s := main + "." + digits;
    assert (prefix + main + "." + digits)[|prefix|..] == s;
    assert NumericSuffixAt(s, |main|) by {
      forall i | |main| < i < |s| ensures IsDigit(s[i]) {
        assert s[i] == digits[i - |main| - 1];
      }
    }
    assert s[..|main|] == main;
  }

  /** A cut called `prefix + main`, without a suffix, belongs to `main` when `main` has none itself. */
  lemma MainObjectNameOfOriginal(prefix: string, main: string)
    requires PlainName(main)
    ensures MainObjectName(prefix + main, prefix) == main
  {
    assert (prefix + main)[|prefix|..] == main;
  }

  /** The example from the script's own naming convention. */
  lemma MainObjectNameExample()
    ensures MainObjectName("cut_fixed_pad.001", "cut_fixed_") == "pad"
  {
    MainObjectNameOfDuplicate("cut_fixed_", "pad", "001");
    assert "cut_fixed_" + "pad" + "." + "001" == "cut_fixed_pad.001";
  }

  /** A main object called `name` is the one looked for under `baseName`. */
  predicate NameMatches(name: string, baseName: string) {
    StripNumericSuffix(name) == baseName || name == baseName
  }

  /** `find_main_object` from position `from` on: the index of the first matching name. */
  function FindMainObjectFrom(baseName: string, names: seq<string>, from: nat): (r: Option<nat>)
    requires from <= |names|
    ensures r.Some? ==> from <= r.value < |names| && NameMatches(names[r.value], baseName)
    ensures r.Some? ==> forall k :: from <= k < r.value ==> !NameMatches(names[k], baseName)
    ensures r.None? ==> forall k :: from <= k < |names| ==> !NameMatches(names[k], baseName)
    decreases |names| - from
  {
    if from == |names| then None
    else if NameMatches(names[from], baseName) then Some(from)
    else FindMainObjectFrom(baseName, names, from + 1)
  }

  /** `find_main_object`: the first main object whose name, with or without its suffix, is `baseName`. */
  function FindMainObject(baseName: string, names: seq<string>): (r: Option<nat>)
    ensures r.Some? ==> r.value < |names| && NameMatches(names[r.value], baseName)
    ensures r.Some? ==> forall k :: 0 <= k < r.value ==> !NameMatches(names[k], baseName)
    ensures r.None? <==> forall k :: 0 <= k < |names| ==> !NameMatches(names[k], baseName)
  {
    FindMainObjectFrom(baseName, names, 0)
  }

  /** The three kinds of cut object, by name prefix. */
  datatype CutKind = Fixed | Float | ScaleZ

  const FixedPrefix := "cut_fixed_"
  const FloatPrefix := "cut_float_"
  const ScaleZPrefix := "cut_scale_z_"

  function CutPrefix(k: CutKind): string {
    match k
    case Fixed => FixedPrefix
    case Float => FloatPrefix
    case ScaleZ => ScaleZPrefix
  }

  /** Python's `s.startswith(p)`. */
  predicate StartsWith(s: string, p: string) {
    |p| <= |s| && s[..|p|] == p
  }

  /** The `if`/`elif` chain of `process_cuts`: the first prefix the name starts with decides. */
  function CutKindOf(name: string): (r: Option<CutKind>)
    ensures r.Some? ==> StartsWith(name, CutPrefix(r.value))
    ensures r.None? <==> !StartsWith(name, FixedPrefix) && !StartsWith(name, FloatPrefix) && !StartsWith(name, ScaleZPrefix)
  {
    if StartsWith(name, FixedPrefix) then Some(Fixed)
    else if StartsWith(name, FloatPrefix) then Some(Float)
    else if StartsWith(name, ScaleZPrefix) then Some(ScaleZ)
    else None
  }

  /** No name starts with two of the prefixes, so the order of the `elif` chain does not matter. */
  lemma {:induction false} CutPrefixesExclusive(name: string, k: CutKind, k': CutKind)
    requires StartsWith(name, CutPrefix(k)) && StartsWith(name, CutPrefix(k'))
    ensures k == k'
    ensures CutKindOf(name) == Some(k)
  {
    // the three prefixes differ within their first ten characters
    assert name[5] == CutPrefix(k)[5] == CutPrefix(k')[5];
    assert name[4] == CutPrefix(k)[4] == CutPrefix(k')[4];
  }

  /** The main object a cut applies to, with the kind of the cut, if the cut applies at all. */
  function CutTarget(cutName: string, mainNames: seq<string>): (r: Option<(CutKind, nat)>)
    ensures r.Some? ==> r.value.1 < |mainNames| && CutKindOf(cutName) == Some(r.value.0)
    ensures r.Some? ==> NameMatches(mainNames[r.value.1], MainObjectName(cutName, CutPrefix(r.value.0)))
    ensures r.None? <==> (CutKindOf(cutName).None?
                          || FindMainObject(MainObjectName(cutName, CutPrefix(CutKindOf(cutName).value)), mainNames).None?)
  {
    match CutKindOf(cutName)
    case None => None
    case Some(k) =>
      match FindMainObject(MainObjectName(cutName, CutPrefix(k)), mainNames)
      case None => None
      case Some(j) => Some((k, j))
  }

  const SceneCollection := "Scene Collection"
  const UnknownCollection := "Unknown"

  /** `get_object_collection_name`: the first collection other than the scene's root collection. */
  function CollectionName(collections: seq<string>): (r: string)
    ensures (forall i :: 0 <= i < |collections| ==> collections[i] == SceneCollection) ==> r == UnknownCollection
    ensures forall i :: (0 <= i < |collections| && collections[i] != SceneCollection
                         && (forall k :: 0 <= k < i ==> collections[k] == SceneCollection)) ==> r == collections[i]
  {
    if collections == [] then UnknownCollection
    else if collections[0] != SceneCollection then collections[0]
    else
      var r := CollectionName(collections[1..]);
      assert forall i :: 0 < i < |collections| ==> collections[i] == collections[1..][i - 1];
      r
  }

  /**
   * The name under which an object is exported: collection name, `_`, object name. Cutting it after the
   * collection's name and the underscore gives the object's name back.
   */
  function ExportName(collections: seq<string>, objectName: string): (r: string)
    ensures |r| == |CollectionName(collections)| + 1 + |objectName|
    ensures r[..|CollectionName(collections)|] == CollectionName(collections)
    ensures r[|CollectionName(collections)|] == '_'
    ensures r[|CollectionName(collections)| + 1..] == objectName
  {
    CollectionName(collections) + "_" + objectName
  }

  /** An object of the `Prints` collection is exported under `Prints_` plus its own name. */
  lemma ExportNameInCollection(collection: string, objectName: string)
    requires collection != SceneCollection
    ensures ExportName([SceneCollection, collection], objectName) == collection + "_" + objectName
    ensures ExportName([collection], objectName) == collection + "_" + objectName
  {
    assert [SceneCollection, collection][1] == collection;
  }
}
