/**
 * The pure rules of the gripper viewer: its constant tables, the size-index clamp, the openness label,
 * the parent-chain label lookup, the split of the loaded parts into the two fingers and the positions
 * the openness slider gives them.
 */
module ViewerRules {
  import opened Options
  import opened Vectors

  /** The scale factors for which generated assets exist, as the directory names under the output folder. */
  const SIZES: seq<string> := ["1.0", "1.1", "1.2", "1.3", "1.4", "1.5", "1.6", "1.7", "1.8", "1.9", "2.0"]

  /** One part of the gripper: the name of its OBJ file, the label shown when it is picked, its colour. */
  datatype PartSpec = PartSpec(file: string, labelText: string, color: string)

  const PARTS: seq<PartSpec> := [
    PartSpec("Prints_base", "Base", "#94a3b8"),
    PartSpec("Prints_motor_mount", "Motor mount", "#64748b"),
    PartSpec("Prints_motor_link", "Motor link", "#475569"),
    PartSpec("Prints_fingerRack", "Finger rack (left)", "#1e293b"),
    PartSpec("Prints_fingerRack.001", "Finger rack (right)", "#0f172a"),
    PartSpec("Prints_gear", "Gear", "#f59e0b"),
    PartSpec("Prints_camera_housing", "Camera housing", "#f97316"),
    PartSpec("Prints_led_cap", "LED cap (left)", "#fb7185"),
    PartSpec("Prints_led_cap.001", "LED cap (right)", "#f43f5e"),
    PartSpec("Optical_shell_locked", "Optical shell (left)", "#38bdf8"),
    PartSpec("Optical_shell_locked.001", "Optical shell (right)", "#0ea5e9"),
    PartSpec("Optical_led", "Optical LED (left)", "#22c55e"),
    PartSpec("Optical_led.001", "Optical LED (right)", "#16a34a"),
    PartSpec("Optical_pad", "Optical pad (left)", "#14b8a6"),
    PartSpec("Optical_pad.001", "Optical pad (right)", "#0d9488")
  ]

  const LEFT_FINGER_PARTS: set<string> :=
    {"Optical_led", "Prints_led_cap", "Optical_pad", "Prints_fingerRack", "Optical_shell_locked.001"}

  const RIGHT_FINGER_PARTS: set<string> :=
    {"Optical_led.001", "Prints_led_cap.001", "Optical_shell_locked", "Optical_pad.001", "Prints_fingerRack.001"}

  /** The axis along which the fingers open. */
  const OpenAxis := Vec3(1.0, 0.0, 0.0)

  /** No part belongs to both fingers, so the `else if` of the grouping never has to choose. */
  lemma FingerSetsDisjoint()
    ensures LEFT_FINGER_PARTS * RIGHT_FINGER_PARTS == {}
  {
  }

  /** Every finger part is one of the parts the viewer loads. */
  lemma FingerPartsAreLoaded()
    ensures forall f :: f in LEFT_FINGER_PARTS + RIGHT_FINGER_PARTS ==> exists i :: 0 <= i < |PARTS| && PARTS[i].file == f
  {
    assert PARTS[3].file == "Prints_fingerRack" && PARTS[4].file == "Prints_fingerRack.001";
    assert PARTS[7].file == "Prints_led_cap" && PARTS[8].file == "Prints_led_cap.001";
    assert PARTS[9].file == "Optical_shell_locked" && PARTS[10].file == "Optical_shell_locked.001";
    assert PARTS[11].file == "Optical_led" && PARTS[12].file == "Optical_led.001";
    assert PARTS[13].file == "Optical_pad" && PARTS[14].file == "Optical_pad.001";
  }

  function MinInt(a: int, b: int): int {
    if a <= b then a else b
  }

  function MaxInt(a: int, b: int): int {
    if a >= b then a else b
  }

  /** The clamp of `setSizeByIndex`: `Math.min(Math.max(index, 0), SIZES.length - 1)`. */
  function ClampIndex(index: int): (r: nat)
    ensures r < |SIZES|
    ensures index < 0 ==> r == 0
    ensures index >= |SIZES| ==> r == |SIZES| - 1
    ensures 0 <= index < |SIZES| ==> r == index
  {
    MinInt(MaxInt(index, 0), |SIZES| - 1)
  }

  /** JavaScript's `xs.indexOf(x)`: the first position of `x`, or -1 when it does not occur. */
  function IndexOf(xs: seq<string>, x: string): (r: int)
    ensures -1 <= r < |xs|
    ensures r == -1 <==> x !in xs
    ensures r >= 0 ==> xs[r] == x && forall k :: 0 <= k < r ==> xs[k] != x
  {
    if xs == [] then -1
    else if xs[0] == x then 0
    else
      var r := IndexOf(xs[1..], x);
      assert forall k :: 0 < k < |xs| ==> xs[k] == xs[1..][k - 1];
      if r == -1 then -1 else r + 1
  }

  /** The size the viewer starts with is the 1.5 scale, the sixth entry. */
  lemma DefaultSizeIndex()
    ensures IndexOf(SIZES, "1.5") == 5 && ClampIndex(IndexOf(SIZES, "1.5")) == 5
  {
    assert SIZES[5] == "1.5";
    assert forall k :: 0 <= k < 5 ==> SIZES[k] != "1.5";
  }

  const OpenLabel := "Open"
  const ClosedLabel := "Closed"
  const PartialLabel := "Partial"

  /** The text shown next to the openness slider for openness `t` (0 closed, 1 open). */
  function OpennessLabel(t: real): (r: string)
    ensures r == OpenLabel <==> t >= 0.95
    ensures r == ClosedLabel <==> t <= 0.05
    ensures r == PartialLabel <==> 0.05 < t < 0.95
  {
    if t >= 0.95 then OpenLabel else if t <= 0.05 then ClosedLabel else PartialLabel
  }

  /**
   * `findLabelForObject`: walks from the picked object up its parent chain, whose labels are `chain`
   * (the picked object first, the empty string where a node has no label), and returns the first label.
   */
  method FindLabelForObject(chain: seq<string>) returns (r: Option<string>)
    ensures r.None? <==> forall i :: 0 <= i < |chain| ==> chain[i] == ""
    ensures r.Some? ==> exists i :: 0 <= i < |chain| && chain[i] == r.value && r.value != ""
                                    && forall k :: 0 <= k < i ==> chain[k] == ""
  {
    var current := 0;
    while current < |chain|
      invariant 0 <= current <= |chain|
      invariant forall k :: 0 <= k < current ==> chain[k] == ""
    {
      if chain[current] != "" {
        return Some(chain[current]);
      }
      current := current + 1;
    }
    return None;
  }

  /** A three.js bounding box; an empty box is what three.js reports with infinite corners. */
  datatype Bounds = EmptyBounds | Box(min: Vec3, max: Vec3)

  /** `box.getSize`: zero for the empty box. */
  function BoxSize(b: Bounds): Vec3 {
    match b
    case EmptyBounds => Origin
    case Box(lo, hi) => Sub(hi, lo)
  }

  /** `box.getCenter` of a box with finite corners: the point as far from one corner as from the other. */
  function BoxCenter(b: Bounds): (r: Vec3)
    requires b.Box?
    ensures Sub(r, b.min) == Sub(b.max, r)
  {
    Scale(Add(b.min, b.max), 0.5)
  }

  /** How far from the origin the camera is put, along each axis, to frame a model of the given size. */
  function FrameDistance(size: Vec3): (r: real)
    ensures r >= size.x * 2.2 && r >= size.y * 2.2 && r >= size.z * 2.2
    ensures r == size.x * 2.2 || r == size.y * 2.2 || r == size.z * 2.2
  {
    MaxComponent(size) * 2.2
  }

  /**
   * A loaded part in the viewer's group: its file and label (`userData`), the request that loaded it,
   * its current position and the position captured once all parts of its request had settled.
   */
  datatype Part = Part(partFile: string, labelText: string, token: nat, position: Vec3, basePosition: Option<Vec3>)

  /** The parts once all of a request's loads have settled: each part's current position becomes its base. */
  function Captured(parts: seq<Part>): (r: seq<Part>)
    ensures |r| == |parts|
    ensures forall i :: 0 <= i < |parts| ==> r[i] == parts[i].(basePosition := Some(parts[i].position))
  {
    seq(|parts|, i requires 0 <= i < |parts| => parts[i].(basePosition := Some(parts[i].position)))
  }

  /** A sequence that agrees with `Captured(parts)` part by part is `Captured(parts)`. */
  lemma CapturedPointwise(parts: seq<Part>, r: seq<Part>)
    requires |r| == |parts|
    requires forall i :: 0 <= i < |parts| ==> r[i] == parts[i].(basePosition := Some(parts[i].position))
    ensures r == Captured(parts)
  {
  }

  /** The positions, in order, of the parts among the first `n` whose file is in `files`. */
  function IndicesIn(parts: seq<Part>, files: set<string>, n: nat): (r: seq<nat>)
    requires n <= |parts|
    ensures forall i: nat :: i in r <==> i < n && parts[i].partFile in files
    ensures forall a :: 0 <= a < |r| ==> r[a] < n
    ensures forall a, b :: 0 <= a < b < |r| ==> r[a] < r[b]
    decreases n
  {
    if n == 0 then []
    else
      var r := IndicesIn(parts, files, n - 1);
      if parts[n - 1].partFile in files then r + [n - 1] else r
  }

  /** The positions depend only on the parts' file names. */
  lemma {:induction false} IndicesInSameFiles(parts: seq<Part>, parts': seq<Part>, files: set<string>, n: nat)
    requires n <= |parts| == |parts'|
    requires forall i :: 0 <= i < |parts| ==> parts'[i].partFile == parts[i].partFile
    ensures IndicesIn(parts', files, n) == IndicesIn(parts, files, n)
    decreases n
  {
    if n > 0 {
      IndicesInSameFiles(parts, parts', files, n - 1);
    }
  }

  /** Two lists of positions taken from disjoint sets of files share no position. */
  lemma FingerListsDisjoint(parts: seq<Part>, n: nat)
    requires n <= |parts|
    ensures forall i :: i in IndicesIn(parts, LEFT_FINGER_PARTS, n) ==> i !in IndicesIn(parts, RIGHT_FINGER_PARTS, n)
  {
    FingerSetsDisjoint();
  }

  /**
   * `perFingerOffset`: how far each finger moves from its base position at the given openness. Closed
   * moves nothing, fully open moves each finger half the open distance, so the two fingers end the open
   * distance apart; in between the offset grows with the openness.
   */
  function FingerOffset(openDistance: real, openness: real): (r: real)
    ensures openness == 0.0 ==> r == 0.0
    ensures openness == 1.0 ==> r + r == openDistance
    ensures openDistance >= 0.0 && 0.0 <= openness <= 1.0 ==> 0.0 <= r <= openDistance * 0.5
  {
    var half := openDistance * 0.5;
    FractionOf(half, openness);
    half * openness
  }

  /** A fraction in [0, 1] of a nonnegative amount lies between nothing and the whole amount. */
  lemma FractionOf(a: real, t: real)
    ensures a >= 0.0 && 0.0 <= t <= 1.0 ==> 0.0 <= a * t <= a
  {
    if a >= 0.0 && 0.0 <= t <= 1.0 {
      assert a * (1.0 - t) >= 0.0;
    }
  }

  /**
   * Where `applyOpenness` puts one part: nowhere new without a base position; otherwise at its base
   * position, moved along the open axis by `offset` for the left finger and by `-offset` for the right
   * one (the right finger is placed last, so it wins).
   */
  function Placed(c: Part, inLeft: bool, inRight: bool, offset: real): Part {
    match c.basePosition
    case None => c
    case Some(b) =>
      if inRight then c.(position := AddScaled(b, OpenAxis, -offset))
      else if inLeft then c.(position := AddScaled(b, OpenAxis, offset))
      else c.(position := b)
  }

  /** The parts after `applyOpenness` with the given finger lists and per-finger offset. */
  function WithOpenness(parts: seq<Part>, left: seq<nat>, right: seq<nat>, offset: real): (r: seq<Part>)
    ensures |r| == |parts|
    ensures forall i :: 0 <= i < |parts| ==> r[i] == Placed(parts[i], i in left, i in right, offset)
  {
    seq(|parts|, i requires 0 <= i < |parts| => Placed(parts[i], i in left, i in right, offset))
  }

  /**
   * The positions `applyOpenness` gives: every part with a base position ends at that base, except that
   * the left finger is moved by `+offset` and the right finger by `-offset` along x. Everything else of a
   * part, and parts without a base position, stay as they were.
   */
  lemma OpennessPositions(parts: seq<Part>, left: seq<nat>, right: seq<nat>, offset: real, i: nat)
    requires i < |parts|
    ensures var c, c' := parts[i], WithOpenness(parts, left, right, offset)[i];
      && c'.partFile == c.partFile && c'.labelText == c.labelText && c'.token == c.token
      && c'.basePosition == c.basePosition
      && (c.basePosition.None? ==> c'.position == c.position)
      && (c.basePosition.Some? && i in right ==>
            c'.position == Vec3(c.basePosition.value.x - offset, c.basePosition.value.y, c.basePosition.value.z))
      && (c.basePosition.Some? && i in left && i !in right ==>
            c'.position == Vec3(c.basePosition.value.x + offset, c.basePosition.value.y, c.basePosition.value.z))
      && (c.basePosition.Some? && i !in left && i !in right ==> c'.position == c.basePosition.value)
  {
  }

  /** Only positions move: every part keeps its file, label, request token and base position. */
  lemma OpennessKeepsParts(parts: seq<Part>, left: seq<nat>, right: seq<nat>, offset: real)
    ensures forall i :: 0 <= i < |parts| ==>
      var c' := WithOpenness(parts, left, right, offset)[i];
      c'.partFile == parts[i].partFile && c'.labelText == parts[i].labelText
      && c'.token == parts[i].token && c'.basePosition == parts[i].basePosition
  {
  }

  /** Openness 0 puts every part that has a base position back at it. */
  lemma ClosedRestoresBase(parts: seq<Part>, left: seq<nat>, right: seq<nat>)
    ensures forall i :: 0 <= i < |parts| && parts[i].basePosition.Some? ==>
      WithOpenness(parts, left, right, 0.0)[i].position == parts[i].basePosition.value
  {
  }

  /**
   * Positions are recomputed from the base positions, so applying an openness over the result of an
   * earlier one gives the same as applying it directly: the earlier value leaves no trace.
   */
  lemma OpennessForgetsEarlier(parts: seq<Part>, left: seq<nat>, right: seq<nat>, earlier: real, offset: real)
    ensures WithOpenness(WithOpenness(parts, left, right, earlier), left, right, offset)
         == WithOpenness(parts, left, right, offset)
  {
  }

  /** The parts after applying each offset of `offsets` in turn. */
  function Replay(parts: seq<Part>, left: seq<nat>, right: seq<nat>, offsets: seq<real>): seq<Part>
    decreases |offsets|
  {
    if offsets == [] then parts
    else Replay(WithOpenness(parts, left, right, offsets[0]), left, right, offsets[1..])
  }

  /** After any sequence of openness changes, the parts are where the last one alone puts them. */
  lemma {:induction false} ReplayIsLast(parts: seq<Part>, left: seq<nat>, right: seq<nat>, offsets: seq<real>)
    requires offsets != []
    ensures Replay(parts, left, right, offsets) == WithOpenness(parts, left, right, offsets[|offsets| - 1])
    decreases |offsets|
  {
    if |offsets| > 1 {
      ReplayIsLast(WithOpenness(parts, left, right, offsets[0]), left, right, offsets[1..]);
      OpennessForgetsEarlier(parts, left, right, offsets[0], offsets[|offsets| - 1]);
    }
  }

  /** Applying the same openness twice is the same as applying it once. */
  lemma OpennessIdempotent(parts: seq<Part>, left: seq<nat>, right: seq<nat>, offset: real)
    ensures WithOpenness(WithOpenness(parts, left, right, offset), left, right, offset)
         == WithOpenness(parts, left, right, offset)
  {
    OpennessForgetsEarlier(parts, left, right, offset, offset);
  }

  /** Parts without base positions (loaded for a request that has not settled yet) are never moved. */
  lemma OpennessWithoutBases(parts: seq<Part>, left: seq<nat>, right: seq<nat>, offset: real)
    requires forall i :: 0 <= i < |parts| ==> parts[i].basePosition.None?
    ensures WithOpenness(parts, left, right, offset) == parts
  {
  }

  /**
   * The viewer's invariant over its state: one request and one outcome list per generation; every child of
   * the group comes from the most recent request and has no base position until that request settles; no
   * child is in both finger lists; the open distance is not negative, and 0 unless both lists are nonempty;
   * a picked point goes with a nonempty label; the size index is valid.
   */
  ghost predicate Consistent(loadToken: nat, requestCount: nat, outcomeCount: nat, children: seq<Part>, settled: bool,
                             leftFinger: seq<nat>, rightFinger: seq<nat>, fingerOpenDistance: real,
                             lastHitPoint: Option<Vec3>, lastLabel: string, sizeIndex: nat)
  {
    && loadToken == requestCount == outcomeCount
    && (forall i :: 0 <= i < |children| ==> children[i].token == loadToken)
    && (!settled ==> forall i :: 0 <= i < |children| ==> children[i].basePosition.None?)
    && (forall i :: i in leftFinger ==> i !in rightFinger)
    && fingerOpenDistance >= 0.0
    && ((leftFinger == [] || rightFinger == []) ==> fingerOpenDistance == 0.0)
    && (lastHitPoint.None? <==> lastLabel == "")
    && sizeIndex < |SIZES|
  }
}
