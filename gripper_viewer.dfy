/**
 * The gripper viewer as an event-driven state machine over its module-level state. The asynchronous
 * completions of the source (a part loaded, all parts settled, the dimensions file fetched) are events
 * applied one at a time, each carrying the generation token it was started with.
 */
module GripperViewer {
  import opened Options
  import opened Vectors
  import opened PadParser
  import opened ViewerRules

  /** What the overall-size readout shows: the framed model's size, the pad area, or the fallback text. */
  datatype SizeReadout = Blank | ModelSize(size: Vec3) | PadArea(y: string, z: string) | PadSizeUnavailable

  /** The outcome of fetching `pad_dimensions.txt`: a failed request or a non-OK response, or its text. */
  datatype FetchResult = FetchFailed | Fetched(text: string)

  /** The first object a pick ray hits: the hit point and the labels up its parent chain. */
  datatype Hit = Hit(point: Vec3, chainLabels: seq<string>)

  const PadDimsUnavailableText := "Y: -- mm, Z: -- mm"

  /** The pad readout for parsed dimensions. */
  function PadDimsText(y: string, z: string): string {
    "Y: " + y + " mm, Z: " + z + " mm"
  }

  class Viewer {
    /** Generation of the most recent size request. */
    var loadToken: nat
    /** The children of the model group. */
    var children: seq<Part>
    /** The finger lists, as positions in `children`. */
    var leftFinger: seq<nat>
    var rightFinger: seq<nat>
    var fingerOpenDistance: real
    /** The picked point and its label; no point goes with the empty label. */
    var lastHitPoint: Option<Vec3>
    var lastLabel: string
    var labelVisible: bool
    var groupPosition: Vec3
    var cameraPosition: Vec3
    var controlsTarget: Vec3
    var modelSize: Vec3
    var sizeIndex: nat
    var sizeText: string
    var sizeReadout: SizeReadout
    var padReadout: string
    var opennessText: string
    /** The openness slider's value, 0 to 100. */
    var opennessSlider: int
    /** The sizes requested so far, oldest first: request number `k` was made with token `k`. */
    ghost var requests: seq<string>
    /** Whether the most recent request has settled (base positions captured, fingers grouped). */
    ghost var settled: bool
    /** The outcome of every part load completed so far, request by request: request `k`'s at `k - 1`. */
    ghost var outcomes: seq<seq<bool>>

    /** The class invariant: `Consistent` of the current state. */
    ghost predicate Valid()
      reads this`loadToken, this`requests, this`children, this`settled, this`leftFinger, this`rightFinger,
            this`fingerOpenDistance, this`lastHitPoint, this`lastLabel, this`sizeIndex, this`outcomes
    {
      Consistent(loadToken, |requests|, |outcomes|, children, settled, leftFinger, rightFinger, fingerOpenDistance,
                 lastHitPoint, lastLabel, sizeIndex)
    }

    /** The state the module starts in, before its first size request. */
    constructor ()
      ensures Valid()
      ensures loadToken == 0 && requests == [] && children == []
      ensures leftFinger == [] && rightFinger == [] && fingerOpenDistance == 0.0
      ensures lastHitPoint == None && lastLabel == "" && !labelVisible
      ensures modelSize == Origin && opennessSlider == 0 && outcomes == []
    {
      loadToken := 0;
      children := [];
      leftFinger := [];
      rightFinger := [];
      fingerOpenDistance := 0.0;
      lastHitPoint := None;
      lastLabel := "";
      labelVisible := false;
      groupPosition := Origin;
      cameraPosition := Origin;
      controlsTarget := Origin;
      modelSize := Origin;
      sizeIndex := 0;
      sizeText := "";
      sizeReadout := Blank;
      padReadout := "";
      opennessText := "";
      opennessSlider := 0;
      requests := [];
      outcomes := [];
      settled := false;
    }

    /** `resetLabel`: forgets the picked point and hides the label. */
    method ResetLabel()
      modifies this`lastHitPoint, this`lastLabel, this`labelVisible
      ensures lastHitPoint == None && lastLabel == "" && !labelVisible
    {
      lastHitPoint := None;
      lastLabel := "";
      labelVisible := false;
    }

    /**
     * The synchronous part of `loadSize(size)`: a new generation token, the pick state reset and the
     * group emptied before any part of the request can complete.
     */
    method LoadSize(size: string)
      requires Valid()
      modifies this`loadToken, this`requests, this`outcomes, this`settled, this`children,
               this`lastHitPoint, this`lastLabel, this`labelVisible
      ensures Valid()
      ensures loadToken == old(loadToken) + 1 && requests == old(requests) + [size] && outcomes == old(outcomes) + [[]]
      ensures children == [] && !settled
      ensures lastHitPoint == None && lastLabel == "" && !labelVisible
    {
      loadToken := loadToken + 1;
      requests := requests + [size];
      outcomes := outcomes + [[]];
      settled := false;
      ResetLabel();
      children := [];
    }

    /** `setSizeByIndex(index)`: clamps the index, shows the size and requests it. */
    method SetSizeByIndex(index: int)
      requires Valid()
      modifies this`sizeIndex, this`sizeText, this`loadToken, this`requests, this`outcomes, this`settled, this`children,
               this`lastHitPoint, this`lastLabel, this`labelVisible
      ensures Valid()
      ensures sizeIndex == ClampIndex(index) && sizeText == SIZES[sizeIndex] + "x"
      ensures loadToken == old(loadToken) + 1 && requests == old(requests) + [SIZES[sizeIndex]]
      ensures outcomes == old(outcomes) + [[]]
      ensures children == [] && !settled
      ensures lastHitPoint == None && lastLabel == "" && !labelVisible
    {
      var clamped := ClampIndex(index);
      var size := SIZES[clamped];
      sizeIndex := clamped;
      sizeText := size + "x";
      LoadSize(size);
    }

    /**
     * The completion of `loadPart` for a part of the request with generation `token`; `ok` is false when
     * the loader failed. The part joins the group only when its request is still the current one.
     */
    method PartLoaded(token: nat, part: PartSpec, ok: bool) returns (loaded: bool)
      requires Valid() && 1 <= token <= loadToken
      modifies this`children, this`outcomes
      ensures Valid()
      ensures loaded <==> ok && token == loadToken
      ensures loaded ==> children == old(children) + [Part(part.file, part.labelText, token, Origin, None)]
      ensures !loaded ==> children == old(children)
      ensures outcomes == old(outcomes)[token - 1 := old(outcomes)[token - 1] + [loaded]]
    {
      if !ok {
        loaded := false;
      } else if token != loadToken {
        loaded := false;
      } else {
        children := children + [Part(part.file, part.labelText, token, Origin, None)];
        loaded := true;
      }
      outcomes := outcomes[token - 1 := outcomes[token - 1] + [loaded]];
    }

    /**
     * `frameObject(box)`, `box` being the bounding box of the group: an empty box changes nothing;
     * otherwise the group is centred and the camera placed to frame it.
     */
    method FrameObject(box: Bounds)
      modifies this`modelSize, this`groupPosition, this`cameraPosition, this`controlsTarget, this`sizeReadout
      ensures old(Valid()) ==> Valid()
      ensures box.EmptyBounds? ==> modelSize == old(modelSize) && groupPosition == old(groupPosition)
                                   && cameraPosition == old(cameraPosition) && sizeReadout == old(sizeReadout)
                                   && controlsTarget == old(controlsTarget)
      ensures box.Box? ==> && modelSize == BoxSize(box)
                           && groupPosition == Sub(old(groupPosition), BoxCenter(box))
                           && cameraPosition == Vec3(FrameDistance(BoxSize(box)), FrameDistance(BoxSize(box)), FrameDistance(BoxSize(box)))
                           && controlsTarget == Origin
                           && sizeReadout == ModelSize(BoxSize(box))
    {
      if box.EmptyBounds? {
        return;
      }
      var size := BoxSize(box);
      var center := BoxCenter(box);
      modelSize := size;
      groupPosition := Sub(groupPosition, center);
      var distance := FrameDistance(size);
      cameraPosition := Vec3(distance, distance, distance);
      controlsTarget := Origin;
      sizeReadout := ModelSize(size);
    }

    /** Records every child's current position as its base position. */
    method CaptureBasePositions()
      modifies this`children
      ensures |children| == |old(children)|
      ensures forall i :: 0 <= i < |children| ==> children[i] == old(children[i]).(basePosition := Some(old(children[i]).position))
    {
      ghost var parts := children;
      var i := 0;
      while i < |children|
        invariant 0 <= i <= |children| == |parts|
        invariant forall k :: 0 <= k < i ==> children[k] == parts[k].(basePosition := Some(parts[k].position))
        invariant forall k :: i <= k < |children| ==> children[k] == parts[k]
      {
        children := children[i := children[i].(basePosition := Some(children[i].position))];
        i := i + 1;
      }
    }

    /**
     * `collectFingerGroups(leftBox)`, `leftBox` being the bounding box of the left finger: splits the
     * children into the two fingers by file name and sets how far each finger opens.
     */
    method CollectFingerGroups(leftBox: Bounds)
      modifies this`leftFinger, this`rightFinger, this`fingerOpenDistance
      ensures leftFinger == IndicesIn(children, LEFT_FINGER_PARTS, |children|)
      ensures rightFinger == IndicesIn(children, RIGHT_FINGER_PARTS, |children|)
      ensures (leftFinger == [] || rightFinger == []) ==> fingerOpenDistance == 0.0
      ensures leftFinger != [] && rightFinger != [] ==> fingerOpenDistance == Max(BoxSize(leftBox).x, 0.0)
    {
      leftFinger := [];
      rightFinger := [];
      fingerOpenDistance := 0.0;
      var i := 0;
      while i < |children|
        invariant 0 <= i <= |children| && fingerOpenDistance == 0.0
        invariant leftFinger == IndicesIn(children, LEFT_FINGER_PARTS, i)
        invariant rightFinger == IndicesIn(children, RIGHT_FINGER_PARTS - LEFT_FINGER_PARTS, i)
      {
        var partFile := children[i].partFile;
        if partFile in LEFT_FINGER_PARTS {
          leftFinger := leftFinger + [i];
        } else if partFile in RIGHT_FINGER_PARTS {
          rightFinger := rightFinger + [i];
        }
        i := i + 1;
      }
      FingerSetsDisjoint();
      assert RIGHT_FINGER_PARTS - LEFT_FINGER_PARTS == RIGHT_FINGER_PARTS;
      if leftFinger == [] || rightFinger == [] {
        return;
      }
      fingerOpenDistance := Max(BoxSize(leftBox).x, 0.0);
    }

    /**
     * `applyOpenness(openness)`: every child with a base position goes back to it, then the fingers are
     * moved apart by half the open distance each, scaled by the openness.
     */
    method ApplyOpenness(openness: real)
      modifies this`children, this`opennessText
      ensures children == WithOpenness(old(children), leftFinger, rightFinger, FingerOffset(fingerOpenDistance, openness))
      ensures opennessText == OpennessLabel(openness)
    {
      var offset := FingerOffset(fingerOpenDistance, openness);
      ghost var parts := children;
      RestoreBasePositions(offset);
      MoveLeftFinger(parts, offset);
      MoveRightFinger(parts, offset);
      assert forall k :: 0 <= k < |children| ==> children[k] == WithOpenness(parts, leftFinger, rightFinger, offset)[k];
      assert children == WithOpenness(parts, leftFinger, rightFinger, offset);
      opennessText := OpennessLabel(openness);
    }

    /** The first loop of `applyOpenness`: every child with a base position is put back there. */
    method RestoreBasePositions(offset: real)
      modifies this`children
      ensures |children| == |old(children)|
      ensures forall k :: 0 <= k < |children| ==> children[k] == Placed(old(children)[k], false, false, offset)
    {
      ghost var parts := children;
      var i := 0;
      while i < |children|
        invariant 0 <= i <= |children| == |parts|
        invariant forall k :: 0 <= k < i ==> children[k] == Placed(parts[k], false, false, offset)
        invariant forall k :: i <= k < |children| ==> children[k] == parts[k]
      {
        var base := children[i].basePosition;
        if base.Some? {
          children := children[i := children[i].(position := base.value)];
        }
        i := i + 1;
      }
    }

    /** The second loop of `applyOpenness`: the left finger's parts are moved by `+offset` from their base. */
    method MoveLeftFinger(ghost parts: seq<Part>, offset: real)
      requires |children| == |parts|
      requires forall k :: 0 <= k < |children| ==> children[k] == Placed(parts[k], false, false, offset)
      modifies this`children
      ensures |children| == |parts|
      ensures forall k :: 0 <= k < |children| ==> children[k] == Placed(parts[k], k in leftFinger, false, offset)
    {
      var j := 0;
      while j < |leftFinger|
        invariant 0 <= j <= |leftFinger| && |children| == |parts|
        invariant forall k :: 0 <= k < |children| ==> children[k] == Placed(parts[k], k in leftFinger[..j], false, offset)
      {
        var idx := leftFinger[j];
        if idx < |children| {
          var base := children[idx].basePosition;
          if base.Some? {
            children := children[idx := children[idx].(position := AddScaled(base.value, OpenAxis, offset))];
          }
        }
        assert leftFinger[..j + 1] == leftFinger[..j] + [idx];
        j := j + 1;
      }
      assert leftFinger[..j] == leftFinger;
    }

    /** The third loop of `applyOpenness`: the right finger's parts are moved by `-offset` from their base. */
    method MoveRightFinger(ghost parts: seq<Part>, offset: real)
      requires |children| == |parts|
      requires forall k :: 0 <= k < |children| ==> children[k] == Placed(parts[k], k in leftFinger, false, offset)
      modifies this`children
      ensures |children| == |parts|
      ensures forall k :: 0 <= k < |children| ==> children[k] == Placed(parts[k], k in leftFinger, k in rightFinger, offset)
    {
      var j := 0;
      while j < |rightFinger|
        invariant 0 <= j <= |rightFinger| && |children| == |parts|
        invariant forall k :: 0 <= k < |children| ==> children[k] == Placed(parts[k], k in leftFinger, k in rightFinger[..j], offset)
      {
        var idx := rightFinger[j];
        if idx < |children| {
          var base := children[idx].basePosition;
          if base.Some? {
            children := children[idx := children[idx].(position := AddScaled(base.value, OpenAxis, -offset))];
          }
        }
        assert rightFinger[..j + 1] == rightFinger[..j] + [idx];
        j := j + 1;
      }
      assert rightFinger[..j] == rightFinger;
    }

    /** The openness slider moved to `value` (0 to 100). */
    method OpennessInput(value: int)
      requires Valid()
      modifies this`opennessSlider, this`children, this`opennessText
      ensures Valid() && opennessSlider == value
      ensures children == WithOpenness(old(children), leftFinger, rightFinger, FingerOffset(fingerOpenDistance, value as real / 100.0))
      ensures opennessText == OpennessLabel(value as real / 100.0)
    {
      opennessSlider := value;
      ApplyOpenness(value as real / 100.0);
    }

    /**
     * The work `loadSize` does on the group once the parts of the current request have settled, after
     * framing and before the openness: base positions are captured and the fingers grouped (`leftBox`).
     */
    method CaptureAndGroup(leftBox: Bounds)
      requires Valid()
      modifies this`children, this`settled, this`leftFinger, this`rightFinger, this`fingerOpenDistance
      ensures Valid() && settled
      ensures |children| == |old(children)|
      ensures forall i :: 0 <= i < |children| ==> children[i] == old(children[i]).(basePosition := Some(old(children[i]).position))
      ensures leftFinger == IndicesIn(old(children), LEFT_FINGER_PARTS, |old(children)|)
      ensures rightFinger == IndicesIn(old(children), RIGHT_FINGER_PARTS, |old(children)|)
      ensures (leftFinger == [] || rightFinger == []) ==> fingerOpenDistance == 0.0
      ensures leftFinger != [] && rightFinger != [] ==> fingerOpenDistance == Max(BoxSize(leftBox).x, 0.0)
    {
      CaptureBasePositions();
      settled := true;
      CollectFingerGroups(leftBox);
      IndicesInSameFiles(old(children), children, LEFT_FINGER_PARTS, |children|);
      IndicesInSameFiles(old(children), children, RIGHT_FINGER_PARTS, |children|);
      FingerListsDisjoint(children, |children|);
    }

    /** `applyOpenness` on a valid state, which it keeps valid: only positions and the label text change. */
    method ApplyOpennessValid(openness: real)
      requires Valid()
      modifies this`children, this`opennessText
      ensures Valid()
      ensures children == WithOpenness(old(children), leftFinger, rightFinger, FingerOffset(fingerOpenDistance, openness))
      ensures opennessText == OpennessLabel(openness)
    {
      ApplyOpenness(openness);
      OpennessKeepsParts(old(children), leftFinger, rightFinger, FingerOffset(fingerOpenDistance, openness));
    }

    /**
     * All part loads of the request with generation `token` have settled with `results`, one outcome per
     * load, in any order. A stale request stops here. The current one frames the model (`box`), captures
     * base positions, groups the fingers (`leftBox`) and applies the slider's openness. `missing` counts
     * the loads that failed.
     */
    method AllSettled(token: nat, results: seq<bool>, box: Bounds, leftBox: Bounds)
      returns (proceeded: bool, missing: nat)
      requires Valid() && 1 <= token <= loadToken
      requires multiset(results) == multiset(outcomes[token - 1])
      modifies this`modelSize, this`groupPosition, this`cameraPosition, this`controlsTarget, this`sizeReadout,
               this`children, this`settled, this`leftFinger, this`rightFinger, this`fingerOpenDistance,
               this`opennessText
      ensures Valid()
      ensures proceeded <==> token == loadToken
      ensures !proceeded ==> children == old(children) && leftFinger == old(leftFinger) && rightFinger == old(rightFinger)
                             && fingerOpenDistance == old(fingerOpenDistance) && groupPosition == old(groupPosition)
                             && cameraPosition == old(cameraPosition) && sizeReadout == old(sizeReadout)
                             && modelSize == old(modelSize) && controlsTarget == old(controlsTarget)
                             && opennessText == old(opennessText) && settled == old(settled)
      ensures proceeded ==> settled
      ensures proceeded ==> leftFinger == IndicesIn(old(children), LEFT_FINGER_PARTS, |old(children)|)
                            && rightFinger == IndicesIn(old(children), RIGHT_FINGER_PARTS, |old(children)|)
      ensures proceeded && (leftFinger == [] || rightFinger == []) ==> fingerOpenDistance == 0.0
      ensures proceeded && leftFinger != [] && rightFinger != [] ==> fingerOpenDistance == Max(BoxSize(leftBox).x, 0.0)
      ensures proceeded ==>
        children == WithOpenness(Captured(old(children)), leftFinger, rightFinger,
                                 FingerOffset(fingerOpenDistance, opennessSlider as real / 100.0))
      ensures proceeded ==> opennessText == OpennessLabel(opennessSlider as real / 100.0)
      ensures proceeded ==> missing == CountMissing(results) == multiset(outcomes[token - 1])[false]
      ensures proceeded && box.EmptyBounds? ==>
        modelSize == old(modelSize) && groupPosition == old(groupPosition) && cameraPosition == old(cameraPosition)
        && sizeReadout == old(sizeReadout) && controlsTarget == old(controlsTarget)
      ensures proceeded && box.Box? ==>
        && modelSize == BoxSize(box)
        && groupPosition == Sub(old(groupPosition), BoxCenter(box))
        && cameraPosition == Vec3(FrameDistance(BoxSize(box)), FrameDistance(BoxSize(box)), FrameDistance(BoxSize(box)))
        && controlsTarget == Origin
        && sizeReadout == ModelSize(BoxSize(box))
    {
      MissingOfOutcomes(results, outcomes[token - 1]);
      if token != loadToken {
        return false, 0;
      }
      FrameAndSettle(box, leftBox);
      missing := CountMissing(results);
      proceeded := true;
    }

    /** The current request's part of `loadSize`: frame the model, then settle it. */
    method FrameAndSettle(box: Bounds, leftBox: Bounds)
      requires Valid()
      modifies this`modelSize, this`groupPosition, this`cameraPosition, this`controlsTarget, this`sizeReadout,
               this`children, this`settled, this`leftFinger, this`rightFinger, this`fingerOpenDistance,
               this`opennessText
      ensures Valid() && settled
      ensures leftFinger == IndicesIn(old(children), LEFT_FINGER_PARTS, |old(children)|)
              && rightFinger == IndicesIn(old(children), RIGHT_FINGER_PARTS, |old(children)|)
      ensures (leftFinger == [] || rightFinger == []) ==> fingerOpenDistance == 0.0
      ensures leftFinger != [] && rightFinger != [] ==> fingerOpenDistance == Max(BoxSize(leftBox).x, 0.0)
      ensures children == WithOpenness(Captured(old(children)), leftFinger, rightFinger,
                                       FingerOffset(fingerOpenDistance, opennessSlider as real / 100.0))
      ensures opennessText == OpennessLabel(opennessSlider as real / 100.0)
      ensures box.EmptyBounds? ==> modelSize == old(modelSize) && groupPosition == old(groupPosition)
                                   && cameraPosition == old(cameraPosition) && sizeReadout == old(sizeReadout)
                                   && controlsTarget == old(controlsTarget)
      ensures box.Box? ==> && modelSize == BoxSize(box)
                           && groupPosition == Sub(old(groupPosition), BoxCenter(box))
                           && cameraPosition == Vec3(FrameDistance(BoxSize(box)), FrameDistance(BoxSize(box)), FrameDistance(BoxSize(box)))
                           && controlsTarget == Origin
                           && sizeReadout == ModelSize(BoxSize(box))
    {
      FrameObject(box);
      Settle(leftBox);
    }

    /**
     * The current request's part of `loadSize` once framed: capture, group, and open as far as the
     * openness slider says.
     */
    method Settle(leftBox: Bounds)
      requires Valid()
      modifies this`children, this`settled, this`leftFinger, this`rightFinger, this`fingerOpenDistance, this`opennessText
      ensures Valid() && settled
      ensures leftFinger == IndicesIn(old(children), LEFT_FINGER_PARTS, |old(children)|)
              && rightFinger == IndicesIn(old(children), RIGHT_FINGER_PARTS, |old(children)|)
      ensures (leftFinger == [] || rightFinger == []) ==> fingerOpenDistance == 0.0
      ensures leftFinger != [] && rightFinger != [] ==> fingerOpenDistance == Max(BoxSize(leftBox).x, 0.0)
      ensures children == WithOpenness(Captured(old(children)), leftFinger, rightFinger,
                                       FingerOffset(fingerOpenDistance, opennessSlider as real / 100.0))
      ensures opennessText == OpennessLabel(opennessSlider as real / 100.0)
    {
      CaptureAndGroup(leftBox);
      CapturedPointwise(old(children), children);
      ApplyOpennessValid(opennessSlider as real / 100.0);
    }

    /**
     * `updatePadDimensions` once its fetch for the request with generation `token` has completed. A stale
     * completion writes nothing; otherwise the readouts show the parsed pad, or the fallback texts when
     * the fetch failed or the text does not parse.
     */
    method FetchCompleted(token: nat, result: FetchResult)
      requires 1 <= token <= loadToken
      modifies this`sizeReadout, this`padReadout
      ensures token != loadToken ==> sizeReadout == old(sizeReadout) && padReadout == old(padReadout)
      ensures token == loadToken && result.FetchFailed? ==>
        sizeReadout == PadSizeUnavailable && padReadout == PadDimsUnavailableText
      ensures token == loadToken && result.Fetched? ==>
        match ParsePadDimensions(result.text)
        case None => sizeReadout == PadSizeUnavailable && padReadout == PadDimsUnavailableText
        case Some(d) => sizeReadout == PadArea(d.y, d.z) && padReadout == PadDimsText(d.y, d.z)
    {
      if result.FetchFailed? {
        if token != loadToken {
          return;
        }
        sizeReadout := PadSizeUnavailable;
        padReadout := PadDimsUnavailableText;
        return;
      }
      if token != loadToken {
        return;
      }
      var parsed := ParsePadDimensions(result.text);
      if parsed.Some? {
        sizeReadout := PadArea(parsed.value.y, parsed.value.z);
        padReadout := PadDimsText(parsed.value.y, parsed.value.z);
      } else {
        sizeReadout := PadSizeUnavailable;
        padReadout := PadDimsUnavailableText;
      }
    }

    /**
     * The `pointerdown` handler, given the first hit of the pick ray if there is one. Nothing changes
     * without a hit or without a label on the hit object's parent chain.
     */
    method PointerDown(hit: Option<Hit>)
      requires Valid()
      modifies this`lastHitPoint, this`lastLabel, this`labelVisible
      ensures Valid()
      ensures hit.None? ==> lastHitPoint == old(lastHitPoint) && lastLabel == old(lastLabel) && labelVisible == old(labelVisible)
      ensures hit.Some? && (forall i :: 0 <= i < |hit.value.chainLabels| ==> hit.value.chainLabels[i] == "") ==>
        lastHitPoint == old(lastHitPoint) && lastLabel == old(lastLabel) && labelVisible == old(labelVisible)
      ensures hit.Some? && (exists i :: 0 <= i < |hit.value.chainLabels| && hit.value.chainLabels[i] != "") ==>
        && lastHitPoint == Some(hit.value.point) && labelVisible
        && exists i :: 0 <= i < |hit.value.chainLabels| && hit.value.chainLabels[i] == lastLabel && lastLabel != ""
                       && forall k :: 0 <= k < i ==> hit.value.chainLabels[k] == ""
    {
      if hit.None? {
        return;
      }
      var labelText := FindLabelForObject(hit.value.chainLabels);
      if labelText.None? {
        return;
      }
      lastHitPoint := Some(hit.value.point);
      lastLabel := labelText.value;
      labelVisible := true;
    }

    /** The start-up sequence: the slider set to closed, the 1.5 size requested and the fingers closed. */
    method Start()
      requires Valid()
      modifies this`opennessSlider, this`sizeIndex, this`sizeText, this`loadToken, this`requests, this`outcomes,
               this`settled, this`children, this`lastHitPoint, this`lastLabel, this`labelVisible, this`opennessText
      ensures Valid()
      ensures opennessSlider == 0
      ensures sizeIndex == 5 && sizeText == "1.5x"
      ensures loadToken == old(loadToken) + 1 && requests == old(requests) + ["1.5"] && outcomes == old(outcomes) + [[]]
      ensures children == [] && !settled
      ensures lastHitPoint == None && lastLabel == "" && !labelVisible
      ensures opennessText == ClosedLabel
    {
      opennessSlider := 0;
      // `SIZES.indexOf("1.5")`, which is 5 by DefaultSizeIndex
      SetSizeByIndex(5);
      ApplyOpenness(0.0);
    }
  }

  /** Results that are the outcomes of a request's loads, in any order, miss as many parts as those outcomes. */
  lemma MissingOfOutcomes(results: seq<bool>, log: seq<bool>)
    requires multiset(results) == multiset(log)
    ensures CountMissing(results) == multiset(log)[false]
  {
  }

  /** The number of loads that failed: `results.filter((loaded) => !loaded).length`. */
  function CountMissing(results: seq<bool>): (n: nat)
    ensures n == multiset(results)[false]
    ensures n <= |results|
    ensures n == 0 <==> forall i :: 0 <= i < |results| ==> results[i]
    ensures n == |results| <==> forall i :: 0 <= i < |results| ==> !results[i]
  {
    if results == [] then 0
    else
      var rest := CountMissing(results[1..]);
      assert forall i :: 0 < i < |results| ==> results[i] == results[1..][i - 1];
      assert results == [results[0]] + results[1..];
      (if results[0] then 0 else 1) + rest
  }
}
