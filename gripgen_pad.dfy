/** The dimensions file of the asset-generation script: finding the `pad` object and writing its size. */
module GripGenPad {
  import opened Options
  import opened Text
  import opened GripGenNames

  /** Bounding-box size of an object in whole millimetres, already rounded. */
  datatype MmDims = MmDims(x: nat, y: nat, z: nat)

  /** A main object as `save_pad_dimensions` sees it: its name and its size. */
  datatype MeasuredObject = MeasuredObject(name: string, dimensionsMm: MmDims)

  const PadName := "pad"
  const TitleLine := "Pad Dimensions (mm)\n"
  const RuleLine := "===================\n"

  predicate IsPad(obj: MeasuredObject) {
    StripNumericSuffix(obj.name) == PadName
  }

  /** `f"{key}: {value}\n"`. */
  function DimensionLine(key: string, value: nat): string {
    key + ": " + NatToString(value) + "\n"
  }

  /** The whole dimensions file, line by line. */
  function PadDimensionsText(d: MmDims): string {
    TitleLine + RuleLine + DimensionLine("X", d.x) + DimensionLine("Y", d.y) + DimensionLine("Z", d.z)
  }

  /**
   * `save_pad_dimensions`: looks for the first main object whose name without `.NNN` is `pad`
   * and returns the file text written for it, or `None` when the file is skipped.
   */
  method SavePadDimensions(objs: seq<MeasuredObject>) returns (written: Option<string>)
    ensures written.None? <==> forall i :: 0 <= i < |objs| ==> !IsPad(objs[i])
    ensures written.Some? ==> exists i :: 0 <= i < |objs| && IsPad(objs[i])
                                          && (forall k :: 0 <= k < i ==> !IsPad(objs[k]))
                                          && written.value == PadDimensionsText(objs[i].dimensionsMm)
  {
    var found := false;
    var i := 0;
    while i < |objs|
      invariant 0 <= i <= |objs|
      invariant !found
      invariant forall k :: 0 <= k < i ==> !IsPad(objs[k])
    {
      if IsPad(objs[i]) {
        found := true;
        break;
      }
      i := i + 1;
    }
    if !found {
      return None;
    }
    var d := objs[i].dimensionsMm;
    var f := TitleLine;
    f := f + RuleLine;
    f := f + DimensionLine("X", d.x);
    f := f + DimensionLine("Y", d.y);
    f := f + DimensionLine("Z", d.z);
    assert f == PadDimensionsText(objs[i].dimensionsMm);
    written := Some(f);
  }
}
