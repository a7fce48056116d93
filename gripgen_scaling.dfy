/**
 * The transforms of the asset-generation script: the scaling of the main objects about the world
 * origin with its two special cases, and the cut objects' own transforms before each is subtracted
 * from the main object it names.
 */
module GripGenScaling {
  import opened Options
  import opened Vectors
  import opened GripGenNames

  const One := Vec3(1.0, 1.0, 1.0)

  /** The component-wise product, as Blender multiplies a vertex by an object's scale. */
  function Mul(a: Vec3, b: Vec3): Vec3 {
    Vec3(a.x * b.x, a.y * b.y, a.z * b.z)
  }

  /** Where vertex `v` of an object at `location` with `scale` lies in the world (rotation not modelled). */
  function WorldPoint(location: Vec3, scale: Vec3, v: Vec3): Vec3 {
    Add(location, Mul(scale, v))
  }

  /** A boolean difference modifier that was applied: its name and the name of the cut it subtracted. */
  datatype AppliedCut = AppliedCut(modifierName: string, cutName: string)

  /** A Blender mesh object: its name, collections, transform, mesh vertices and applied booleans. */
  class SceneObject {
    const name: string
    const collections: seq<string>
    var location: Vec3
    var scale: Vec3
    const vertices: array<Vec3>
    var booleans: seq<AppliedCut>

    constructor (name: string, collections: seq<string>, location: Vec3, scale: Vec3, mesh: seq<Vec3>)
      ensures this.name == name && this.collections == collections
      ensures this.location == location && this.scale == scale
      ensures fresh(vertices) && vertices[..] == mesh && booleans == []
    {
      this.name := name;
      this.collections := collections;
      this.location := location;
      this.scale := scale;
      vertices := new Vec3[|mesh|](i requires 0 <= i < |mesh| => mesh[i]);
      booleans := [];
    }
  }

  /** The names of `objs`, in order. */
  function Names(objs: seq<SceneObject>): (r: seq<string>)
    ensures |r| == |objs| && forall i :: 0 <= i < |objs| ==> r[i] == objs[i].name
  {
    seq(|objs|, i requires 0 <= i < |objs| => objs[i].name)
  }

  /** An object's transform and mesh, as values. */
  datatype Pose = Pose(location: Vec3, scale: Vec3, mesh: seq<Vec3>)

  function PoseOf(obj: SceneObject): Pose
    reads obj`location, obj`scale, obj.vertices
  {
    Pose(obj.location, obj.scale, obj.vertices[..])
  }

  /** The mesh arrays of `objs`, in order. */
  function Meshes(objs: seq<SceneObject>): (r: seq<array<Vec3>>)
    ensures |r| == |objs| && forall i :: 0 <= i < |objs| ==> r[i] == objs[i].vertices
  {
    seq(|objs|, i requires 0 <= i < |objs| => objs[i].vertices)
  }

  /** The poses of `objs`, in order. */
  ghost function PosesOf(objs: seq<SceneObject>): (r: seq<Pose>)
    reads objs, Meshes(objs)
    ensures |r| == |objs| && forall m :: 0 <= m < |objs| ==> r[m] == PoseOf(objs[m])
  {
    seq(|objs|, m requires 0 <= m < |objs| reads objs, Meshes(objs) => PoseOf(objs[m]))
  }

  /** The modifier lists of `mains`, in order. */
  function BooleansOf(mains: seq<SceneObject>): (r: seq<seq<AppliedCut>>)
    reads mains
    ensures |r| == |mains| && forall j :: 0 <= j < |mains| ==> r[j] == mains[j].booleans
  {
    seq(|mains|, j requires 0 <= j < |mains| reads mains => mains[j].booleans)
  }

  /** No object, and no mesh, occurs twice in `objs`. */
  ghost predicate Distinct(objs: seq<SceneObject>) {
    forall i, j :: 0 <= i < j < |objs| ==> objs[i] != objs[j] && objs[i].vertices != objs[j].vertices
  }

  /** `objs` and `others` share no object and no mesh. */
  ghost predicate Apart(objs: seq<SceneObject>, others: seq<SceneObject>) {
    forall i, j :: 0 <= i < |objs| && 0 <= j < |others| ==>
      objs[i] != others[j] && objs[i].vertices != others[j].vertices
  }

  /** `half_scale`: the factor applied along y to the motor mount, halfway between 1 and the scale factor. */
  function HalfScale(f: real): (r: real)
    ensures r == (1.0 + f) / 2.0
    ensures 1.0 <= f ==> 1.0 <= r <= f
    ensures f <= 1.0 ==> f <= r <= 1.0
  {
    1.0 + (f - 1.0) / 2.0
  }

  /**
   * One vertex of the motor mount: y is first stretched by `HalfScale(f)`; then x is scaled by `f`,
   * and z too when the vertex is not below the xy plane.
   */
  function MotorMountVertex(v: Vec3, f: real): Vec3 {
    var stretched := v.(y := v.y * HalfScale(f));
    if stretched.z >= 0.0 then stretched.(x := stretched.x * f, z := stretched.z * f)
    else stretched.(x := stretched.x * f)
  }

  /** One vertex of a mesh scaled along z only. */
  function ZScaledVertex(v: Vec3, f: real): Vec3 {
    v.(z := v.z * f)
  }

  /** With a scale factor of 1 neither vertex rule moves anything. */
  lemma VertexRulesIdentity(v: Vec3)
    ensures MotorMountVertex(v, 1.0) == v && ZScaledVertex(v, 1.0) == v
  {
  }

  /**
   * For a positive factor the motor mount keeps its split: a vertex is below the xy plane after the
   * rule exactly when it was before, and such a vertex keeps its height.
   */
  lemma MotorMountKeepsSides(v: Vec3, f: real)
    requires f > 0.0
    ensures MotorMountVertex(v, f).z < 0.0 <==> v.z < 0.0
    ensures v.z < 0.0 ==> MotorMountVertex(v, f).z == v.z
    ensures v.z >= 0.0 ==> MotorMountVertex(v, f).z == v.z * f
    ensures MotorMountVertex(v, f).x == v.x * f
    ensures MotorMountVertex(v, f).y == v.y * HalfScale(f)
  {
    if v.z >= 0.0 {
      assert v.z * f >= 0.0;
    }
  }

  /** The three ways `main` scales a main object, chosen by its name without the `.NNN` suffix. */
  datatype MainRule = MotorMountRule | MotorLinkRule | UniformRule

  const MotorMountName := "motor_mount"
  const MotorLinkName := "motor_link"

  /** The `if`/`elif`/`else` of `main` on the suffix-stripped name. */
  function MainRuleFor(name: string): (r: MainRule)
    ensures r == MotorMountRule <==> StripNumericSuffix(name) == MotorMountName
    ensures r == MotorLinkRule <==> StripNumericSuffix(name) == MotorLinkName
    ensures r == UniformRule <==> StripNumericSuffix(name) != MotorMountName && StripNumericSuffix(name) != MotorLinkName
  {
    var base := StripNumericSuffix(name);
    if base == MotorMountName then MotorMountRule
    else if base == MotorLinkName then MotorLinkRule
    else UniformRule
  }

  /** The location a main object ends with. */
  function RuleLocation(rule: MainRule, location: Vec3, f: real): Vec3 {
    match rule
    case MotorLinkRule => location.(z := location.z * f)
    case _ => Scale(location, f)
  }

  /** The scale a main object ends with: the special rules bake the scale into the mesh first. */
  function RuleScale(rule: MainRule, scale: Vec3, f: real): Vec3 {
    match rule
    case UniformRule => Scale(scale, f)
    case _ => One
  }

  /** A vertex of a main object's mesh afterwards, `scale` being the object's scale before. */
  function RuleVertex(rule: MainRule, scale: Vec3, v: Vec3, f: real): Vec3 {
    match rule
    case MotorMountRule => MotorMountVertex(Mul(scale, v), f)
    case MotorLinkRule => ZScaledVertex(Mul(scale, v), f)
    case UniformRule => v
  }

  /** A main object's whole mesh afterwards. */
  function RuleVertices(rule: MainRule, scale: Vec3, mesh: seq<Vec3>, f: real): (r: seq<Vec3>)
    ensures |r| == |mesh| && forall i :: 0 <= i < |mesh| ==> r[i] == RuleVertex(rule, scale, mesh[i], f)
  {
    seq(|mesh|, i requires 0 <= i < |mesh| => RuleVertex(rule, scale, mesh[i], f))
  }

  /** A main object's pose after the rule. */
  function MainScaled(rule: MainRule, p: Pose, f: real): Pose {
    Pose(RuleLocation(rule, p.location, f), RuleScale(rule, p.scale, f), RuleVertices(rule, p.scale, p.mesh, f))
  }

  /** `(a + b) * f`, distributed, with the product `b * f` regrouped when `b` is itself a product. */
  lemma Distribute(a: real, b: real, c: real, f: real)
    ensures (a + b * c) * f == a * f + (b * f) * c
    ensures (a + b * c) * f == a * f + 1.0 * ((b * c) * f)
  {
  }

  /** An ordinary main object is scaled about the world origin: every world point is multiplied by `f`. */
  lemma UniformRuleWorld(location: Vec3, scale: Vec3, v: Vec3, f: real)
    ensures WorldPoint(RuleLocation(UniformRule, location, f), RuleScale(UniformRule, scale, f), RuleVertex(UniformRule, scale, v, f))
         == Scale(WorldPoint(location, scale, v), f)
  {
    Distribute(location.x, scale.x, v.x, f);
    Distribute(location.y, scale.y, v.y, f);
    Distribute(location.z, scale.z, v.z, f);
  }

  /** The motor link is scaled about the world origin along z only. */
  lemma MotorLinkRuleWorld(location: Vec3, scale: Vec3, v: Vec3, f: real)
    ensures var w := WorldPoint(location, scale, v);
      WorldPoint(RuleLocation(MotorLinkRule, location, f), RuleScale(MotorLinkRule, scale, f), RuleVertex(MotorLinkRule, scale, v, f))
         == Vec3(w.x, w.y, w.z * f)
  {
    Distribute(location.z, scale.z, v.z, f);
  }

  /**
   * The motor mount is scaled about the world origin along x like an ordinary object, and along z
   * too for the part of its mesh that is not below the object's origin.
   */
  lemma MotorMountRuleWorld(location: Vec3, scale: Vec3, v: Vec3, f: real)
    ensures var w, w' := WorldPoint(location, scale, v),
                         WorldPoint(RuleLocation(MotorMountRule, location, f), RuleScale(MotorMountRule, scale, f), RuleVertex(MotorMountRule, scale, v, f));
      && w'.x == w.x * f
      && (Mul(scale, v).z >= 0.0 ==> w'.z == w.z * f)
      && (Mul(scale, v).z < 0.0 ==> w'.z == location.z * f + Mul(scale, v).z)
  {
    Distribute(location.x, scale.x, v.x, f);
    Distribute(location.z, scale.z, v.z, f);
  }

  /** `scale_object_from_origin`: location and scale multiplied by `f`, the mesh untouched. */
  method ScaleObjectFromOrigin(obj: SceneObject, f: real)
    modifies obj`location, obj`scale
    ensures obj.location == Scale(old(obj.location), f) && obj.scale == Scale(old(obj.scale), f)
  {
    obj.location := Scale(obj.location, f);
    obj.scale := Scale(obj.scale, f);
  }

  /** The part of `transform_apply(location=False, rotation=True, scale=True)` modelled: the scale is baked into the mesh. */
  method ApplyScale(obj: SceneObject)
    modifies obj`scale, obj.vertices
    ensures obj.scale == One
    ensures forall k :: 0 <= k < obj.vertices.Length ==> obj.vertices[k] == Mul(old(obj.scale), old(obj.vertices[k]))
  {
    var s := obj.scale;
    var i := 0;
    while i < obj.vertices.Length
      invariant 0 <= i <= obj.vertices.Length && obj.scale == s
      invariant forall k :: 0 <= k < i ==> obj.vertices[k] == Mul(s, old(obj.vertices[k]))
      invariant forall k :: i <= k < obj.vertices.Length ==> obj.vertices[k] == old(obj.vertices[k])
    {
      obj.vertices[i] := Mul(s, obj.vertices[i]);
      i := i + 1;
    }
    obj.scale := One;
  }

  /** Baking the scale into the mesh leaves every vertex where it was in the world. */
  lemma BakeKeepsWorld(location: Vec3, scale: Vec3, v: Vec3)
    ensures WorldPoint(location, One, Mul(scale, v)) == WorldPoint(location, scale, v)
  {
  }

  /** The bmesh loop shared by `scale_motor_link` and `scale_object_z_only`: every vertex z times `f`. */
  method ScaleVerticesZ(obj: SceneObject, f: real)
    modifies obj.vertices
    ensures forall k :: 0 <= k < obj.vertices.Length ==> obj.vertices[k] == ZScaledVertex(old(obj.vertices[k]), f)
  {
    var i := 0;
    while i < obj.vertices.Length
      invariant 0 <= i <= obj.vertices.Length
      invariant forall k :: 0 <= k < i ==> obj.vertices[k] == ZScaledVertex(old(obj.vertices[k]), f)
      invariant forall k :: i <= k < obj.vertices.Length ==> obj.vertices[k] == old(obj.vertices[k])
    {
      var co := obj.vertices[i];
      obj.vertices[i] := co.(z := co.z * f);
      i := i + 1;
    }
  }

  /** The bmesh loop of `scale_motor_mount`: every vertex through `MotorMountVertex`. */
  method MotorMountVertices(obj: SceneObject, f: real)
    modifies obj.vertices
    ensures forall k :: 0 <= k < obj.vertices.Length ==> obj.vertices[k] == MotorMountVertex(old(obj.vertices[k]), f)
  {
    var half := HalfScale(f);
    var i := 0;
    while i < obj.vertices.Length
      invariant 0 <= i <= obj.vertices.Length
      invariant forall k :: 0 <= k < i ==> obj.vertices[k] == MotorMountVertex(old(obj.vertices[k]), f)
      invariant forall k :: i <= k < obj.vertices.Length ==> obj.vertices[k] == old(obj.vertices[k])
    {
      var co := obj.vertices[i];
      co := co.(y := co.y * half);
      if co.z >= 0.0 {
        co := co.(x := co.x * f, z := co.z * f);
      } else {
        co := co.(x := co.x * f);
      }
      obj.vertices[i] := co;
      i := i + 1;
    }
  }

  /** `scale_motor_mount`: location times `f`, scale baked, then the per-vertex rule. */
  method ScaleMotorMount(obj: SceneObject, f: real)
    modifies obj`location, obj`scale, obj.vertices
    ensures PoseOf(obj) == MainScaled(MotorMountRule, old(PoseOf(obj)), f)
  {
    ghost var before := PoseOf(obj);
    obj.location := Scale(obj.location, f);
    ApplyScale(obj);
    MotorMountVertices(obj, f);
    assert obj.vertices[..] == RuleVertices(MotorMountRule, before.scale, before.mesh, f);
  }

  /** `scale_motor_link`: location z times `f`, scale baked, then every vertex z times `f`. */
  method ScaleMotorLink(obj: SceneObject, f: real)
    modifies obj`location, obj`scale, obj.vertices
    ensures PoseOf(obj) == MainScaled(MotorLinkRule, old(PoseOf(obj)), f)
  {
    ghost var before := PoseOf(obj);
    obj.location := obj.location.(z := obj.location.z * f);
    ApplyScale(obj);
    ScaleVerticesZ(obj, f);
    assert obj.vertices[..] == RuleVertices(MotorLinkRule, before.scale, before.mesh, f);
  }

  /** How `main` scales one main object, by the rule its name selects. */
  method ScaleMainObject(obj: SceneObject, f: real)
    modifies obj`location, obj`scale, obj.vertices
    ensures PoseOf(obj) == MainScaled(MainRuleFor(obj.name), old(PoseOf(obj)), f)
  {
    ghost var before := PoseOf(obj);
    var base := StripNumericSuffix(obj.name);
    if base == MotorMountName {
      ScaleMotorMount(obj, f);
    } else if base == MotorLinkName {
      ScaleMotorLink(obj, f);
    } else {
      ScaleObjectFromOrigin(obj, f);
      assert obj.vertices[..] == RuleVertices(UniformRule, before.scale, before.mesh, f);
    }
  }

  /** One pass of the scaling loop of `main`, for the main object at position `i`. */
  method ScaleMainObjectAt(obj: SceneObject, mains: seq<SceneObject>, i: nat, f: real, ghost poses0: seq<Pose>, ghost poses1: seq<Pose>)
    requires Distinct(mains) && i < |mains| == |poses0| == |poses1| && mains[i] == obj
    requires poses1[i] == MainScaled(MainRuleFor(obj.name), poses0[i], f)
    requires PosesReached(mains, poses0, poses1, i)
    modifies obj`location, obj`scale, obj.vertices
    ensures PosesReached(mains, poses0, poses1, i + 1)
  {
    assert forall k :: 0 <= k < |mains| && k != i ==> mains[k] != obj && mains[k].vertices != obj.vertices;
    ScaleMainObject(obj, f);
  }

  /** The scaling loop of `main` over the main objects; their booleans are not touched. */
  method ScaleMainObjects(mains: seq<SceneObject>, f: real)
    requires Distinct(mains)
    modifies mains, Meshes(mains)
    ensures forall i :: 0 <= i < |mains| ==> PoseOf(mains[i]) == MainScaled(MainRuleFor(mains[i].name), old(PoseOf(mains[i])), f)
    ensures BooleansOf(mains) == old(BooleansOf(mains))
  {
    ghost var poses0 := PosesOf(mains);
    ghost var poses1 := seq(|mains|, k requires 0 <= k < |mains| => MainScaled(MainRuleFor(mains[k].name), poses0[k], f));
    ghost var booleans0 := BooleansOf(mains);
    var i := 0;
    while i < |mains|
      invariant 0 <= i <= |mains|
      invariant PosesReached(mains, poses0, poses1, i)
      invariant BooleansOf(mains) == booleans0
    {
      ScaleMainObjectAt(mains[i], mains, i, f, poses0, poses1);
      i := i + 1;
    }
  }

  /** `scale_object_z_only`: the scale baked, then every vertex z times `f`; the location stays. */
  method ScaleObjectZOnly(obj: SceneObject, f: real)
    modifies obj`scale, obj.vertices
    ensures PoseOf(obj) == CutPose(ScaleZ, old(PoseOf(obj)), f)
  {
    ghost var before := PoseOf(obj);
    ApplyScale(obj);
    ScaleVerticesZ(obj, f);
    assert obj.vertices[..] == RuleVertices(MotorLinkRule, before.scale, before.mesh, f);
  }

  /**
   * A cut's pose once `process_cuts` has prepared it: fixed cuts are used as they are, floating cuts
   * have their location scaled, z-scaled cuts their mesh scaled along z (as the motor link's is).
   */
  function CutPose(kind: CutKind, p: Pose, f: real): Pose {
    match kind
    case Fixed => p
    case Float => p.(location := Scale(p.location, f))
    case ScaleZ => Pose(p.location, One, RuleVertices(MotorLinkRule, p.scale, p.mesh, f))
  }

  /** The pose of a cut afterwards, given what `CutTarget` says of it: a cut without a target is left alone. */
  function CutTransformed(target: Option<(CutKind, nat)>, p: Pose, f: real): Pose {
    match target
    case None => p
    case Some((kind, _)) => CutPose(kind, p, f)
  }

  /** A floating cut keeps its shape and moves rigidly by `(f - 1)` times its location. */
  lemma FloatCutWorld(p: Pose, v: Vec3, f: real)
    ensures var p' := CutPose(Float, p, f);
      WorldPoint(p'.location, p'.scale, v) == Add(WorldPoint(p.location, p.scale, v), Scale(p.location, f - 1.0))
  {
    assert p.location.x * f == p.location.x + p.location.x * (f - 1.0);
    assert p.location.y * f == p.location.y + p.location.y * (f - 1.0);
    assert p.location.z * f == p.location.z + p.location.z * (f - 1.0);
  }

  /**
   * A z-scaled cut is stretched along z about its own origin: every world point keeps x and y, and its
   * height above the origin is multiplied by `f`.
   */
  lemma ScaleZCutWorld(p: Pose, i: nat, f: real)
    requires i < |p.mesh|
    ensures var w, p' := WorldPoint(p.location, p.scale, p.mesh[i]), CutPose(ScaleZ, p, f);
      WorldPoint(p'.location, p'.scale, p'.mesh[i]) == Vec3(w.x, w.y, p.location.z + (w.z - p.location.z) * f)
  {
  }

  /** `apply_boolean_modifier`: a difference modifier named `modifierName` with `cut` is added to `main` and applied. */
  method ApplyBooleanModifier(main: SceneObject, cut: SceneObject, modifierName: string)
    modifies main`booleans
    ensures main.booleans == old(main.booleans) + [AppliedCut(modifierName, cut.name)]
  {
    main.booleans := main.booleans + [AppliedCut(modifierName, cut.name)];
  }

  /** The target of every cut, in order. */
  function Targets(cutNames: seq<string>, mainNames: seq<string>): (r: seq<Option<(CutKind, nat)>>)
    ensures |r| == |cutNames| && forall m :: 0 <= m < |cutNames| ==> r[m] == CutTarget(cutNames[m], mainNames)
  {
    seq(|cutNames|, m requires 0 <= m < |cutNames| => CutTarget(cutNames[m], mainNames))
  }

  /** The modifier that cut `cutName`, with the given target, leaves on the main object at position `j`. */
  function CutsApplied(cutName: string, target: Option<(CutKind, nat)>, j: nat): seq<AppliedCut> {
    if target.Some? && target.value.1 == j then [AppliedCut("bool_" + cutName, cutName)] else []
  }

  /** The modifiers that cuts `i` onwards, with their targets, leave in order on the main object at `j`. */
  function BooleansFrom(cutNames: seq<string>, targets: seq<Option<(CutKind, nat)>>, i: nat, j: nat): seq<AppliedCut>
    requires i <= |targets| == |cutNames|
    decreases |cutNames| - i
  {
    if i == |cutNames| then [] else CutsApplied(cutNames[i], targets[i], j) + BooleansFrom(cutNames, targets, i + 1, j)
  }

  /**
   * The main object at position `j` receives exactly the `bool_` modifiers of the cuts that target it,
   * and no other.
   */
  lemma {:induction false} BooleansFromMembers(cutNames: seq<string>, targets: seq<Option<(CutKind, nat)>>, i: nat, j: nat)
    requires i <= |targets| == |cutNames|
    ensures forall a :: a in BooleansFrom(cutNames, targets, i, j) <==>
      exists m :: i <= m < |cutNames| && targets[m].Some? && targets[m].value.1 == j
                  && a == AppliedCut("bool_" + cutNames[m], cutNames[m])
    decreases |cutNames| - i
  {
    if i < |cutNames| {
      BooleansFromMembers(cutNames, targets, i + 1, j);
    }
  }

  /**
   * What `process_cuts` does to a cut whose prefix and name select `target`: a floating cut has its
   * location scaled, a z-scaled cut its mesh; a fixed cut, or a cut without a target, is left alone.
   */
  method PrepareCut(cut: SceneObject, target: Option<(CutKind, nat)>, f: real)
    modifies cut`location, cut`scale, cut.vertices
    ensures PoseOf(cut) == CutTransformed(target, old(PoseOf(cut)), f)
  {
    match target
    case None =>
    case Some((kind, _)) =>
      if kind == Float {
        cut.location := Scale(cut.location, f);
      } else if kind == ScaleZ {
        ScaleObjectZOnly(cut, f);
      }
  }

  /** The modifier lists of the main objects once cut `cutName`, with `target`, has been applied. */
  function AfterCut(booleans: seq<seq<AppliedCut>>, cutName: string, target: Option<(CutKind, nat)>): (r: seq<seq<AppliedCut>>)
    ensures |r| == |booleans|
  {
    if target.Some? && target.value.1 < |booleans| then
      var k := target.value.1;
      booleans[k := booleans[k] + [AppliedCut("bool_" + cutName, cutName)]]
    else booleans
  }

  /** The modifier lists of the main objects once cuts `i` onwards have been applied to `booleans`, in order. */
  function AfterCutsFrom(booleans: seq<seq<AppliedCut>>, cutNames: seq<string>, targets: seq<Option<(CutKind, nat)>>, i: nat): (r: seq<seq<AppliedCut>>)
    requires i <= |targets| == |cutNames|
    ensures |r| == |booleans|
    decreases |cutNames| - i
  {
    if i == |cutNames| then booleans
    else AfterCutsFrom(AfterCut(booleans, cutNames[i], targets[i]), cutNames, targets, i + 1)
  }

  /**
   * The two views of the booleans agree: main object `j` ends with what it had plus, in cut order,
   * the `bool_` modifier of every cut that targets it.
   */
  lemma {:induction false} AfterCutsPerMain(booleans: seq<seq<AppliedCut>>, cutNames: seq<string>,
                                            targets: seq<Option<(CutKind, nat)>>, i: nat, j: nat)
    requires i <= |targets| == |cutNames| && j < |booleans|
    ensures AfterCutsFrom(booleans, cutNames, targets, i)[j] == booleans[j] + BooleansFrom(cutNames, targets, i, j)
    decreases |cutNames| - i
  {
    if i == |cutNames| {
      assert booleans[j] + [] == booleans[j];
    } else {
      var next := AfterCut(booleans, cutNames[i], targets[i]);
      var applied := CutsApplied(cutNames[i], targets[i], j);
      AfterCutPerMain(booleans, cutNames[i], targets[i], j);
      AfterCutsPerMain(next, cutNames, targets, i + 1, j);
      var rest := BooleansFrom(cutNames, targets, i + 1, j);
      assert (booleans[j] + applied) + rest == booleans[j] + (applied + rest);
    }
  }

  /** One cut: the main object at `j` gains that cut's modifier if the cut targets it, and nothing otherwise. */
  lemma AfterCutPerMain(booleans: seq<seq<AppliedCut>>, cutName: string, target: Option<(CutKind, nat)>, j: nat)
    requires j < |booleans|
    ensures AfterCut(booleans, cutName, target)[j] == booleans[j] + CutsApplied(cutName, target, j)
  {
    if CutsApplied(cutName, target, j) == [] {
      assert booleans[j] + [] == booleans[j];
    }
  }

  /** `apply_boolean_modifier` on the main object at position `k`, seen on the whole list of main objects. */
  method ApplyBooleanModifierAt(main: SceneObject, mains: seq<SceneObject>, k: nat, cut: SceneObject, modifierName: string)
    requires k < |mains| && mains[k] == main && Distinct(mains)
    modifies main`booleans
    ensures BooleansOf(mains) == old(BooleansOf(mains))[k := old(BooleansOf(mains))[k] + [AppliedCut(modifierName, cut.name)]]
  {
    ghost var before := BooleansOf(mains);
    ApplyBooleanModifier(main, cut, modifierName);
    assert forall j :: 0 <= j < |mains| && j != k ==> mains[j] != mains[k];
    assert BooleansOf(mains) == before[k := before[k] + [AppliedCut(modifierName, cut.name)]];
  }

  /** The objects before `i` have reached the poses `after`, the others still have the poses `before`. */
  ghost predicate PosesReached(objs: seq<SceneObject>, before: seq<Pose>, after: seq<Pose>, i: nat)
    requires i <= |objs| == |before| == |after|
    reads objs, Meshes(objs)
  {
    (forall m :: 0 <= m < i ==> PoseOf(objs[m]) == after[m])
    && (forall m :: i <= m < |objs| ==> PoseOf(objs[m]) == before[m])
  }

  /** The poses the cuts are to end with. */
  ghost function TransformedPoses(targets: seq<Option<(CutKind, nat)>>, poses: seq<Pose>, f: real): (r: seq<Pose>)
    requires |targets| == |poses|
    ensures |r| == |poses| && forall m :: 0 <= m < |poses| ==> r[m] == CutTransformed(targets[m], poses[m], f)
  {
    seq(|poses|, m requires 0 <= m < |poses| => CutTransformed(targets[m], poses[m], f))
  }

  /**
   * What the loop of `process_cuts` relies on throughout: distinct cuts and main objects, the cut
   * names, a target per cut within the main objects, and the poses each cut is to end with.
   */
  ghost predicate CutLoopSetting(cuts: seq<SceneObject>, mains: seq<SceneObject>, names: seq<string>,
                                 targets: seq<Option<(CutKind, nat)>>, poses0: seq<Pose>, poses1: seq<Pose>, f: real)
  {
    Distinct(cuts) && Distinct(mains) && Apart(cuts, mains) && names == Names(cuts)
    && |targets| == |poses0| == |poses1| == |cuts|
    && (forall m :: 0 <= m < |cuts| && targets[m].Some? ==> targets[m].value.1 < |mains|)
    && (forall m :: 0 <= m < |cuts| ==> poses1[m] == CutTransformed(targets[m], poses0[m], f))
  }

  /** One pass of the loop of `process_cuts`, for the cut at position `i`. */
  method ProcessCutAt(cut: SceneObject, cuts: seq<SceneObject>, mains: seq<SceneObject>, names: seq<string>, targets: seq<Option<(CutKind, nat)>>,
                      i: nat, f: real, ghost poses0: seq<Pose>, ghost poses1: seq<Pose>, ghost booleans: seq<seq<AppliedCut>>)
    requires CutLoopSetting(cuts, mains, names, targets, poses0, poses1, f)
    requires i < |cuts| && cuts[i] == cut
    requires PosesReached(cuts, poses0, poses1, i)
    requires BooleansOf(mains) == booleans
    modifies cut`location, cut`scale, cut.vertices, (set o | o in mains)`booleans
    ensures PosesReached(cuts, poses0, poses1, i + 1)
    ensures BooleansOf(mains) == AfterCut(booleans, names[i], targets[i])
  {
    assert forall m :: 0 <= m < |cuts| && m != i ==> cuts[m] != cuts[i] && cuts[m].vertices != cuts[i].vertices;
    PrepareCut(cut, targets[i], f);
    if targets[i].Some? {
      var main := mains[targets[i].value.1];
      assert main in mains;
      ApplyBooleanModifierAt(main, mains, targets[i].value.1, cut, "bool_" + cut.name);
    }
  }

  /**
   * The loop of `process_cuts` over the cuts, each cut `cuts[m]` going to `targets[m]` (what
   * `CutTarget` finds for it, as `ProcessCuts` passes).
   */
  method ProcessCutsWith(cuts: seq<SceneObject>, mains: seq<SceneObject>, targets: seq<Option<(CutKind, nat)>>, f: real)
    requires Distinct(cuts) && Distinct(mains) && Apart(cuts, mains)
    requires |targets| == |cuts| && forall m :: 0 <= m < |cuts| && targets[m].Some? ==> targets[m].value.1 < |mains|
    modifies cuts, Meshes(cuts), (set o | o in mains)`booleans
    ensures forall m :: 0 <= m < |cuts| ==> PoseOf(cuts[m]) == CutTransformed(targets[m], old(PoseOf(cuts[m])), f)
    ensures BooleansOf(mains) == AfterCutsFrom(old(BooleansOf(mains)), Names(cuts), targets, 0)
  {
    var names := Names(cuts);
    ghost var poses0 := PosesOf(cuts);
    ghost var poses1 := TransformedPoses(targets, poses0, f);
    ghost var booleans := BooleansOf(mains);
    ghost var final := AfterCutsFrom(booleans, names, targets, 0);
    assert CutLoopSetting(cuts, mains, names, targets, poses0, poses1, f);
    var i := 0;
    while i < |cuts|
      invariant 0 <= i <= |cuts|
      invariant PosesReached(cuts, poses0, poses1, i)
      invariant AfterCutsFrom(booleans, names, targets, i) == final
      invariant BooleansOf(mains) == booleans
    {
      ProcessCutAt(cuts[i], cuts, mains, names, targets, i, f, poses0, poses1, booleans);
      booleans := AfterCut(booleans, names[i], targets[i]);
      i := i + 1;
    }
  }

  /** `process_cuts`: every cut in turn, in the order of the `Cuts` collection, applied to the main object its name selects. */
  method ProcessCuts(cuts: seq<SceneObject>, mains: seq<SceneObject>, f: real)
    requires Distinct(cuts) && Distinct(mains) && Apart(cuts, mains)
    modifies cuts, Meshes(cuts), (set o | o in mains)`booleans
    ensures forall m :: 0 <= m < |cuts| ==>
      PoseOf(cuts[m]) == CutTransformed(Targets(Names(cuts), Names(mains))[m], old(PoseOf(cuts[m])), f)
    ensures BooleansOf(mains) == AfterCutsFrom(old(BooleansOf(mains)), Names(cuts), Targets(Names(cuts), Names(mains)), 0)
  {
    ProcessCutsWith(cuts, mains, Targets(Names(cuts), Names(mains)), f);
  }

  /** The scaling loop of `main`, seen from the cuts: it moves none of them. */
  method ScaleMainsBesideCuts(mains: seq<SceneObject>, cuts: seq<SceneObject>, f: real)
    requires Distinct(mains) && Apart(cuts, mains)
    modifies mains, Meshes(mains)
    ensures forall j :: 0 <= j < |mains| ==> PoseOf(mains[j]) == MainScaled(MainRuleFor(mains[j].name), old(PoseOf(mains[j])), f)
    ensures BooleansOf(mains) == old(BooleansOf(mains))
    ensures PosesOf(cuts) == old(PosesOf(cuts))
  {
    assert forall m :: 0 <= m < |cuts| ==> cuts[m] !in mains && cuts[m].vertices !in Meshes(mains);
    ScaleMainObjects(mains, f);
  }

  /** `process_cuts`, seen from the main objects: it moves none of them. */
  method CutsBesideMains(cuts: seq<SceneObject>, mains: seq<SceneObject>, f: real)
    requires Distinct(cuts) && Distinct(mains) && Apart(cuts, mains)
    modifies cuts, Meshes(cuts), (set o | o in mains)`booleans
    ensures forall m :: 0 <= m < |cuts| ==>
      PoseOf(cuts[m]) == CutTransformed(Targets(Names(cuts), Names(mains))[m], old(PoseOf(cuts[m])), f)
    ensures BooleansOf(mains) == AfterCutsFrom(old(BooleansOf(mains)), Names(cuts), Targets(Names(cuts), Names(mains)), 0)
    ensures PosesOf(mains) == old(PosesOf(mains))
  {
    assert forall j :: 0 <= j < |mains| ==> mains[j] !in cuts && mains[j].vertices !in Meshes(cuts);
    ProcessCuts(cuts, mains, f);
  }

  /**
   * The transform steps of `main`: every main object is scaled by the rule its name selects, then
   * every cut is prepared and subtracted from the main object it names. The cuts see the main objects'
   * names only, so scaling first does not change which cut goes where.
   */
  method ScaleAndCut(mains: seq<SceneObject>, cuts: seq<SceneObject>, f: real)
    requires Distinct(cuts) && Distinct(mains) && Apart(cuts, mains)
    modifies mains, Meshes(mains), cuts, Meshes(cuts)
    ensures forall j :: 0 <= j < |mains| ==> PoseOf(mains[j]) == MainScaled(MainRuleFor(mains[j].name), old(PoseOf(mains[j])), f)
    ensures forall m :: 0 <= m < |cuts| ==>
      PoseOf(cuts[m]) == CutTransformed(Targets(Names(cuts), Names(mains))[m], old(PoseOf(cuts[m])), f)
    ensures BooleansOf(mains) == AfterCutsFrom(old(BooleansOf(mains)), Names(cuts), Targets(Names(cuts), Names(mains)), 0)
  {
    ghost var mains0, cuts0 := PosesOf(mains), PosesOf(cuts);
    ScaleMainsBesideCuts(mains, cuts, f);
    ghost var mains1 := PosesOf(mains);
    CutsBesideMains(cuts, mains, f);
    assert forall j :: 0 <= j < |mains| ==> PoseOf(mains[j]) == mains1[j];
    assert forall m :: 0 <= m < |cuts| ==> old(PoseOf(cuts[m])) == cuts0[m];
  }
}
