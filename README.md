# Gripper viewer and asset generator, modelled in Dafny

This project models two cooperating pieces of the miniG project page.

The first is the state logic of the interactive 3D gripper viewer (`static/js/gripper-viewer.js`). Its
module-level state is the class `GripperViewer.Viewer`:
- the generation token `loadToken`;
- the group's children, each with its part file, label, owning request and base position;
- the two finger lists and the finger open distance;
- the picked point and label;
- the readouts.

The asynchronous completions of the page are explicit events, applied one at a time:
- a part load finishing (`PartLoaded`);
- all part loads of a request settling (`AllSettled`);
- the dimensions file arriving (`FetchCompleted`).

Each event carries the token its request was started with. The class invariant `Valid` states that
every child of the group belongs to the most recent request, whatever order the events come in. The
pure rules are in `ViewerRules`: the size-index clamp, the openness label, the parent-chain label
lookup, the finger grouping and the positions `applyOpenness` gives. The parser of `pad_dimensions.txt`
is in `PadParser`. Its regular expression is modelled by a deterministic scan, which is proved sound,
complete and leftmost against a declarative reading of the expression.

The second is the naming and transform logic of the Blender script `GripGen/script.py`:
- the `.NNN` suffix rule and the cut-name prefixes (`GripGenNames`);
- main-object lookup and the export name (`GripGenNames`);
- the per-object and per-vertex scaling rules with the `motor_mount` and `motor_link` special cases
  (`GripGenScaling`);
- the cut processing loop (`GripGenScaling`);
- the writer of `pad_dimensions.txt` (`GripGenPad`).

Scene objects are a class with a vertex array, so the bmesh loops stay loops over that array. The
module `PadRoundTrip` connects the two programs. The text the script writes is parsed by the viewer
into exactly the three numbers that were written.

Coordinates are `real`. Bounding boxes, pick hits, fetch outcomes and slider values are parameters of
the events.

The part sets are kept as the code writes them. The labels at static/js/gripper-viewer.js:53-54 call
`Optical_shell_locked.001` the right optical shell, yet line 66 puts it in `LEFT_FINGER_PARTS`, and line 71
puts `Optical_shell_locked` in `RIGHT_FINGER_PARTS`. The openness slider runs from 0 to 100
(static/js/gripper-viewer.js:370-373) and its value is divided by 100 (line 360). `applyOpenness`
(static/js/gripper-viewer.js:290-311) never clamps its argument, so the model does not clamp it either.

## Model

| member | source | states |
|---|---|---|
| ViewerRules.FingerSetsDisjoint | static/js/gripper-viewer.js:61-74 | no part file is in both finger sets |
| ViewerRules.FingerPartsAreLoaded | static/js/gripper-viewer.js:43-74 | every finger part file is the file of one of the loaded parts |
| ViewerRules.BoxSize | static/js/gripper-viewer.js:183-187 | the size of a box is its max corner minus its min corner, and zero for the empty box; `FrameObject` states what framing does with it |
| ViewerRules.BoxCenter | static/js/gripper-viewer.js:188 | the centre is as far from the min corner as the max corner is from it |
| ViewerRules.FrameDistance | static/js/gripper-viewer.js:193-194 | the camera distance is 2.2 times the largest dimension: at least 2.2 times each dimension and equal to 2.2 times one of them |
| ViewerRules.ClampIndex | static/js/gripper-viewer.js:313-315 | the clamped index is always a valid size index; below 0 gives 0, past the end gives the last index, an in-range index is kept |
| ViewerRules.IndexOf | static/js/gripper-viewer.js:376 | `indexOf` returns -1 exactly when the value is absent, and otherwise the first position holding it |
| ViewerRules.DefaultSizeIndex | static/js/gripper-viewer.js:376 | the start-up size "1.5" is at index 5, which the clamp keeps |
| ViewerRules.OpennessLabel | static/js/gripper-viewer.js:309 | "Open" iff t >= 0.95, "Closed" iff t <= 0.05, "Partial" iff 0.05 < t < 0.95 |
| ViewerRules.FindLabelForObject | static/js/gripper-viewer.js:322-331 | returns no label iff no node on the parent chain has one; otherwise the first label on the chain, walking upward |
| ViewerRules.Captured | static/js/gripper-viewer.js:244-248 | every child's base position becomes its current position, nothing else changes |
| ViewerRules.CapturedPointwise | static/js/gripper-viewer.js:244-248 | a group that agrees with the capture child by child is the captured group |
| ViewerRules.IndicesIn | static/js/gripper-viewer.js:214-221 | a finger list holds exactly the children whose file is in the set, in group order |
| ViewerRules.IndicesInSameFiles | static/js/gripper-viewer.js:244-249 | the finger lists depend only on the children's files, so capturing base positions first does not change them |
| ViewerRules.FingerListsDisjoint | static/js/gripper-viewer.js:214-221 | no child is in both finger lists |
| ViewerRules.FingerOffset | static/js/gripper-viewer.js:291 | closed moves no finger, fully open moves each finger half the open distance so the two end the open distance apart, and any openness in [0, 1] moves a finger between nothing and half the open distance |
| ViewerRules.Placed | static/js/gripper-viewer.js:292-307 | where one child ends: unmoved without a base position, otherwise at its base shifted by the offset along x for the left finger and against it for the right one; `OpennessPositions` states it per child |
| ViewerRules.WithOpenness | static/js/gripper-viewer.js:290-307 | the group after `applyOpenness` has the same length, and each child is placed by its own base position and finger membership |
| ViewerRules.OpennessPositions | static/js/gripper-viewer.js:290-307 | a child without a base position does not move; right-finger children go to base - (offset, 0, 0), left-finger ones to base + (offset, 0, 0), all others to their base; nothing but the position changes |
| ViewerRules.OpennessKeepsParts | static/js/gripper-viewer.js:290-307 | openness changes positions only: files, labels, tokens and base positions stay |
| ViewerRules.ClosedRestoresBase | static/js/gripper-viewer.js:290-307 | openness 0 puts every child that has a base position back at it |
| ViewerRules.OpennessForgetsEarlier | static/js/gripper-viewer.js:290-307 | applying an openness after an earlier one gives the same as applying it alone |
| ViewerRules.ReplayIsLast | static/js/gripper-viewer.js:359-361 | after any sequence of slider moves the children are where the last value alone puts them |
| ViewerRules.OpennessIdempotent | static/js/gripper-viewer.js:290-307 | applying the same openness twice equals applying it once |
| ViewerRules.OpennessWithoutBases | static/js/gripper-viewer.js:293-305 | children without base positions are never moved |
| GripperViewer.CountMissing | static/js/gripper-viewer.js:253 | the missing count is the number of `false` results, so at most the number of parts, 0 iff every load succeeded, and all of them iff every load failed |
| GripperViewer.MissingOfOutcomes | static/js/gripper-viewer.js:238-253 | results that are the reported outcomes of a request's loads, in whatever order they arrive, count exactly the failed loads of that request |
| GripperViewer.Viewer.constructor | static/js/gripper-viewer.js:104-111 | the state starts with token 0, an empty group, empty finger lists, open distance 0, no pick, the openness slider at 0 and no load outcome recorded |
| GripperViewer.Viewer.ResetLabel | static/js/gripper-viewer.js:202-207 | the picked point and label are cleared and the label hidden |
| GripperViewer.Viewer.LoadSize | static/js/gripper-viewer.js:232-235 | the token grows by exactly one, the request is recorded with no load outcome yet, and the pick state and group are cleared, all before any part completes; the invariant is kept |
| GripperViewer.Viewer.SetSizeByIndex | static/js/gripper-viewer.js:313-320 | the clamped index is shown with its size text and that size is requested: a new token, no load outcome yet, an empty unsettled group and the pick state cleared and hidden |
| GripperViewer.Viewer.PartLoaded | static/js/gripper-viewer.js:154-179 | a part joins the group, reporting true, iff its load succeeded and its token is current; otherwise the group is unchanged and false is reported; the reported outcome is added to its own request's outcomes; every child stays from the latest request |
| GripperViewer.Viewer.FrameObject | static/js/gripper-viewer.js:181-200 | an empty box changes nothing; otherwise the model size is the box size, the group is shifted by minus the box centre, the camera stands at 2.2 times the largest dimension on each axis and looks at the origin; the class invariant is kept, since framing touches none of its fields |
| GripperViewer.Viewer.CaptureBasePositions | static/js/gripper-viewer.js:244-248 | each child's base position becomes its current position |
| GripperViewer.Viewer.CollectFingerGroups | static/js/gripper-viewer.js:209-230 | the finger lists are the children whose file is in the left or right set; if either list is empty the open distance is 0, otherwise it is the left box's x extent, clamped at 0 |
| GripperViewer.Viewer.ApplyOpenness | static/js/gripper-viewer.js:290-311 | the group becomes `WithOpenness` of the previous group at offset open distance * 0.5 * t, and the label text is `OpennessLabel(t)` |
| GripperViewer.Viewer.RestoreBasePositions | static/js/gripper-viewer.js:292-296 | every child with a base position is put back at it; the others stay |
| GripperViewer.Viewer.MoveLeftFinger | static/js/gripper-viewer.js:298-302 | left-finger children with a base position are put at base + offset along x |
| GripperViewer.Viewer.MoveRightFinger | static/js/gripper-viewer.js:303-307 | right-finger children with a base position are put at base - offset along x |
| GripperViewer.Viewer.OpennessInput | static/js/gripper-viewer.js:359-361 | the slider holds v, the group becomes `WithOpenness` at openness v / 100, the label text is `OpennessLabel(v / 100)`, and the invariant is kept |
| GripperViewer.Viewer.CaptureAndGroup | static/js/gripper-viewer.js:244-249 | base positions are captured and the fingers grouped from the children's files; the open distance is 0 when either finger list is empty and the left box's x extent clamped at 0 otherwise; the request counts as settled |
| GripperViewer.Viewer.ApplyOpennessValid | static/js/gripper-viewer.js:250 | re-applying the openness keeps the class invariant |
| GripperViewer.Viewer.AllSettled | static/js/gripper-viewer.js:238-256 | it proceeds iff its token is current; a stale request changes neither group, fingers, open distance, framing, controls target, openness text nor readout; the current one frames the model as `FrameObject` does, groups the fingers, sets the open distance from the left box, applies the slider's openness / 100 to the captured group, sets the openness text, and counts as missing exactly the failed loads recorded for that request |
| GripperViewer.Viewer.Settle | static/js/gripper-viewer.js:244-250 | for the current request: the finger lists come from the children's files, the open distance from the left box, and the group becomes the captured group with the slider's openness / 100 applied, with its label text |
| GripperViewer.Viewer.FrameAndSettle | static/js/gripper-viewer.js:243-250 | framing and then settling: model size, group position, camera, controls target and size readout end as `FrameObject` states, and the group, finger lists, open distance and openness text as `Settle` states, from the children before framing, which framing does not touch |
| GripperViewer.Viewer.FetchCompleted | static/js/gripper-viewer.js:259-282 | a stale completion writes nothing; a failed fetch or text that does not parse writes the two fallback texts; parsed dimensions show the Y by Z area and the Y and Z values |
| GripperViewer.Viewer.PointerDown | static/js/gripper-viewer.js:333-352 | without a hit, or without a label on the hit's parent chain, the pick state is unchanged; otherwise the hit point and the first label on the chain are recorded and shown |
| GripperViewer.Viewer.Start | static/js/gripper-viewer.js:373-377 | start-up sets the openness slider to 0, shows "1.5x" at index 5 and requests size "1.5" (a new token, no load outcome yet, an empty unsettled group, the pick state cleared and hidden), and shows the fingers as "Closed" |
| PadParser.WhitespaceEnd | static/js/gripper-viewer.js:285 | `\s*` consumes whitespace up to the first character that is not whitespace |
| PadParser.NumberEnd | static/js/gripper-viewer.js:285 | `[0-9.]+` consumes digits and dots up to the first character that is neither |
| Text.IsJsWhitespace | static/js/gripper-viewer.js:285 | the characters `\s` matches in JavaScript: tab, line feed, vertical tab, form feed, carriage return, space, no-break space, the Unicode space separators, the line and paragraph separators and the byte order mark |
| PadParser.OccursAt | static/js/gripper-viewer.js:285 | a declarative occurrence of the expression: `X` or `x`, `:`, whitespace, a nonempty run of digits and dots, whitespace ending in CR or LF, then the same for Y and for Z |
| PadParser.MatchAt | static/js/gripper-viewer.js:285 | the scan at one position; `MatchAtSound` and `MatchAtComplete` prove it finds exactly the greedy occurrences of `OccursAt` |
| PadParser.FirstHit | static/js/gripper-viewer.js:285 | the search returns the first position from `p` on where a match starts, or none if there is none |
| PadParser.MatchPositions | static/js/gripper-viewer.js:285 | one entry per start position, including the end of the text, true iff the expression matches there |
| PadParser.FirstMatch | static/js/gripper-viewer.js:285 | the leftmost start position where the expression matches, or none iff it matches nowhere |
| PadParser.FindOccurrence | static/js/gripper-viewer.js:285 | no occurrence is found iff the expression matches at no position |
| PadParser.ParsePadDimensions | static/js/gripper-viewer.js:284-288 | the result is null iff the expression matches at no position of the text |
| PadParser.KeyedNumberAtSound | static/js/gripper-viewer.js:285 | a number read after a key is a key, `:`, whitespace and a nonempty greedy run of digits and dots |
| PadParser.BreakEndSound | static/js/gripper-viewer.js:285 | a line break read is whitespace ending in CR or LF |
| PadParser.MatchAtSound | static/js/gripper-viewer.js:285 | every match the scan reports is a greedy occurrence of the expression at that position |
| PadParser.WhitespaceEndExact | static/js/gripper-viewer.js:285 | a whitespace run followed by a non-whitespace character is exactly what `\s*` consumes |
| PadParser.NumberEndExact | static/js/gripper-viewer.js:285 | the greedy number run extends any run of digits and dots, and equals a run that cannot be extended |
| PadParser.NumberCharsSlice | static/js/gripper-viewer.js:285 | a captured group holds only digits and dots |
| PadParser.NumberCharsFromChars | static/js/gripper-viewer.js:285 | any stretch of digits and dots is a run the number class matches |
| PadParser.KeyedNumberAtComplete | static/js/gripper-viewer.js:285 | whenever a key is followed by whitespace and a number, the scan reads that number, greedily |
| PadParser.BreakEndComplete | static/js/gripper-viewer.js:285 | whenever a line break precedes a key, the scan finds the key there |
| PadParser.MatchAtComplete | static/js/gripper-viewer.js:285 | any occurrence of the expression at a position is found by the scan there, with the last group greedy |
| PadParser.ParseSound | static/js/gripper-viewer.js:284-288 | a successful parse comes from a greedy occurrence at the leftmost matching position, and all three groups are nonempty strings of digits and dots |
| PadParser.ParseLeftmost | static/js/gripper-viewer.js:284-288 | a greedy occurrence with no match before it is exactly what is parsed |
| PadParser.ParseComplete | static/js/gripper-viewer.js:284-288 | whenever the expression occurs somewhere, parsing succeeds |
| GripGenNames.StripNumericSuffix | GripGen/script.py:59 | a trailing `.` plus digits is removed, and a name without one is returned unchanged |
| GripGenNames.DropPrefix | GripGen/script.py:57 | slicing off the first n characters gives the rest, or the empty string when n is past the end |
| GripGenNames.MainObjectName | GripGen/script.py:54-60 | the main object's name is a leading part of the cut name after its prefix; `MainObjectNameOfDuplicate` and `MainObjectNameOfOriginal` state which part |
| GripGenNames.MainObjectNameOfDuplicate | GripGen/script.py:54-60 | the cut `prefix + main + "." + digits` names the main object `main` |
| GripGenNames.MainObjectNameOfOriginal | GripGen/script.py:54-60 | the cut `prefix + main` names `main` when `main` has no suffix |
| GripGenNames.MainObjectNameExample | GripGen/script.py:54-60 | `cut_fixed_pad.001` with prefix `cut_fixed_` names `pad` |
| GripGenNames.FindMainObjectFrom | GripGen/script.py:63-70 | the first object from a position on whose name, with or without its suffix, is the base name |
| GripGenNames.FindMainObject | GripGen/script.py:63-70 | the first object whose name, with or without its suffix, is the base name; none iff no object matches |
| GripGenNames.CutKindOf | GripGen/script.py:219-240 | the kind whose prefix the name starts with, trying fixed, float, then scale-z; none iff it starts with none of them |
| GripGenNames.CutPrefixesExclusive | GripGen/script.py:219-240 | no name starts with two prefixes, so the order of the tests does not matter |
| GripGenNames.CutTarget | GripGen/script.py:219-245 | a cut applies iff its prefix is known and the stripped name finds a main object; that object's name then matches |
| GripGenNames.CollectionName | GripGen/script.py:261-266 | the first collection other than "Scene Collection", or "Unknown" if there is none |
| GripGenNames.ExportName | GripGen/script.py:286-287 | the export name is the collection's name, then `_`, then the object's name: cutting it after that name and the `_` gives the object's name back |
| GripGenNames.ExportNameInCollection | GripGen/script.py:286-287 | an object of collection C is exported as `C_` plus its name |
| Text.NatToString | GripGen/script.py:325-327 | the written numeral is nonempty, all digits and has no leading zero |
| Text.NatToStringValue | GripGen/script.py:325-327 | the numeral's value is the number written |
| GripGenPad.PadDimensionsText | GripGen/script.py:323-327 | the file text: the title and rule lines, then `X: `, `Y: ` and `Z: ` lines with the millimetre numerals; `WrittenFileParses` proves the viewer reads the three numerals back |
| GripGenPad.SavePadDimensions | GripGen/script.py:300-327 | nothing is written iff no object's suffix-stripped name is `pad`; otherwise the two header lines and the X, Y, Z lines of the first such object |
| PadRoundTrip.HeaderHasNoKey | GripGen/script.py:323-324 | the header lines contain no `X` or `x`, so no match starts in them |
| PadRoundTrip.LayoutOccurs | GripGen/script.py:323-327 | a header, then `X: `, `Y: ` and `Z: ` lines with numerals, contains a greedy occurrence of the viewer's expression right after the header |
| PadRoundTrip.NoMatchInHeader | GripGen/script.py:323-324 | no match of the viewer's expression starts inside a header without the letter X |
| PadRoundTrip.LayoutParses | GripGen/script.py:323-327 | such a file parses to exactly its three numerals |
| PadRoundTrip.WrittenFileParses | GripGen/script.py:323-327 | the viewer parses the written file to the three numerals written |
| PadRoundTrip.WrittenValuesRead | static/js/gripper-viewer.js:285 | the three numbers read back from a written file have the written values |
| GripGenScaling.HalfScale | GripGen/script.py:118 | the y factor is (1 + s) / 2, between 1 and s |
| GripGenScaling.VertexRulesIdentity | GripGen/script.py:121-132 | with s = 1 neither vertex rule moves a vertex |
| GripGenScaling.MotorMountVertex | GripGen/script.py:121-132 | the motor-mount vertex rule: y times (1 + s) / 2, x times s, and z times s only for vertices not below the plane; `MotorMountKeepsSides` states it component by component |
| GripGenScaling.ZScaledVertex | GripGen/script.py:163-164 | the motor-link vertex rule, which `scale_object_z_only` repeats at lines 192-193: z times s, x and y kept |
| GripGenScaling.MotorMountKeepsSides | GripGen/script.py:121-132 | for s > 0 a motor-mount vertex is below the xy plane after the rule iff before; such a vertex keeps its z, the others have z times s, and x is always times s |
| GripGenScaling.MainRuleFor | GripGen/script.py:355-365 | the motor-mount rule iff the stripped name is `motor_mount`, the motor-link rule iff it is `motor_link`, the uniform rule otherwise |
| GripGenScaling.RuleVertices | GripGen/script.py:355-365 | every vertex of the mesh, with the old scale baked in, goes through the vertex rule of the object's rule, and there are as many as before |
| GripGenScaling.MainScaled | GripGen/script.py:355-365 | the pose a main object ends with under its rule: the rule's location and scale, and the rule's vertices; `ScaleMainObject` ends there |
| GripGenScaling.UniformRuleWorld | GripGen/script.py:85-90 | an ordinary main object's every world point is multiplied by s, which is scaling about the world origin |
| GripGenScaling.MotorLinkRuleWorld | GripGen/script.py:140-169 | the motor link's world points keep x and y, and z is multiplied by s |
| GripGenScaling.MotorMountRuleWorld | GripGen/script.py:93-137 | the motor mount's world x is multiplied by s; world z is multiplied by s for vertices not below the object origin, and keeps its offset from the scaled origin otherwise |
| GripGenScaling.ScaleObjectFromOrigin | GripGen/script.py:85-90 | location and scale are multiplied by s |
| GripGenScaling.ApplyScale | GripGen/script.py:108 | the scale is baked into every vertex and becomes (1, 1, 1) |
| GripGenScaling.BakeKeepsWorld | GripGen/script.py:108 | baking the scale leaves every world point where it was |
| GripGenScaling.ScaleVerticesZ | GripGen/script.py:163-164 | every vertex has z multiplied by s and keeps x and y |
| GripGenScaling.MotorMountVertices | GripGen/script.py:121-132 | every vertex goes through the motor-mount vertex rule |
| GripGenScaling.ScaleMotorMount | GripGen/script.py:93-137 | the object ends with the motor-mount pose: location times s, scale baked, every vertex through the rule |
| GripGenScaling.ScaleMotorLink | GripGen/script.py:140-169 | the object ends with the motor-link pose: location z times s, scale baked, every vertex z times s |
| GripGenScaling.ScaleMainObject | GripGen/script.py:355-365 | one main object ends with the pose of the rule its name selects |
| GripGenScaling.ScaleMainObjectAt | GripGen/script.py:355-365 | one pass of the loop scales object i and moves no other main object |
| GripGenScaling.ScaleMainObjects | GripGen/script.py:355-365 | every main object ends with the pose of its rule, and no applied boolean changes |
| GripGenScaling.ScaleObjectZOnly | GripGen/script.py:172-198 | the cut keeps its location, its scale is baked, and every vertex has z times s |
| GripGenScaling.FloatCutWorld | GripGen/script.py:234 | a float cut moves rigidly by (s - 1) times its location, keeping its shape |
| GripGenScaling.ScaleZCutWorld | GripGen/script.py:243-244 | a scale-z cut keeps world x and y, and its height above its origin is multiplied by s |
| GripGenScaling.ApplyBooleanModifier | GripGen/script.py:201-211 | the main object gains exactly one applied difference with the given name and cut |
| GripGenScaling.ApplyBooleanModifierAt | GripGen/script.py:201-211 | seen over all main objects, only the target object's boolean list grows, by that one entry |
| GripGenScaling.BooleansFromMembers | GripGen/script.py:214-245 | a main object receives a `bool_<cut>` modifier iff that cut targets it, and no other modifier |
| GripGenScaling.CutPose | GripGen/script.py:216-245 | the pose a cut ends with by its kind: a fixed cut is untouched, a float cut has its location times s, a scale-z cut has its scale baked and every vertex z times s |
| GripGenScaling.CutTransformed | GripGen/script.py:216-245 | a cut without a target is untouched; otherwise it ends with the pose its kind gives |
| GripGenScaling.AfterCutsPerMain | GripGen/script.py:214-245 | after the loop each main object has its old modifiers followed, in cut order, by those of the cuts that target it |
| GripGenScaling.PrepareCut | GripGen/script.py:216-245 | a float cut has its location times s, a scale-z cut is z-scaled, and a fixed cut or a cut without a target is untouched |
| GripGenScaling.ProcessCutAt | GripGen/script.py:216-245 | one pass of the loop prepares cut i, adds its modifier to its target, and touches no other cut |
| GripGenScaling.ProcessCutsWith | GripGen/script.py:214-245 | every cut ends with the pose its target selects, and the main objects' modifiers are the old ones plus each cut's, applied in order |
| GripGenScaling.ProcessCuts | GripGen/script.py:214-245 | as above with each cut's target found from its name and the main objects' names; only the main objects' boolean lists change |
| GripGenScaling.ScaleMainsBesideCuts | GripGen/script.py:354-366 | scaling the main objects moves no cut |
| GripGenScaling.CutsBesideMains | GripGen/script.py:372-373 | processing the cuts changes no main object's location, scale or vertices in the model (the geometry a boolean difference produces is not modelled) |
| GripGenScaling.ScaleAndCut | GripGen/script.py:354-373 | after both steps each main object has its rule's location, scale and vertices (the geometry a boolean difference produces is not modelled) and the modifiers of the cuts that name it, and each cut has the pose its kind gives |

## Left out

- Rendering, OBJ loading, materials, camera projection, OrbitControls and the per-frame label placement are not modelled. That covers `updateLabelPosition`, `animate` and `resizeRenderer`, which are three.js plumbing.
- Raycasting and bounding-box computation over meshes are not modelled. The first hit and the boxes of the group and the left finger are event parameters.
- ViewerRules.BoxSize and ViewerRules.BoxCenter assume a box computed from geometry, whose min corner is at or below its max corner on every axis. A `Box` whose max lies below its min on some axis, which three.js treats as empty and sizes as zero, is not modelled.
- Promise scheduling is not modelled. Each completion is an event applied atomically; only the token comparisons are modelled.
- The console warning is left out. The missing count it prints is computed.
- `toFixed` formatting is left out. The readouts hold the values: the box size, or the Y and Z strings of the area.
- The pad area `parsed.y * parsed.z` (static/js/gripper-viewer.js:271) is not computed. JavaScript coerces the two captured strings to numbers, and a capture such as `1..2` becomes NaN; the model keeps the area as the pair of strings `PadArea(y, z)`.
- Floating-point arithmetic is modelled by real numbers.
- A failed fetch and a non-OK response are one outcome, `FetchFailed`, because the code treats both the same way.
- GripperViewer.Viewer.AllSettled: does not require every part of the request to have settled. `Promise.all` (static/js/gripper-viewer.js:238) waits for all of them, so the model also admits a completion the program never produces; what it states holds for that completion as well.
- GripperViewer.Viewer.FetchCompleted: does not require the class invariant, because the readouts it writes are not part of it.
- GripperViewer.Viewer.Start: the index of "1.5" is written as 5, which `DefaultSizeIndex` proves equal to `SIZES.indexOf("1.5")`.
- The finger lists hold positions in the group rather than object references. After a new request the old lists refer to no child that has a base position, so applying openness moves nothing. In the code it moves detached objects, which nothing shows.
- GripGenNames.StripNumericSuffix: `$` is modelled as the end of the string and `\d` as ASCII digits. Python's `$` also matches before a final newline, and its `\d` accepts every Unicode decimal digit.
- GripGenScaling.ApplyScale: only the scale part of `transform_apply(location=False, rotation=True, scale=True)` is modelled. Rotation is not part of the object model.
- The boolean difference geometry of `modifier_apply` is not modelled. Each applied boolean is recorded by its modifier name and cut name.
- The `bpy` operators are not modelled: file open and save, STL and OBJ export, collection removal (`remove_cuts_collection`), the final `transform_apply` with location, `select_all` and the active object.
- `get_objects_from_collections` and argparse (`parse_args`) are not modelled. The main objects and the cuts are given as sequences of mesh objects.
- GripGenPad.SavePadDimensions: the `int(round(d * 1000))` conversion to millimetres is left out. Each object's millimetre dimensions are given as natural numbers, and the file write is the returned text.
- GripGenScaling.ProcessCuts, GripGenScaling.ProcessCutsWith, GripGenScaling.ScaleMainObjects, GripGenScaling.ScaleMainsBesideCuts, GripGenScaling.CutsBesideMains and GripGenScaling.ScaleAndCut require the objects to be distinct and to own distinct meshes, and require the cuts and main objects to share none. An object in both collections, or mesh data shared between objects, is not modelled.
- GripGenScaling.ScaleMotorMount, GripGenScaling.ScaleMotorLink and GripGenScaling.ScaleObjectZOnly, and the loops built on them, treat each bake as touching only the object being scaled. The script never deselects an object after `select_set(True)` (GripGen/script.py:106-108, 151-153, 180-182), so each `transform_apply` also bakes the scale of every object selected before. Baking keeps world points where they are (`BakeKeepsWorld`), so only the pose of those other objects is not modelled.
- `static/js/index.js`, `tactile_render/render_loop.py` and `GripGen/loop.py` are page glue, a render loop and a subprocess driver. They are not part of this model.
