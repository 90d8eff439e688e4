# Tie-rod assembly model

A Dafny model of the build script for a 2001 Ford Ranger tie rod. The script
makes a 1.25" x 0.120" DOM tube with weld-in inserts, 3/4-16 heim joints and jam
nuts as solids in a 3-D scene. The model covers two things:

- **Dimensions.** The script gives nominal sizes in inches and converts them to
  metres with `in2m`. It derives the tube bore from the wall, the slip-fit insert
  from the bore (0.002 in clearance) and the shoulder from the tube outside. The
  model does the same in exact rational arithmetic (`real`). It proves the fit
  chain `0 < insert_id < insert_od < tube_id < tube_od` for the script's sizes,
  and states, for any sizes, exactly when that chain holds.
- **The build sequence.** First the hollow tube. Then a loop over the two ends,
  LH (`x_sign = -1`) and RH (`x_sign = +1`), that adds a bored insert, a bored
  shoulder and a weld bead. Then a second loop over both ends that adds a heim
  shank, a heim body, a ball with an eye bore and a bored hex jam nut. Every
  hollow part is made the same way: add the target, add a longer and narrower
  cutter on the same axis, apply a DIFFERENCE, delete the cutter.

Solids are records (`Solids.Solid`): name, primitive kind, radius, length along
the axis, centre on the tube axis, axis, bores cut so far, material tag, and
role (part or cutter). The scene is a class (`SceneGraph.Scene`) whose
`objects` sequence its methods add to, update in place and remove from. A ghost
`log` in the same class records every operation in order. The build is also
written as data: `BuildPlan.Plan` is the ordered list of steps, each step a
placed part or a hollow part with its cutter. The build methods in `Builder`
are proved to leave the scene holding `Assembly(d)` (the effect of that plan)
and the log holding the plan's operations. The lemmas about the plan then
cover the finished scene:

- it holds 15 parts, in build order, with distinct names;
- no cutter is left in it;
- every cut obeys the overcut and containment rules;
- the two ends are mirror images.

Longitudinal positions (`Layout.Offset`) are computed with the script's own
formulas, one chained from the other (tube end, then shank start, then body
start, and so on). Each one is proved equal to `x_sign` times a closed form
that does not depend on the side.

How the code differs from the design description of the system:

- The design says the dimensions are validated and a violation raises
  `InvalidDimension`. The script validates nothing. The model therefore states
  the fit rules as predicates (`FitChain`, `ShankFits`, `CutsSound`) and proves
  them for the script's sizes.
- The design describes the boolean difference as producing a new solid. The
  script applies a modifier that changes the target in place and then deletes
  the cutter. The model follows the script: `Scene.Difference` replaces the
  target in the scene.
- The design gives an example of an insert centred at `L/2 + 0.75 in` (11.75
  in). The script computes `L/2 + insert_length/2 - 0.25 in`, which is 11.5 in.
  The model uses the script's formula (`SourceInsertCenter`). The comment on
  that line says the insert "sits inside tube", but only 0.25 in of the insert
  lies inside the tube bore. The other 1.25 in stands outside the tube end
  (`InsertExtent`). With the script's sizes the insert's outer face is then
  past the jam nut's outer face (0.6015 in beyond the tube end). It is also
  0.125 in past the heim body's inner face (1.125 in). So the insert overlaps
  the jam nut and runs into the heim body (`SourceInsertReach`).
- The design puts the ball at the body's outer position. The script centres
  the ball at the body centre (`OutwardAdjacency`).

## Model

| member | source | states |
|---|---|---|
| Dimensions.InToMOrder | build_tie_rod.py:10-11 | Conversion to metres preserves and reflects `<`, `<=` and `==`, so every fit inequality reads the same in inches or metres |
| Dimensions.Derive | build_tie_rod.py:20-42 | The derived metric tube bore, insert outside and shoulder outside are the metric images of `tube_od - 2*wall`, `tube_od - 2*wall - 0.002` and `tube_od` in inches |
| Dimensions.SourceDerivedSizes | build_tie_rod.py:20-26 | With the script's sizes the tube bore is 1.01 in (0.025654 m) and the insert outside is 1.008 in |
| Dimensions.FitChainIff | build_tie_rod.py:20-27 | For any inputs the insert is always narrower than the tube bore, and the chain `0 < insert_id < insert_od < tube_id < tube_od` holds exactly when the wall is positive and `0 < insert_id < tube_od - 2*wall - 0.002` |
| Dimensions.ZeroWallBreaksChain | build_tie_rod.py:21-22 | A wall of zero breaks the fit chain |
| Dimensions.SourceFits | build_tie_rod.py:20-190 | The script's sizes satisfy the fit chain, the heim shank fits the insert bore, and the nut-bore radius is exactly 0.38 in, more than the shank radius |
| Layout.Offset | build_tie_rod.py:96-185 | Each longitudinal position, built up from the previous one as the script does, equals `x_sign` times a closed form that does not depend on the side |
| Layout.OffsetMirror | build_tie_rod.py:96-185 | Every RH position (tube end, insert, shoulder, weld, shank start and centre, body start and centre, nut) is the exact negation of the LH one |
| Layout.SourceInsertCenter | build_tie_rod.py:97-99 | With the script's sizes the inserts are centred at +11.5 in and -11.5 in |
| Layout.OutwardAdjacency | build_tie_rod.py:117-169 | Moving outward: the shoulder starts at the tube end face; the weld and the shank start sit at the shoulder's outer face; the body starts where the shank ends; the ball is centred at the body centre |
| Layout.InsertExtent | build_tie_rod.py:97-102 | The insert's inner face is 0.25 in inside the tube end, and its outer face is `insert_length - 0.25 in` outside it |
| Layout.InsertReach | build_tie_rod.py:97-186 | For any sizes, the insert's outer face lies `insert_length - 0.25 in - shoulder_length - shank_length` beyond the heim body's inner face, and `insert_length - 0.5 in - shoulder_length - nut_thickness/2` beyond the jam nut's outer face |
| Layout.SourceInsertReach | build_tie_rod.py:97-186 | With the script's sizes the insert ends 1.25 in beyond the tube end. The jam nut ends at 0.6015 in and the heim body starts at 1.125 in, so the insert overlaps both |
| Layout.NutOnShankIff | build_tie_rod.py:184-186 | The nut's extent `nut_center ± nut_thickness/2` lies within the shank span `[shank_start, body_start]` exactly when `nut_thickness/2 <= 0.25 in` and `0.25 in + nut_thickness/2 <= shank_length` |
| Layout.SourceNutOnShank | build_tie_rod.py:184-186 | With the script's sizes the nut lies on the shank, as the comment at that line says |
| Layout.OvercutMargins | build_tie_rod.py:81-190 | Each cutter is longer than its target by the script's margin: 0.5 in (tube), 0.2 in (insert), 0.1 in (shoulder, nut); the eye cutter is `body_od + 0.3 in` against the ball's diameter |
| Solids.Effect | build_tie_rod.py:81-92 | A build leaves one solid per step, in order, and an admissible step leaves a part, never a cutter |
| Solids.NoCutterSurvives | build_tie_rod.py:85-92 | If every step of a build is admissible, every solid it leaves is a part |
| Solids.CuttersRemovedAtOnce | build_tie_rod.py:85-92 | In the log of any build, each cut comes right after its cutter is added and is followed at once by that cutter's removal |
| Solids.AddedCutterIsCutThenRemoved | build_tie_rod.py:85-92 | In the log of a build of admissible steps, an added cutter is used by the next operation (a cut) and removed by the one after |
| Solids.OpsOfAppend | build_tie_rod.py:80-198 | The log of a sequence of steps is the logs of its parts, in order |
| SceneGraph.Scene.constructor | build_tie_rod.py:6-7 | The build starts from an empty scene with an empty log |
| SceneGraph.Scene.Add | build_tie_rod.py:81-82 | Adding a primitive appends it as the last object and logs it |
| SceneGraph.Scene.Difference | build_tie_rod.py:87-91 | Under the overcut and containment rules, the target is replaced in place by itself with one more bore; the cutter stays in the scene; the cut is logged |
| SceneGraph.Scene.Remove | build_tie_rod.py:92 | Deleting an object removes exactly that one and keeps the order of the rest |
| SceneGraph.Scene.AddHollow | build_tie_rod.py:81-92 | Add target, add cutter, difference, delete cutter: the scene gains only the bored target, and the log gains those four operations |
| BuildPlan.InsertCutsSound | build_tie_rod.py:102-123 | The insert and shoulder cuts obey the cut rule when the insert bore is narrower than the insert and the shoulder |
| BuildPlan.HeimCutsSound | build_tie_rod.py:169-190 | The eye and nut-bore cuts obey the cut rule when the eye is narrower than the ball, the eye cutter is longer than the ball, and the nut bore clears the hex flats |
| BuildPlan.PlanLayout | build_tie_rod.py:80-198 | The build is the tube, then the LH and RH insert passes, then the LH and RH heim passes: 15 steps |
| BuildPlan.PlanAdmissibleIff | build_tie_rod.py:81-190 | Every cut of the build is coaxial, concentric, longer and narrower than its target exactly when the sizes satisfy `CutsSound` |
| BuildPlan.SourceCutsSound | build_tie_rod.py:20-190 | With the script's sizes every cut of the build obeys the overcut and containment rules |
| BuildPlan.Names | build_tie_rod.py:83-188 | The names of a scene's solids, one per solid; when they are distinct, so are the solids |
| BuildPlan.AssemblyNames | build_tie_rod.py:83-188 | The finished scene holds 15 parts named `DOM_Tube_1.25x.120`, then `Insert`, `Insert_Shoulder`, `Weld` for LH and RH, then `Heim_Shank`, `Heim_Body`, `Heim_Ball`, `Jam_Nut` for LH and RH, and no two names are alike |
| BuildPlan.AssemblyHoldsOnlyParts | build_tie_rod.py:92-197 | No cutter is left in the finished scene, whatever the sizes |
| BuildPlan.SideStepsMirror | build_tie_rod.py:96-198 | Each step of an RH pass is the mirror image of the same LH step, target and cutter alike |
| BuildPlan.AssemblyMirror | build_tie_rod.py:96-198 | The tube is centred at the origin, and each RH part of the finished scene is the mirror image of its LH counterpart, bores included |
| Builder.BuildTube | build_tie_rod.py:80-93 | The tube step leaves the hollow tube in the scene and logs its four operations |
| Builder.BuildInsertEnd | build_tie_rod.py:97-144 | One pass of the insert loop adds exactly that side's bored insert, bored shoulder and weld, in that order |
| Builder.BuildInserts | build_tie_rod.py:96-144 | The insert loop over LH then RH adds exactly the plan's insert phase |
| Builder.BuildHeimEnd | build_tie_rod.py:148-198 | One pass of the heim loop adds exactly that side's shank, body, bored ball and bored nut, in that order |
| Builder.BuildHeims | build_tie_rod.py:147-198 | The heim loop over LH then RH adds exactly the plan's heim phase |
| Builder.BuildTieRod | build_tie_rod.py:6-198 | From a cleared scene, the build leaves exactly `Assembly(d)`: 15 parts with the names above and no cutter. Its log is the plan's operations |

## Left out

- Mesh booleans and tessellation (vertex, segment and ring counts): these are
  calls into the 3-D package. A DIFFERENCE is modelled as recording a bore on
  the target. The design's `UnsupportedPrimitive` error (too few segments) is
  therefore not modelled.
- Rotations: only the resulting axis is kept, X for rotated cylinders and the
  torus, Z for the unrotated sphere and eye cutter. Off-axis positions are all
  zero in the script and are not carried.
- Hexagon geometry: the nut keeps the radius parameter the script passes
  (`nut_af/2`, which the primitive takes as the corner radius). The containment
  rule for a hex uses `0.866 * radius`, a rational lower bound of the flat
  radius `radius * sqrt(3)/2`. This is stricter than comparing against
  `nut_af/2`.
- Materials and their node settings: these only set appearance. Each solid
  carries the material name as a tag from the moment it is created. The script
  attaches most materials after the difference (tube, inserts, shoulders and
  nuts) and the ball's before it. The weld, shank and body have no difference.
- Cutter names: the script never renames a cutter. Each keeps the primitive's
  default name, modelled as "Cylinder".
- Camera, lights, world, render settings, rendering to PNG and saving the
  `.blend` file: these are I/O and presentation.
- Clearing the scene through the selection API: modelled as starting from a
  new, empty `Scene`.
- Floating-point rounding: all values are exact rationals.
- The "active object" handle of the scene API: each `Add` returns the new
  object's position instead.
