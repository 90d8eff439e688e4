/** The build itself: the hollow tube, then the two per-end loops over
    LH (x_sign = -1) and RH (x_sign = +1), each pass adding primitives,
    boring them and deleting the cutters. */
module Builder {
  import opened Dimensions
  import opened Solids
  import opened SceneGraph
  import opened Layout
  import opened BuildPlan

  /** The main tube: outer cylinder, bore 0.5 in longer, difference, delete the bore. */
  method BuildTube(scene: Scene, d: Dims)
    requires d.tubeId < d.tubeOd
    modifies scene
    ensures scene.objects == old(scene.objects) + Effect([TubeStep(d)])
    ensures scene.log == old(scene.log) + OpsOf([TubeStep(d)])
  {
    scene.AddHollow(TubeBlank(d), TubeBore(d));
    assert [TubeStep(d)][..0] == [];
  }

  /** One pass of the insert loop: the bored insert, the bored shoulder and
      the weld bead on side `s`. */
  method BuildInsertEnd(scene: Scene, d: Dims, s: Side)
    requires d.insertId < d.insertOd && d.insertId < d.shoulderOd
    modifies scene
    ensures scene.objects == old(scene.objects) + Effect(SideSteps(d, Inserts, s))
    ensures scene.log == old(scene.log) + OpsOf(SideSteps(d, Inserts, s))
  {
    var insert, insertBore := InsertBlank(d, s), InsertBore(d, s);
    var shoulder, shoulderBore := ShoulderBlank(d, s), ShoulderBore(d, s);
    var weld := WeldBead(d, s);
    InsertCutsSound(d, s);
    scene.AddHollow(insert, insertBore);
    scene.AddHollow(shoulder, shoulderBore);
    var _ := scene.Add(weld);
    ThreeSteps(Hollow(insert, insertBore), Hollow(shoulder, shoulderBore), Place(weld));
  }

  /** One pass of the heim loop: shank and body placed as is, then the ball
      bored by the eye cutter and the jam nut bored for the shank. */
  method BuildHeimEnd(scene: Scene, d: Dims, s: Side)
    requires d.heimEyeId < d.heimBallOd < d.heimBodyOd + InToM(0.3)
    requires NutBoreRadius(d) < d.nutAf / 2.0 * 0.866
    modifies scene
    ensures scene.objects == old(scene.objects) + Effect(SideSteps(d, Heims, s))
    ensures scene.log == old(scene.log) + OpsOf(SideSteps(d, Heims, s))
  {
    var shank, body := HeimShank(d, s), HeimBody(d, s);
    var ball, eye := BallBlank(d, s), EyeCutter(d, s);
    var nut, nutBore := NutBlank(d, s), NutBore(d, s);
    HeimCutsSound(d, s);
    var _ := scene.Add(shank);
    var _ := scene.Add(body);
    scene.AddHollow(ball, eye);
    scene.AddHollow(nut, nutBore);
    FourSteps(Place(shank), Place(body), Hollow(ball, eye), Hollow(nut, nutBore));
  }

  /** The insert loop over both ends. */
  method BuildInserts(scene: Scene, d: Dims)
    requires d.insertId < d.insertOd && d.insertId < d.shoulderOd
    modifies scene
    ensures scene.objects == old(scene.objects) + Effect(PhaseSteps(d, Inserts, Sides))
    ensures scene.log == old(scene.log) + OpsOf(PhaseSteps(d, Inserts, Sides))
  {
    assert Sides[..0] == [];
    for i := 0 to |Sides|
      invariant scene.objects == old(scene.objects) + Effect(PhaseSteps(d, Inserts, Sides[..i]))
      invariant scene.log == old(scene.log) + OpsOf(PhaseSteps(d, Inserts, Sides[..i]))
    {
      ghost var done := PhaseSteps(d, Inserts, Sides[..i]);
      BuildInsertEnd(scene, d, Sides[i]);
      Extend(old(scene.objects), old(scene.log), done, SideSteps(d, Inserts, Sides[i]),
             scene.objects, scene.log);
      PhaseSnoc(d, Inserts, Sides, i);
    }
    assert Sides[..|Sides|] == Sides;
  }

  /** The heim loop over both ends. */
  method BuildHeims(scene: Scene, d: Dims)
    requires d.heimEyeId < d.heimBallOd < d.heimBodyOd + InToM(0.3)
    requires NutBoreRadius(d) < d.nutAf / 2.0 * 0.866
    modifies scene
    ensures scene.objects == old(scene.objects) + Effect(PhaseSteps(d, Heims, Sides))
    ensures scene.log == old(scene.log) + OpsOf(PhaseSteps(d, Heims, Sides))
  {
    assert Sides[..0] == [];
    for i := 0 to |Sides|
      invariant scene.objects == old(scene.objects) + Effect(PhaseSteps(d, Heims, Sides[..i]))
      invariant scene.log == old(scene.log) + OpsOf(PhaseSteps(d, Heims, Sides[..i]))
    {
      ghost var done := PhaseSteps(d, Heims, Sides[..i]);
      BuildHeimEnd(scene, d, Sides[i]);
      Extend(old(scene.objects), old(scene.log), done, SideSteps(d, Heims, Sides[i]),
             scene.objects, scene.log);
      PhaseSnoc(d, Heims, Sides, i);
    }
    assert Sides[..|Sides|] == Sides;
  }

  /** The whole build from a cleared scene. The scene ends holding exactly the
      fifteen named parts of the assembly, no cutter among them, and its log
      is the build plan's operations in order. */
  method BuildTieRod(n: Nominal) returns (scene: Scene)
    requires CutsSound(Derive(n))
    ensures fresh(scene)
    ensures scene.objects == Assembly(Derive(n))
    ensures scene.log == OpsOf(Plan(Derive(n)))
    ensures Names(scene.objects) == PartNames
    ensures forall p :: p in scene.objects ==> p.role == Part
  {
    var d := Derive(n);
    scene := new Scene();
    BuildTube(scene, d);
    BuildInserts(scene, d);
    BuildHeims(scene, d);
    ghost var tube := [TubeStep(d)];
    ghost var ins := PhaseSteps(d, Inserts, Sides);
    ghost var heims := PhaseSteps(d, Heims, Sides);
    Extend([], [], tube, ins, [] + Effect(tube) + Effect(ins), [] + OpsOf(tube) + OpsOf(ins));
    Extend([], [], tube + ins, heims, scene.objects, scene.log);
    assert Plan(d) == tube + ins + heims;
    AssemblyNames(d);
    AssemblyHoldsOnlyParts(d);
  }
}
