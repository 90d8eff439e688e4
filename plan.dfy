/** The build sequence of the tie rod as data: the hollow tube, then for each
    end the insert, its shoulder and the weld, then for each end the heim
    shank, body, bored ball and bored jam nut. */
module BuildPlan {
  import opened Dimensions
  import opened Solids
  import opened Layout

  /** The two per-end loops of the build. */
  datatype Stage = Inserts | Heims

  /** How many steps one end takes in a stage. */
  function PerSide(st: Stage): nat {
    match st
    case Inserts => 3
    case Heims => 4
  }

  /** The tube: the outer cylinder hollowed by the overlong bore. */
  function TubeStep(d: Dims): Step {
    Hollow(TubeBlank(d), TubeBore(d))
  }

  /** The steps one pass of a stage's loop body takes for side `s`. */
  function SideSteps(d: Dims, st: Stage, s: Side): (r: seq<Step>)
    ensures |r| == PerSide(st)
  {
    match st
    case Inserts =>
      [Hollow(InsertBlank(d, s), InsertBore(d, s)),
       Hollow(ShoulderBlank(d, s), ShoulderBore(d, s)),
       Place(WeldBead(d, s))]
    case Heims =>
      [Place(HeimShank(d, s)),
       Place(HeimBody(d, s)),
       Hollow(BallBlank(d, s), EyeCutter(d, s)),
       Hollow(NutBlank(d, s), NutBore(d, s))]
  }

  /** The steps of a stage's loop run over the sides `ss`, in order. */
  function PhaseSteps(d: Dims, st: Stage, ss: seq<Side>): (r: seq<Step>)
    ensures |r| == |ss| * PerSide(st)
    decreases |ss|
  {
    if ss == [] then []
    else PhaseSteps(d, st, ss[..|ss| - 1]) + SideSteps(d, st, ss[|ss| - 1])
  }

  /** One more pass of the loop appends that side's steps. */
  lemma PhaseSnoc(d: Dims, st: Stage, ss: seq<Side>, i: nat)
    requires i < |ss|
    ensures PhaseSteps(d, st, ss[..i + 1]) == PhaseSteps(d, st, ss[..i]) + SideSteps(d, st, ss[i])
  {
    assert ss[..i + 1][..i] == ss[..i];
  }

  /** The whole build in order. */
  function Plan(d: Dims): seq<Step> {
    [TubeStep(d)] + PhaseSteps(d, Inserts, Sides) + PhaseSteps(d, Heims, Sides)
  }

  /** The solids the build leaves in the scene. */
  function Assembly(d: Dims): seq<Solid> {
    Effect(Plan(d))
  }

  /** The conditions on the sizes under which every cut of the build obeys
      the cut rule. The overcut margins are positive constants, so only the
      eye bore's length depends on the sizes; the nut bore must clear the
      flats of the hex, not only its corners. */
  predicate CutsSound(d: Dims) {
    && d.tubeId < d.tubeOd
    && d.insertId < d.insertOd
    && d.insertId < d.shoulderOd
    && d.heimBallOd < d.heimBodyOd + InToM(0.3)
    && d.heimEyeId < d.heimBallOd
    && NutBoreRadius(d) < d.nutAf / 2.0 * 0.866
  }

  /** The cuts of one pass of the insert loop obey the cut rule when the
      insert bore is narrower than the insert and the shoulder. */
  lemma InsertCutsSound(d: Dims, s: Side)
    requires d.insertId < d.insertOd && d.insertId < d.shoulderOd
    ensures CutRule(InsertBlank(d, s), InsertBore(d, s))
    ensures CutRule(ShoulderBlank(d, s), ShoulderBore(d, s))
  {
  }

  /** The cuts of one pass of the heim loop obey the cut rule when the eye is
      narrower than the ball, the eye cutter longer than the ball, and the
      nut bore inside the nut's flats. */
  lemma HeimCutsSound(d: Dims, s: Side)
    requires d.heimEyeId < d.heimBallOd < d.heimBodyOd + InToM(0.3)
    requires NutBoreRadius(d) < d.nutAf / 2.0 * 0.866
    ensures CutRule(BallBlank(d, s), EyeCutter(d, s))
    ensures CutRule(NutBlank(d, s), NutBore(d, s))
  {
  }

  // ---- the order of the build ----

  /** The build is the tube, then LH and RH inserts, then LH and RH heim
      joints: fifteen steps. */
  lemma PlanLayout(d: Dims)
    ensures Plan(d) ==
      [TubeStep(d)] + SideSteps(d, Inserts, LH) + SideSteps(d, Inserts, RH)
                    + SideSteps(d, Heims, LH) + SideSteps(d, Heims, RH)
    ensures |Plan(d)| == 15
  {
    PhasePair(d, Inserts);
    PhasePair(d, Heims);
  }

  lemma PhasePair(d: Dims, st: Stage)
    ensures PhaseSteps(d, st, Sides) == SideSteps(d, st, LH) + SideSteps(d, st, RH)
  {
    assert Sides[..1] == [LH];
    assert [LH][..0] == [];
  }

  /** Which pass of which loop step `i` of the build belongs to. */
  lemma PlanAt(d: Dims, i: nat)
    requires 0 < i < 15
    ensures i < 7 ==> Plan(d)[i] == SideSteps(d, Inserts, if i < 4 then LH else RH)[(i - 1) % 3]
    ensures 7 <= i ==> Plan(d)[i] == SideSteps(d, Heims, if i < 11 then LH else RH)[(i - 7) % 4]
  {
    PlanLayout(d);
    ConcatAt(TubeStep(d), SideSteps(d, Inserts, LH), SideSteps(d, Inserts, RH),
             SideSteps(d, Heims, LH), SideSteps(d, Heims, RH), i);
  }

  lemma ConcatAt(t: Step, a: seq<Step>, b: seq<Step>, c: seq<Step>, e: seq<Step>, i: nat)
    requires |a| == |b| == 3 && |c| == |e| == 4
    requires 0 < i < 15
    ensures i < 7 ==> ([t] + a + b + c + e)[i] == (if i < 4 then a else b)[(i - 1) % 3]
    ensures 7 <= i ==> ([t] + a + b + c + e)[i] == (if i < 11 then c else e)[(i - 7) % 4]
  {
  }

  /** Every step of a loop pass is admissible when the sizes are sound. */
  lemma SideStepAdmissible(d: Dims, st: Stage, s: Side, k: nat)
    requires CutsSound(d)
    requires k < PerSide(st)
    ensures Admissible(SideSteps(d, st, s)[k])
  {
    if st == Inserts {
      InsertCutsSound(d, s);
    } else {
      HeimCutsSound(d, s);
    }
  }

  /** Every cut of the build obeys the overcut and containment rules exactly
      when the sizes satisfy CutsSound. */
  lemma PlanAdmissibleIff(d: Dims)
    ensures CutsSound(d) <==> forall i :: 0 <= i < |Plan(d)| ==> Admissible(Plan(d)[i])
  {
    PlanLayout(d);
    var p := Plan(d);
    PlanAt(d, 1);
    PlanAt(d, 2);
    PlanAt(d, 9);
    PlanAt(d, 10);
    assert p[0] == TubeStep(d);
    if CutsSound(d) {
      forall i | 0 <= i < |p| ensures Admissible(p[i]) {
        if 0 < i {
          PlanAt(d, i);
          if i < 7 {
            SideStepAdmissible(d, Inserts, if i < 4 then LH else RH, (i - 1) % 3);
          } else {
            SideStepAdmissible(d, Heims, if i < 11 then LH else RH, (i - 7) % 4);
          }
        }
      }
    }
  }

  /** The script's sizes make every cut sound. */
  lemma SourceCutsSound()
    ensures CutsSound(Derive(Source))
    ensures forall i :: 0 <= i < |Plan(Derive(Source))| ==> Admissible(Plan(Derive(Source))[i])
  {
    PlanAdmissibleIff(Derive(Source));
  }

  // ---- the finished assembly ----

  /** The names of the solids, in order; solids with distinct names are
      distinct solids. */
  function Names(ps: seq<Solid>): (r: seq<string>)
    ensures |r| == |ps|
    ensures Distinct(r) ==> forall i, j :: 0 <= i < j < |ps| ==> ps[i] != ps[j]
  {
    var r := seq(|ps|, i requires 0 <= i < |ps| => ps[i].name);
    assert forall i :: 0 <= i < |ps| ==> r[i] == ps[i].name;
    r
  }

  predicate Distinct(xs: seq<string>) {
    forall i, j :: 0 <= i < j < |xs| ==> xs[i] != xs[j]
  }

  /** The names of the finished parts, in build order. */
  const PartNames: seq<string> :=
    ["DOM_Tube_1.25x.120",
     "Insert_LH", "Insert_Shoulder_LH", "Weld_LH",
     "Insert_RH", "Insert_Shoulder_RH", "Weld_RH",
     "Heim_Shank_LH", "Heim_Body_LH", "Heim_Ball_LH", "Jam_Nut_LH",
     "Heim_Shank_RH", "Heim_Body_RH", "Heim_Ball_RH", "Jam_Nut_RH"]

  lemma PartNamesDistinct()
    ensures Distinct(PartNames)
  {
  }

  /** What each pass of the insert loop leaves: three parts named for the side. */
  lemma InsertOutcomes(d: Dims, s: Side, k: nat)
    requires k < 3
    ensures Outcome(SideSteps(d, Inserts, s)[k]).role == Part
    ensures Outcome(SideSteps(d, Inserts, s)[k]).name ==
      PartNames[1 + k + (if s == LH then 0 else 3)]
  {
    assert "Insert_" + "LH" == "Insert_LH";
    assert "Insert_" + "RH" == "Insert_RH";
    assert "Insert_Shoulder_" + "LH" == "Insert_Shoulder_LH";
    assert "Insert_Shoulder_" + "RH" == "Insert_Shoulder_RH";
    assert "Weld_" + "LH" == "Weld_LH";
    assert "Weld_" + "RH" == "Weld_RH";
  }

  /** What each pass of the heim loop leaves: four parts named for the side. */
  lemma HeimOutcomes(d: Dims, s: Side, k: nat)
    requires k < 4
    ensures Outcome(SideSteps(d, Heims, s)[k]).role == Part
    ensures Outcome(SideSteps(d, Heims, s)[k]).name ==
      PartNames[7 + k + (if s == LH then 0 else 4)]
  {
    assert "Heim_Shank_" + "LH" == "Heim_Shank_LH";
    assert "Heim_Shank_" + "RH" == "Heim_Shank_RH";
    assert "Heim_Body_" + "LH" == "Heim_Body_LH";
    assert "Heim_Body_" + "RH" == "Heim_Body_RH";
    assert "Heim_Ball_" + "LH" == "Heim_Ball_LH";
    assert "Heim_Ball_" + "RH" == "Heim_Ball_RH";
    assert "Jam_Nut_" + "LH" == "Jam_Nut_LH";
    assert "Jam_Nut_" + "RH" == "Jam_Nut_RH";
  }

  /** The solid at position `i` of the finished scene is a part with the
      `i`-th name. */
  lemma AssemblyAt(d: Dims, i: nat)
    requires i < 15
    ensures |Assembly(d)| == 15
    ensures Assembly(d)[i].role == Part && Assembly(d)[i].name == PartNames[i]
  {
    PlanLayout(d);
    if 0 < i {
      PlanAt(d, i);
      if i < 7 {
        InsertOutcomes(d, if i < 4 then LH else RH, (i - 1) % 3);
      } else {
        HeimOutcomes(d, if i < 11 then LH else RH, (i - 7) % 4);
      }
    }
  }

  /** The finished scene holds fifteen solids, in build order, with these
      names, no two alike. */
  lemma AssemblyNames(d: Dims)
    ensures Names(Assembly(d)) == PartNames
    ensures Distinct(Names(Assembly(d)))
  {
    AssemblyAt(d, 0);
    forall i | 0 <= i < 15 ensures Assembly(d)[i].name == PartNames[i] {
      AssemblyAt(d, i);
    }
    PartNamesDistinct();
  }

  /** No cutter survives in the finished scene, whatever the sizes. */
  lemma AssemblyHoldsOnlyParts(d: Dims)
    ensures forall p :: p in Assembly(d) ==> p.role == Part
  {
    AssemblyAt(d, 0);
    forall p | p in Assembly(d) ensures p.role == Part {
      var i :| 0 <= i < |Assembly(d)| && Assembly(d)[i] == p;
      AssemblyAt(d, i);
    }
  }

  // ---- mirror symmetry ----

  /** Step `b` is step `a` reflected in the plane x = 0: the same kind of
      step, with every solid reflected (names aside). */
  predicate MirrorStep(a: Step, b: Step) {
    match a
    case Place(p) => b.Place? && b.part == Mirrored(p, b.part.name)
    case Hollow(t, c) =>
      b.Hollow? && b.target == Mirrored(t, b.target.name) && b.cutter == Mirrored(c, b.cutter.name)
  }

  /** Each step of the right-hand pass of a loop is the mirror image of the
      same step of the left-hand pass, target and cutter alike. */
  lemma SideStepsMirror(d: Dims, st: Stage, k: nat)
    requires k < PerSide(st)
    ensures MirrorStep(SideSteps(d, st, LH)[k], SideSteps(d, st, RH)[k])
  {
    forall f: Feature ensures Offset(d, RH, f) == -Offset(d, LH, f) {
      OffsetMirror(d, f);
    }
  }

  /** Reflecting a step reflects the solid it leaves: a bore recorded on a
      target moves with it. */
  lemma OutcomeMirror(a: Step, b: Step)
    requires MirrorStep(a, b)
    ensures Outcome(b) == Mirrored(Outcome(a), Outcome(b).name)
  {
  }

  /** `rs` is `ls` reflected in the plane x = 0, part by part (names aside). */
  predicate MirrorParts(ls: seq<Solid>, rs: seq<Solid>) {
    |ls| == |rs| && forall k :: 0 <= k < |ls| ==> rs[k] == Mirrored(ls[k], rs[k].name)
  }

  /** The finished assembly is symmetric: the tube is centred on the
      midpoint, and each right-hand part is the mirror image of the
      corresponding left-hand part, bores included. */
  lemma AssemblyMirror(d: Dims)
    ensures Assembly(d)[0].centerX == 0.0
    ensures MirrorParts(Assembly(d)[1..4], Assembly(d)[4..7])
    ensures MirrorParts(Assembly(d)[7..11], Assembly(d)[11..15])
  {
    PlanLayout(d);
    var p := Plan(d);
    var a := Assembly(d);
    forall k | 0 <= k < 3 ensures a[4..7][k] == Mirrored(a[1..4][k], a[4..7][k].name) {
      assert p[1 + k] == SideSteps(d, Inserts, LH)[k];
      assert p[4 + k] == SideSteps(d, Inserts, RH)[k];
      SideStepsMirror(d, Inserts, k);
      OutcomeMirror(p[1 + k], p[4 + k]);
    }
    forall k | 0 <= k < 4 ensures a[11..15][k] == Mirrored(a[7..11][k], a[11..15][k].name) {
      assert p[7 + k] == SideSteps(d, Heims, LH)[k];
      assert p[11 + k] == SideSteps(d, Heims, RH)[k];
      SideStepsMirror(d, Heims, k);
      OutcomeMirror(p[7 + k], p[11 + k]);
    }
  }
}
