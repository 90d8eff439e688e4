/** Solids as parametric records, the boolean DIFFERENCE as an operation that
    records a bore on its target, and the build steps the script is made of. */
module Solids {

  /** The primitive a solid was made from. A `Hex` is the six-sided cylinder
      used for the jam nuts. */
  datatype Kind = Cylinder | Torus | Sphere | Hex

  /** The axis a primitive is aligned with. Cylinders and the torus are
      rotated onto the tube axis X; the sphere and the eye-bore cutter keep
      the default orientation, Z (vertical). */
  datatype Axis = X | Z

  /** A solid is either a part of the assembly or a cutter that only exists
      to be subtracted. */
  datatype Role = Part | Cutter

  /** What a DIFFERENCE leaves behind: a concentric hole of the cutter's
      radius along the cutter's axis. */
  datatype Bore = Bore(radius: real, length: real, axis: Axis)

  /** A placed solid. All solids lie on the tube axis, so `centerX` is the
      whole location. `length` is the extent along `axis`: the depth of a
      cylinder or hex, the diameter of a sphere, twice the minor radius of a
      torus. `radius` is the primitive's radius parameter (the major radius
      of a torus). `material` is an abstract appearance tag, "" for none. */
  datatype Solid = Solid(
    name: string,
    kind: Kind,
    radius: real,
    length: real,
    centerX: real,
    axis: Axis,
    bores: seq<Bore>,
    material: string,
    role: Role)

  /** A lower bound on the distance from a solid's axis to its outer surface.
      For a hexagonal prism the radius parameter is the corner radius and the
      flats lie at radius * sqrt(3)/2; 0.866 is a rational lower bound for
      that factor. */
  function WallRadius(s: Solid): real {
    if s.kind == Hex then s.radius * 0.866 else s.radius
  }

  /** The overcut and containment rules a DIFFERENCE relies on: the cutter is
      concentric and coaxial with the target, strictly longer along the cut
      axis (so it leaves through both faces), and strictly narrower than the
      target's outer surface (so it leaves a wall). */
  predicate CutRule(target: Solid, cutter: Solid) {
    && target.role == Part
    && cutter.role == Cutter
    && cutter.axis == target.axis
    && cutter.centerX == target.centerX
    && cutter.length > target.length
    && cutter.radius < WallRadius(target)
  }

  /** The target after a DIFFERENCE with the cutter: same outline, one more bore. */
  function Bored(target: Solid, cutter: Solid): Solid {
    target.(bores := target.bores + [Bore(cutter.radius, cutter.length, cutter.axis)])
  }

  /** Mirror image of a solid in the plane x = 0, under a new name. */
  function Mirrored(s: Solid, name: string): Solid {
    s.(centerX := -s.centerX, name := name)
  }

  /** One primitive scene operation, as recorded in a scene's log. */
  datatype Op = Added(solid: Solid) | Cut(target: Solid, cutter: Solid) | Removed(solid: Solid)

  /** One step of the build: a part placed as is, or a hollow part made by
      adding the target, adding the cutter, applying the difference and
      deleting the cutter. */
  datatype Step = Place(part: Solid) | Hollow(target: Solid, cutter: Solid)

  /** The scene operations one step performs, in order. */
  function StepOps(st: Step): seq<Op> {
    match st
    case Place(p) => [Added(p)]
    case Hollow(t, c) => [Added(t), Added(c), Cut(t, c), Removed(c)]
  }

  /** The scene operations of a sequence of steps. */
  function OpsOf(steps: seq<Step>): seq<Op>
    decreases |steps|
  {
    if steps == [] then [] else OpsOf(steps[..|steps| - 1]) + StepOps(steps[|steps| - 1])
  }

  /** The solid a step leaves in the scene. */
  function Outcome(st: Step): Solid {
    match st
    case Place(p) => p
    case Hollow(t, c) => Bored(t, c)
  }

  /** The solids a sequence of steps leaves in the scene, one per step and in
      order; an admissible step always leaves a part, never a cutter. */
  function Effect(steps: seq<Step>): (r: seq<Solid>)
    ensures |r| == |steps|
    ensures forall i :: 0 <= i < |steps| && Admissible(steps[i]) ==> r[i].role == Part
  {
    seq(|steps|, i requires 0 <= i < |steps| => Outcome(steps[i]))
  }

  /** A step is admissible when what it leaves is a part and, for a hollow
      part, its cutter obeys the cut rule. */
  predicate Admissible(st: Step) {
    match st
    case Place(p) => p.role == Part
    case Hollow(t, c) => CutRule(t, c)
  }

  /** The log of a build splits step by step: appending steps appends their
      operations. */
  lemma {:induction false} OpsOfAppend(a: seq<Step>, b: seq<Step>)
    ensures OpsOf(a + b) == OpsOf(a) + OpsOf(b)
    decreases |b|
  {
    if b == [] {
      assert a + b == a;
    } else {
      var b' := b[..|b| - 1];
      assert (a + b)[..|a + b| - 1] == a + b';
      assert (a + b)[|a + b| - 1] == b[|b| - 1];
      OpsOfAppend(a, b');
    }
  }

  /** Taking one more step of a build extends its log by that step's operations. */
  lemma OpsOfPrefix(steps: seq<Step>, k: nat)
    requires k < |steps|
    ensures OpsOf(steps[..k + 1]) == OpsOf(steps[..k]) + StepOps(steps[k])
  {
    assert steps[..k + 1][..k] == steps[..k];
  }

  /** Effect distributes over appending steps. */
  lemma EffectAppend(a: seq<Step>, b: seq<Step>)
    ensures Effect(a + b) == Effect(a) + Effect(b)
  {
    assert forall i :: 0 <= i < |a| ==> (a + b)[i] == a[i];
    assert forall i :: |a| <= i < |a| + |b| ==> (a + b)[i] == b[i - |a|];
  }

  lemma ThreeSteps(a: Step, b: Step, c: Step)
    ensures Effect([a, b, c]) == [Outcome(a), Outcome(b), Outcome(c)]
    ensures OpsOf([a, b, c]) == StepOps(a) + StepOps(b) + StepOps(c)
  {
    assert [a][..0] == [];
    assert OpsOf([a]) == StepOps(a);
    assert [a, b][..1] == [a];
    assert OpsOf([a, b]) == StepOps(a) + StepOps(b);
    assert [a, b, c][..2] == [a, b];
  }

  lemma FourSteps(a: Step, b: Step, c: Step, e: Step)
    ensures Effect([a, b, c, e]) == [Outcome(a), Outcome(b), Outcome(c), Outcome(e)]
    ensures OpsOf([a, b, c, e]) == StepOps(a) + StepOps(b) + StepOps(c) + StepOps(e)
  {
    assert [a, b, c, e][..3] == [a, b, c];
    ThreeSteps(a, b, c);
  }

  /** A scene that already holds the effect of `done` and then gains the
      effect of `more` holds the effect of both; likewise for its log. */
  lemma Extend(objs0: seq<Solid>, log0: seq<Op>, done: seq<Step>, more: seq<Step>,
               objs: seq<Solid>, log: seq<Op>)
    requires objs == objs0 + Effect(done) + Effect(more)
    requires log == log0 + OpsOf(done) + OpsOf(more)
    ensures objs == objs0 + Effect(done + more)
    ensures log == log0 + OpsOf(done + more)
  {
    ExtendObjects(objs0, done, more, objs);
    ExtendLog(log0, done, more, log);
  }

  lemma ExtendObjects(objs0: seq<Solid>, done: seq<Step>, more: seq<Step>, objs: seq<Solid>)
    requires objs == objs0 + Effect(done) + Effect(more)
    ensures objs == objs0 + Effect(done + more)
  {
    EffectAppend(done, more);
  }

  lemma ExtendLog(log0: seq<Op>, done: seq<Step>, more: seq<Step>, log: seq<Op>)
    requires log == log0 + OpsOf(done) + OpsOf(more)
    ensures log == log0 + OpsOf(done + more)
  {
    OpsOfAppend(done, more);
  }

  /** No cutter survives: when every step is admissible, every solid left in
      the scene is a part. */
  lemma NoCutterSurvives(steps: seq<Step>)
    requires forall i :: 0 <= i < |steps| ==> Admissible(steps[i])
    ensures forall p :: p in Effect(steps) ==> p.role == Part
  {
    forall p | p in Effect(steps) ensures p.role == Part {
      var i :| 0 <= i < |steps| && Effect(steps)[i] == p;
      assert Admissible(steps[i]);
    }
  }

  /** In the log of any build, every cut is applied right after its cutter is
      added and is followed at once by that cutter's removal. */
  lemma {:induction false} CuttersRemovedAtOnce(steps: seq<Step>, k: nat)
    requires k < |OpsOf(steps)|
    ensures OpsOf(steps)[k].Cut? ==>
      0 < k && k + 1 < |OpsOf(steps)| &&
      OpsOf(steps)[k - 1] == Added(OpsOf(steps)[k].cutter) &&
      OpsOf(steps)[k + 1] == Removed(OpsOf(steps)[k].cutter)
    decreases |steps|
  {
    var init := steps[..|steps| - 1];
    var ops := OpsOf(steps);
    assert ops == OpsOf(init) + StepOps(steps[|steps| - 1]);
    if k < |OpsOf(init)| {
      CuttersRemovedAtOnce(init, k);
    }
  }

  /** In the log of a build of admissible steps, a cutter that is added is
      used by the very next operation, a cut, and removed by the one after. */
  lemma {:induction false} AddedCutterIsCutThenRemoved(steps: seq<Step>, k: nat)
    requires forall i :: 0 <= i < |steps| ==> Admissible(steps[i])
    requires k < |OpsOf(steps)|
    ensures OpsOf(steps)[k].Added? && OpsOf(steps)[k].solid.role == Cutter ==>
      k + 2 < |OpsOf(steps)| &&
      OpsOf(steps)[k + 1].Cut? && OpsOf(steps)[k + 1].cutter == OpsOf(steps)[k].solid &&
      OpsOf(steps)[k + 2] == Removed(OpsOf(steps)[k].solid)
    decreases |steps|
  {
    var init := steps[..|steps| - 1];
    var last := steps[|steps| - 1];
    assert Admissible(last);
    assert OpsOf(steps) == OpsOf(init) + StepOps(last);
    if k < |OpsOf(init)| {
      AddedCutterIsCutThenRemoved(init, k);
    }
  }
}
