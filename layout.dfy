/** Placement along the tube axis and the parts of the assembly. The origin is
    the tube midpoint; both end assemblies are placed by one rule with a side
    sign, x_sign = -1 for the left-hand end and +1 for the right-hand end. */
module Layout {
  import opened Dimensions
  import opened Solids

  datatype Side = LH | RH {
    /** The tag appended to part names. */
    function Name(): string {
      match this
      case LH => "LH"
      case RH => "RH"
    }
  }

  /** The order in which both loops visit the ends. */
  const Sides: seq<Side> := [LH, RH]

  /** `x_sign * v`. Since x_sign is its own inverse, `Signed(s, x)` also reads
      a position `x` on side `s` as its distance from the midpoint towards
      that end. */
  function Signed(s: Side, v: real): real {
    if s == LH then -v else v
  }

  /** Every longitudinal position the build computes. */
  datatype Feature =
    | TubeEnd | InsertCenter | ShoulderCenter | WeldCenter
    | ShankStart | ShankCenter | BodyStart | BodyCenter | NutCenter

  /** How many positions a feature's formula is computed from. */
  function Rank(f: Feature): nat {
    match f
    case TubeEnd => 0
    case InsertCenter => 1
    case ShoulderCenter => 1
    case WeldCenter => 1
    case ShankStart => 1
    case ShankCenter => 2
    case BodyStart => 2
    case NutCenter => 2
    case BodyCenter => 3
  }

  /** The distance of each feature from the midpoint, in closed form and the
      same for both ends. */
  function Reach(d: Dims, f: Feature): real {
    var end := d.tubeLength / 2.0;
    match f
    case TubeEnd => end
    case InsertCenter => end + d.insertLength / 2.0 - InToM(0.25)
    case ShoulderCenter => end + d.shoulderLength / 2.0
    case WeldCenter => end + d.shoulderLength
    case ShankStart => end + d.shoulderLength
    case ShankCenter => end + d.shoulderLength + d.heimShankLength / 2.0
    case BodyStart => end + d.shoulderLength + d.heimShankLength
    case BodyCenter => end + d.shoulderLength + d.heimShankLength + d.heimBodyLength / 2.0
    case NutCenter => end + d.shoulderLength + InToM(0.25)
  }

  /** The position of a feature on side `s`, computed step by step as the
      build does: each position is the one it is measured from plus `x_sign`
      times a length. Every position is `x_sign` times the side-independent
      reach, which is what makes the two ends mirror images. */
  function Offset(d: Dims, s: Side, f: Feature): (x: real)
    ensures x == Signed(s, Reach(d, f))
    decreases Rank(f)
  {
    match f
    case TubeEnd => Signed(s, d.tubeLength) / 2.0
    case InsertCenter => Offset(d, s, TubeEnd) + Signed(s, d.insertLength / 2.0 - InToM(0.25))
    case ShoulderCenter => Offset(d, s, TubeEnd) + Signed(s, d.shoulderLength / 2.0)
    case WeldCenter => Offset(d, s, TubeEnd) + Signed(s, d.shoulderLength)
    case ShankStart => Offset(d, s, TubeEnd) + Signed(s, d.shoulderLength)
    case ShankCenter => Offset(d, s, ShankStart) + Signed(s, d.heimShankLength) / 2.0
    case BodyStart => Offset(d, s, ShankStart) + Signed(s, d.heimShankLength)
    case BodyCenter => Offset(d, s, BodyStart) + Signed(s, d.heimBodyLength) / 2.0
    case NutCenter => Offset(d, s, ShankStart) + Signed(s, InToM(0.25))
  }

  /** Mirror symmetry: every right-hand position is the exact negation of the
      left-hand one. */
  lemma OffsetMirror(d: Dims, f: Feature)
    ensures Offset(d, RH, f) == -Offset(d, LH, f)
  {
  }

  /** With the script's sizes the right-hand insert is centred 11.5 in from
      the midpoint: 11 in to the tube end, plus 0.75 in, less 0.25 in. */
  lemma SourceInsertCenter()
    ensures Offset(Derive(Source), RH, InsertCenter) == InToM(11.5)
    ensures Offset(Derive(Source), LH, InsertCenter) == InToM(-11.5)
  {
  }

  // ---- the solids ----

  /** A part on the tube axis, with no bores yet. */
  function PartOnAxis(name: string, kind: Kind, radius: real, length: real, x: real, axis: Axis, material: string): Solid {
    Solid(name, kind, radius, length, x, axis, [], material, Part)
  }

  /** A cylindrical cutter. The build never renames cutters, so each keeps the
      primitive's default name. */
  function CutterOnAxis(radius: real, length: real, x: real, axis: Axis): Solid {
    Solid("Cylinder", Cylinder, radius, length, x, axis, [], "", Cutter)
  }

  /** The DOM tube blank, centred at the origin. */
  function TubeBlank(d: Dims): Solid {
    PartOnAxis("DOM_Tube_1.25x.120", Cylinder, d.tubeOd / 2.0, d.tubeLength, 0.0, X, "DOM_Steel")
  }

  /** The tube bore, 0.5 in longer than the tube. */
  function TubeBore(d: Dims): Solid {
    CutterOnAxis(d.tubeId / 2.0, d.tubeLength + InToM(0.5), 0.0, X)
  }

  function InsertBlank(d: Dims, s: Side): Solid {
    PartOnAxis("Insert_" + s.Name(), Cylinder, d.insertOd / 2.0, d.insertLength,
               Offset(d, s, InsertCenter), X, "Insert_Steel")
  }

  /** The heim-thread bore through the insert, 0.2 in longer than the insert. */
  function InsertBore(d: Dims, s: Side): Solid {
    CutterOnAxis(d.insertId / 2.0, d.insertLength + InToM(0.2), Offset(d, s, InsertCenter), X)
  }

  function ShoulderBlank(d: Dims, s: Side): Solid {
    PartOnAxis("Insert_Shoulder_" + s.Name(), Cylinder, d.shoulderOd / 2.0, d.shoulderLength,
               Offset(d, s, ShoulderCenter), X, "Insert_Steel")
  }

  /** The bore through the shoulder, insert-bore wide, 0.1 in longer than the lip. */
  function ShoulderBore(d: Dims, s: Side): Solid {
    CutterOnAxis(d.insertId / 2.0, d.shoulderLength + InToM(0.1), Offset(d, s, ShoulderCenter), X)
  }

  /** The weld bead: a torus of the tube's outer radius and 0.05 in minor
      radius at the shoulder's outer face. */
  function WeldBead(d: Dims, s: Side): Solid {
    PartOnAxis("Weld_" + s.Name(), Torus, d.tubeOd / 2.0, 2.0 * InToM(0.05),
               Offset(d, s, WeldCenter), X, "Weld_Bead")
  }

  function HeimShank(d: Dims, s: Side): Solid {
    PartOnAxis("Heim_Shank_" + s.Name(), Cylinder, d.heimShankOd / 2.0, d.heimShankLength,
               Offset(d, s, ShankCenter), X, "Heim_Chrome")
  }

  function HeimBody(d: Dims, s: Side): Solid {
    PartOnAxis("Heim_Body_" + s.Name(), Cylinder, d.heimBodyOd / 2.0, d.heimBodyLength,
               Offset(d, s, BodyCenter), X, "Heim_Chrome")
  }

  /** The ball, an unrotated sphere at the body centre (its length is its diameter). */
  function BallBlank(d: Dims, s: Side): Solid {
    PartOnAxis("Heim_Ball_" + s.Name(), Sphere, d.heimBallOd / 2.0, d.heimBallOd,
               Offset(d, s, BodyCenter), Z, "Heim_Chrome")
  }

  /** The vertical eye bore through the ball, body diameter plus 0.3 in long. */
  function EyeCutter(d: Dims, s: Side): Solid {
    CutterOnAxis(d.heimEyeId / 2.0, d.heimBodyOd + InToM(0.3), Offset(d, s, BodyCenter), Z)
  }

  /** The hex jam nut, radius parameter half the across-flats size. */
  function NutBlank(d: Dims, s: Side): Solid {
    PartOnAxis("Jam_Nut_" + s.Name(), Hex, d.nutAf / 2.0, d.nutThickness,
               Offset(d, s, NutCenter), X, "Jam_Nut_Steel")
  }

  /** The bore through the nut, 0.1 in longer than the nut. */
  function NutBore(d: Dims, s: Side): Solid {
    CutterOnAxis(NutBoreRadius(d), d.nutThickness + InToM(0.1), Offset(d, s, NutCenter), X)
  }

  // ---- faces along the axis ----

  /** The face of an X-axis solid that looks towards the midpoint, on side `s`. */
  function InnerFace(p: Solid, s: Side): real {
    p.centerX - Signed(s, p.length / 2.0)
  }

  /** The face of an X-axis solid that looks towards the end, on side `s`. */
  function OuterFace(p: Solid, s: Side): real {
    p.centerX + Signed(s, p.length / 2.0)
  }

  /** Moving outward the parts meet without gaps: the shoulder starts at the
      tube end face; the weld and the shank start at the shoulder's outer
      face; the heim body starts where the shank ends; the ball is centred in
      the body. */
  lemma OutwardAdjacency(d: Dims, s: Side)
    ensures InnerFace(ShoulderBlank(d, s), s) == Offset(d, s, TubeEnd)
    ensures OuterFace(ShoulderBlank(d, s), s) == WeldBead(d, s).centerX
    ensures WeldBead(d, s).centerX == InnerFace(HeimShank(d, s), s) == Offset(d, s, ShankStart)
    ensures OuterFace(HeimShank(d, s), s) == InnerFace(HeimBody(d, s), s) == Offset(d, s, BodyStart)
    ensures BallBlank(d, s).centerX == HeimBody(d, s).centerX
  {
  }

  /** The insert's formula puts only 0.25 in of it inside the tube: its inner
      face is 0.25 in in from the tube end and its outer face is the insert
      length, less 0.25 in, beyond it. */
  lemma InsertExtent(d: Dims, s: Side)
    ensures Signed(s, InnerFace(InsertBlank(d, s), s)) == Reach(d, TubeEnd) - InToM(0.25)
    ensures Signed(s, OuterFace(InsertBlank(d, s), s)) == Reach(d, TubeEnd) + d.insertLength - InToM(0.25)
  {
  }

  /** Where the insert ends relative to the heim-end parts: its outer face lies
      `insert_length - 0.25 in - shoulder_length - shank_length` beyond the
      heim body's inner face, and `insert_length - 0.5 in - shoulder_length -
      nut_thickness/2` beyond the jam nut's outer face. */
  lemma InsertReach(d: Dims, s: Side)
    ensures Signed(s, OuterFace(InsertBlank(d, s), s)) - Signed(s, InnerFace(HeimBody(d, s), s))
      == d.insertLength - InToM(0.25) - d.shoulderLength - d.heimShankLength
    ensures Signed(s, OuterFace(InsertBlank(d, s), s)) - Signed(s, OuterFace(NutBlank(d, s), s))
      == d.insertLength - InToM(0.5) - d.shoulderLength - d.nutThickness / 2.0
  {
    match s
    case LH =>
    case RH =>
  }

  /** With the script's sizes the insert's outer face is 1.25 in beyond the
      tube end: past the jam nut's outer face (0.6015 in) and 0.125 in into
      the heim body, whose inner face is 1.125 in beyond the tube end. */
  lemma SourceInsertReach(s: Side)
    ensures Signed(s, OuterFace(InsertBlank(Derive(Source), s), s)) == Reach(Derive(Source), TubeEnd) + InToM(1.25)
    ensures Signed(s, OuterFace(NutBlank(Derive(Source), s), s)) == Reach(Derive(Source), TubeEnd) + InToM(0.6015)
    ensures Signed(s, InnerFace(HeimBody(Derive(Source), s), s)) == Reach(Derive(Source), TubeEnd) + InToM(1.125)
  {
    InsertReach(Derive(Source), s);
    match s
    case LH =>
    case RH =>
  }

  /** The jam nut lies within the shank's span, between the shank start and
      the heim body, exactly when half its thickness is at most the 0.25 in
      offset of its centre and the nut's outer face does not pass the shank's end. */
  lemma NutOnShankIff(d: Dims, s: Side)
    ensures
      (Signed(s, InnerFace(HeimShank(d, s), s)) <= Signed(s, InnerFace(NutBlank(d, s), s)) &&
       Signed(s, OuterFace(NutBlank(d, s), s)) <= Signed(s, OuterFace(HeimShank(d, s), s)))
      <==>
      (d.nutThickness / 2.0 <= InToM(0.25) &&
       InToM(0.25) + d.nutThickness / 2.0 <= d.heimShankLength)
  {
    match s
    case LH =>
    case RH =>
  }

  /** With the script's sizes the nut sits on the shank. */
  lemma SourceNutOnShank(s: Side)
    ensures Signed(s, InnerFace(HeimShank(Derive(Source), s), s)) <= Signed(s, InnerFace(NutBlank(Derive(Source), s), s))
    ensures Signed(s, OuterFace(NutBlank(Derive(Source), s), s)) <= Signed(s, OuterFace(HeimShank(Derive(Source), s), s))
  {
    NutOnShankIff(Derive(Source), s);
  }

  /** Each cutter overshoots its target by the margin the build chooses:
      0.5 in for the tube, 0.2 in for the insert, 0.1 in for the shoulder and
      the nut; the eye cutter is the body diameter plus 0.3 in against the
      ball's diameter. */
  lemma OvercutMargins(d: Dims, s: Side)
    ensures TubeBore(d).length - TubeBlank(d).length == InToM(0.5)
    ensures InsertBore(d, s).length - InsertBlank(d, s).length == InToM(0.2)
    ensures ShoulderBore(d, s).length - ShoulderBlank(d, s).length == InToM(0.1)
    ensures NutBore(d, s).length - NutBlank(d, s).length == InToM(0.1)
    ensures EyeCutter(d, s).length - BallBlank(d, s).length == d.heimBodyOd + InToM(0.3) - d.heimBallOd
  {
  }
}
