/** Unit conversion and the dimension block of the tie-rod build script.
    Nominal sizes are given in inches and converted to metres once, as the
    script does with `in2m`; every derived size is then computed in metres.
    All values are exact rationals (`real`), not floating point. */
module Dimensions {

  /** Metres per inch. */
  const MetresPerInch: real := 0.0254

  /** `in2m`: inches to metres. */
  function InToM(inches: real): real {
    inches * MetresPerInch
  }

  /** Multiplying by a positive constant preserves and reflects order, so
      every fit inequality may be read in inches or in metres alike. */
  lemma InToMOrder(a: real, b: real)
    ensures a < b <==> InToM(a) < InToM(b)
    ensures a <= b <==> InToM(a) <= InToM(b)
    ensures a == b <==> InToM(a) == InToM(b)
  {
  }

  /** Radial slip-fit clearance between the tube bore and the insert, inches. */
  const SlipClearance: real := 0.002

  /** The independent sizes of the assembly, in inches. */
  datatype Nominal = Nominal(
    tubeOd: real,
    tubeWall: real,
    tubeLength: real,
    insertId: real,
    insertLength: real,
    shoulderLength: real,
    heimBodyOd: real,
    heimBodyLength: real,
    heimShankOd: real,
    heimShankLength: real,
    heimBallOd: real,
    heimEyeId: real,
    nutAf: real,
    nutThickness: real)

  /** The full dimension set used by the build, in metres. */
  datatype Dims = Dims(
    tubeOd: real,
    tubeWall: real,
    tubeId: real,
    tubeLength: real,
    insertOd: real,
    insertId: real,
    insertLength: real,
    shoulderOd: real,
    shoulderLength: real,
    heimBodyOd: real,
    heimBodyLength: real,
    heimShankOd: real,
    heimShankLength: real,
    heimBallOd: real,
    heimEyeId: real,
    nutAf: real,
    nutThickness: real)

  /** The inch values the script is written with (1.25" x 0.120" DOM tube,
      3/4-16 heim joints, 1-1/8" jam nuts). */
  const Source: Nominal := Nominal(
    tubeOd := 1.25,
    tubeWall := 0.120,
    tubeLength := 22.0,
    insertId := 0.750,
    insertLength := 1.5,
    shoulderLength := 0.125,
    heimBodyOd := 1.25,
    heimBodyLength := 1.125,
    heimShankOd := 0.750,
    heimShankLength := 1.0,
    heimBallOd := 0.875,
    heimEyeId := 0.750,
    nutAf := 1.125,
    nutThickness := 0.453)

  /** The dimension block: convert every nominal size, then derive the tube
      bore from the wall, the insert from the bore less the slip clearance,
      and the shoulder flush with the tube outside. The derived metric sizes
      are the metric images of the same formulas worked in inches. */
  function Derive(n: Nominal): (d: Dims)
    ensures d.tubeId == InToM(n.tubeOd - 2.0 * n.tubeWall)
    ensures d.insertOd == InToM(n.tubeOd - 2.0 * n.tubeWall - SlipClearance)
    ensures d.shoulderOd == InToM(n.tubeOd)
  {
    var tubeOd := InToM(n.tubeOd);
    var tubeWall := InToM(n.tubeWall);
    var tubeId := tubeOd - 2.0 * tubeWall;
    Dims(
      tubeOd := tubeOd,
      tubeWall := tubeWall,
      tubeId := tubeId,
      tubeLength := InToM(n.tubeLength),
      insertOd := tubeId - InToM(SlipClearance),
      insertId := InToM(n.insertId),
      insertLength := InToM(n.insertLength),
      shoulderOd := tubeOd,
      shoulderLength := InToM(n.shoulderLength),
      heimBodyOd := InToM(n.heimBodyOd),
      heimBodyLength := InToM(n.heimBodyLength),
      heimShankOd := InToM(n.heimShankOd),
      heimShankLength := InToM(n.heimShankLength),
      heimBallOd := InToM(n.heimBallOd),
      heimEyeId := InToM(n.heimEyeId),
      nutAf := InToM(n.nutAf),
      nutThickness := InToM(n.nutThickness))
  }

  /** The radial fit chain: insert bore inside insert, insert inside tube
      bore, tube bore inside tube outside. */
  predicate FitChain(d: Dims) {
    0.0 < d.insertId < d.insertOd < d.tubeId < d.tubeOd
  }

  /** The heim shank fits the insert bore it threads into. */
  predicate ShankFits(d: Dims) {
    d.heimShankOd <= d.insertId
  }

  /** Radius of the through-bore cut in each jam nut: shank radius plus
      0.005 in of clearance. */
  function NutBoreRadius(d: Dims): real {
    d.heimShankOd / 2.0 + InToM(0.005)
  }

  /** The derived tube and insert sizes of the script: 1.01 in and 1.008 in. */
  lemma SourceDerivedSizes()
    ensures Derive(Source).tubeId == InToM(1.01) == 0.025654
    ensures Derive(Source).insertOd == InToM(1.008)
  {
  }

  /** For any nominal input the fit chain holds exactly when the wall is
      positive and the insert bore is positive and narrower than the tube
      bore less the clearance; the insert always fits the bore. */
  lemma FitChainIff(n: Nominal)
    ensures Derive(n).insertOd < Derive(n).tubeId
    ensures FitChain(Derive(n)) <==>
      0.0 < n.tubeWall && 0.0 < n.insertId &&
      n.insertId < n.tubeOd - 2.0 * n.tubeWall - SlipClearance
  {
  }

  /** A wall of zero makes the bore as wide as the tube: the chain fails. */
  lemma ZeroWallBreaksChain(n: Nominal)
    requires n.tubeWall == 0.0
    ensures !FitChain(Derive(n))
  {
    FitChainIff(n);
  }

  /** The script's own sizes satisfy the fit chain, the shank fits the insert
      bore, and the nut bore clears the shank. */
  lemma SourceFits()
    ensures FitChain(Derive(Source))
    ensures ShankFits(Derive(Source))
    ensures NutBoreRadius(Derive(Source)) > Derive(Source).heimShankOd / 2.0
    ensures NutBoreRadius(Derive(Source)) == InToM(0.38)
  {
  }
}
