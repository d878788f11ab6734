/** The `VPDScanner` class of gCodeClass.py: the routines of a vapour-phase
    decomposition scan (start-up, sample handling, concentric-circle wafer
    scan, shut-down) written as G-code through a `marlinPrinter`.

    The source derives `VPDScanner` from `marlinPrinter`; here the scanner
    holds the printer it writes through, built with zero tip offsets as
    the scanner's own constructor does. */
module Scanner {
  import opened Outcomes
  import opened PyText
  import opened GCodeClass

  // ----- Syringe drive ----------------------------------------------------

  const StepsPerRotation: real := 3200.0
  const GearTeeth: real := 30.0
  const RackTeethPerCm: real := 6.36619

  /** Motor steps per millimetre of rack travel: one turn of the gear moves
      the rack by its tooth count divided by the rack's teeth per mm. */
  const StepsPerMM: real := StepsPerRotation * (RackTeethPerCm / 10.0) / GearTeeth

  /** `getEFeedRate`: motor steps per mL, so that `E1` dispenses 1 mL from a
      syringe holding `mL` over `mm` millimetres of plunger travel.  Python
      raises ZeroDivisionError at `mL / mm` when `mm` is zero and at
      `1 / mLPerGearDegree` when `mL` is zero. */
  function GetEFeedRate(mL: real, mm: real): (r: Result<real>)
    ensures r.Err? <==> mL == 0.0 || mm == 0.0
    ensures r.Err? ==> r.error == ZeroDivisionError
  {
    if mm == 0.0 then Err(ZeroDivisionError)
    else
      var stepsPerDeg := StepsPerRotation / 360.0;
      var gearTeethPerDegree := GearTeeth / 360.0;
      var mLPerMM := mL / mm;
      var mLPerRackTooth := (mLPerMM * 10.0) / RackTeethPerCm;
      var mLPerGearDegree := mLPerRackTooth * gearTeethPerDegree;
      assert mLPerGearDegree == mL / (mm * StepsPerMM * 360.0 / StepsPerRotation);
      if mLPerGearDegree == 0.0 then Err(ZeroDivisionError)
      else
        var degreePerML := 1.0 / mLPerGearDegree;
        Ok(degreePerML * stepsPerDeg)
  }

  /** The chain of unit conversions amounts to `StepsPerMM * mm / mL`, which
      is positive exactly when the two dimensions have the same sign. */
  lemma FeedRateValue(mL: real, mm: real)
    ensures GetEFeedRate(mL, mm).Ok? ==> GetEFeedRate(mL, mm).value == StepsPerMM * mm / mL
    ensures GetEFeedRate(mL, mm).Ok? ==> (GetEFeedRate(mL, mm).value > 0.0 <==> (mL > 0.0 <==> mm > 0.0))
  {
    if mL != 0.0 && mm != 0.0 {
      var stepsPerDeg := StepsPerRotation / 360.0;
      var mLPerGearDegree := mL / (mm * StepsPerMM * 360.0 / StepsPerRotation);
      FeedRateClosedForm(mL, mm, (1.0 / mLPerGearDegree) * stepsPerDeg);
    }
  }

  lemma FeedRateClosedForm(mL: real, mm: real, r: real)
    requires mL != 0.0 && mm != 0.0
    requires r == (1.0 / (mL / (mm * StepsPerMM * 360.0 / StepsPerRotation))) * (StepsPerRotation / 360.0)
    ensures r == StepsPerMM * mm / mL
    ensures r > 0.0 <==> (mL > 0.0 <==> mm > 0.0)
  {
    var k := mm * StepsPerMM * 360.0 / StepsPerRotation;
    assert 1.0 / (mL / k) == k / mL;
    assert k / mL * (StepsPerRotation / 360.0) == mm * StepsPerMM / mL;
    assert mm * StepsPerMM / mL == StepsPerMM * (mm / mL);
    assert mm / mL > 0.0 <==> (mL > 0.0 <==> mm > 0.0);
  }

  /** With the default syringe (0.5 mL over 60 mm) the extruder is set to
      8148.7232 steps per mL. */
  lemma DefaultFeedRate()
    ensures GetEFeedRate(0.5, 60.0) == Ok(8148.7232)
  {
  }

  /** `calcRelPos`: the vector from the current position to a point. */
  function CalcRelPos(xAbs: real, yAbs: real, xPoint: real, yPoint: real): (r: (real, real))
    ensures xAbs + r.0 == xPoint && yAbs + r.1 == yPoint
  {
    (xPoint - xAbs, yPoint - yAbs)
  }

  // ----- What each routine appends ----------------------------------------

  /** The lines one `nonExtrudeMove` call appends. */
  function Travel(cfg: Config, off: Offsets, c: Coords, comment: string): seq<string>
  {
    Emitted(NonExtrudeMoveSpec(cfg, off, c, comment))
  }

  /** The lines one `extrudeMove` call appends. */
  function Extrude(cfg: Config, off: Offsets, c: Coords): seq<string>
  {
    Emitted(ExtrudeMoveSpec(cfg, off, c, ""))
  }

  /** The lines of a sequence of `extrudeMove` calls. */
  function ExtrudeAll(cfg: Config, off: Offsets, moves: seq<Coords>): seq<string>
  {
    if moves == [] then []
    else ExtrudeAll(cfg, off, moves[..|moves| - 1]) + Extrude(cfg, off, moves[|moves| - 1])
  }

  /** The E values a sequence of extruder moves asks for, summed. */
  function NetE(moves: seq<Coords>): real
  {
    if moves == [] then 0.0
    else
      var last := Get(moves[|moves| - 1], E);
      NetE(moves[..|moves| - 1]) + (if last.Some? then last.value else 0.0)
  }

  /** The moves of `collectSample`: back half a volume, forward half, then back a whole one. */
  function CollectMoves(cfg: Config, volume: real): seq<Coords>
  {
    var f := cfg.extrusionMotorFeedrate;
    [[(E, -volume / 2.0), (F, f)], [(E, volume / 2.0), (F, f)], [(E, -volume), (F, f)]]
  }

  /** The moves of `dispenseSample`: forward a whole volume, back half, forward half. */
  function DispenseMoves(cfg: Config, volume: real): seq<Coords>
  {
    var f := cfg.extrusionMotorFeedrate;
    [[(E, volume), (F, f)], [(E, -volume / 2.0), (F, f)], [(E, volume / 2.0), (F, f)]]
  }

  /** The eight fixed lines `startGCode` writes before it computes the E steps. */
  const StartHeader: seq<string> := [
    "; BEGIN START GCODE",
    "G21 ; set units to millimeters",
    "M82 ;absolute extrusion mode",
    "M302 S0; always allow extrusion (disable checking)",
    "G92 E0 ; Reset Extruder",
    HomeAxesLine,
    AbsPosLine,
    "G92 E0 X0 Y0 Z0; Set home position"]

  const StartFooter := "; END START GCODE"

  /** The lines `startGCode` appends: when the feed rate cannot be computed
      the routine stops after the header. */
  function StartLines(cfg: Config, off: Offsets, mL: real, mm: real): seq<string>
  {
    match GetEFeedRate(mL, mm)
    case Err(_) => StartHeader
    case Ok(eSteps) => StartHeader + StartTail(cfg, off, eSteps)
  }

  /** What follows the header once the feed rate `e` is known: the steps
      per unit, the lift and the footer. */
  function StartTail(cfg: Config, off: Offsets, e: real): seq<string>
  {
    Emitted(SetStepsPerUnitSpec(off, [(E, e)]))
    + Travel(cfg, off, [(Z, 2.0)], "Move up to prevent scratching.") + [StartFooter]
  }

  /** The lines of `useCuevette`: up, over the cuvette, down, dispense or
      collect the syringe volume, back up. */
  function CuevetteLines(cfg: Config, off: Offsets, mL: real, dispense: bool): seq<string>
  {
    Travel(cfg, off, [(Z, cfg.travelHeight)], "")
    + Travel(cfg, off, [(X, cfg.cuevetteX), (Y, cfg.cuevetteLipY)], "")
    + Travel(cfg, off, [(Z, cfg.cuevetteZ)], "")
    + ExtrudeAll(cfg, off, if dispense then DispenseMoves(cfg, mL) else CollectMoves(cfg, mL))
    + Travel(cfg, off, [(Z, cfg.travelHeight)], "")
  }

  /** The lines of `centerHead`: lift, go to the middle of the bed, lower. */
  function CenterHeadLines(cfg: Config, off: Offsets): seq<string>
  {
    Travel(cfg, off, [(Z, 3.0)], "BEGIN CENTER HEAD")
    + Travel(cfg, off, BedCentre(cfg), "")
    + Travel(cfg, off, [(Z, 1.0)], "END CENTER HEAD")
  }

  /** The middle of the bed, `{X: X_MAX / 2, Y: Y_MAX / 2}`. */
  function BedCentre(cfg: Config): Coords
  {
    [(X, cfg.xMax / 2.0), (Y, cfg.yMax / 2.0)]
  }

  /** Radius of the outermost circle: the wafer radius less the edge gap. */
  function MaxRadius(cfg: Config): real
  {
    cfg.waferDiam / 2.0 - cfg.edgeGap
  }

  /** How many circles fit, one droplet width apart (`math.floor`). */
  function MaxRotations(cfg: Config): int
    requires cfg.dropletSize != 0.0
  {
    (MaxRadius(cfg) / cfg.dropletSize).Floor
  }

  /** Radius of circle number `k`, counting from the outermost. */
  function RingOffset(cfg: Config, k: int): real
  {
    MaxRadius(cfg) - k as real * cfg.dropletSize
  }

  /** The two lines of one pass of the scan loop with the needle at `x`:
      move out along X, then a full circle about the bed centre. */
  function RingLinesAt(cfg: Config, off: Offsets, x: real): seq<string>
  {
    RingMove(cfg, off, x) + RingCircle(cfg, off, x)
  }

  /** The move out to `x` at the scanning feedrate. */
  function RingMove(cfg: Config, off: Offsets, x: real): seq<string>
  {
    Travel(cfg, off, [(X, x), (F, cfg.scanningMoveFeedrate)], "Move needle in.")
  }

  /** The circle about the bed centre, given relative to the needle at `x`. */
  function RingCircle(cfg: Config, off: Offsets, x: real): seq<string>
  {
    CircleAt(off, cfg.xMax / 2.0 - x, cfg.yMax / 2.0 - cfg.yMax / 2.0)
  }

  /** The lines one `doCircle` call with centre `I i J j` appends. */
  function CircleAt(off: Offsets, i: real, j: real): seq<string>
  {
    Emitted(DoCircleSpec(off, [(X, i), (Y, j)], ""))
  }

  lemma MaxRotationsIs(cfg: Config, maxRadius: real, n: int)
    requires cfg.dropletSize != 0.0
    requires maxRadius == MaxRadius(cfg) && n == (maxRadius / cfg.dropletSize).Floor
    ensures n == MaxRotations(cfg)
  {
  }

  lemma RingOffsetIs(cfg: Config, maxRadius: real, k: nat, o: real)
    requires maxRadius == MaxRadius(cfg) && o == maxRadius - k as real * cfg.dropletSize
    ensures cfg.xMax / 2.0 + o == RingX(cfg, k)
  {
    RingXIsRadius(cfg, k);
  }

  /** Where pass `k` of the scan loop puts the needle: first the outermost
      radius right of the bed centre, then one droplet further in each pass. */
  function RingX(cfg: Config, k: nat): real
    decreases k
  {
    if k == 0 then cfg.xMax / 2.0 + MaxRadius(cfg) else RingX(cfg, k - 1) - cfg.dropletSize
  }

  /** Pass `k` puts the needle on the circle of radius `RingOffset(cfg, k)`. */
  lemma {:induction false} RingXIsRadius(cfg: Config, k: nat)
    ensures RingX(cfg, k) == cfg.xMax / 2.0 + RingOffset(cfg, k)
    decreases k
  {
    if k > 0 {
      RingXIsRadius(cfg, k - 1);
      assert (k - 1) as real * cfg.dropletSize + cfg.dropletSize == k as real * cfg.dropletSize;
    }
  }

  /** The needle positions of the first `n` passes, in loop order. */
  function RingXs(cfg: Config, n: int): seq<real>
    decreases n
  {
    if n <= 0 then [] else RingXs(cfg, n - 1) + [RingX(cfg, n - 1)]
  }

  /** Where the loop stops, it has made as many passes as asked for, or
      none when asked for fewer than one. */
  lemma RingXsStop(cfg: Config, n: int, k: int)
    requires 0 <= k <= (if n < 0 then 0 else n) && !(k < n)
    ensures RingXs(cfg, n) == RingXs(cfg, k)
  {
  }

  /** The lines of passes made at the positions `xs`, in order. */
  function RingsAt(cfg: Config, off: Offsets, xs: seq<real>): seq<string>
  {
    if xs == [] then []
    else RingsAt(cfg, off, xs[..|xs| - 1]) + RingLinesAt(cfg, off, xs[|xs| - 1])
  }

  /** The lines before the scan loop: centre, lower to the tip height, draw up the droplet. */
  function ScanPrologue(cfg: Config, off: Offsets, mL: real): seq<string>
  {
    CenterHeadLines(cfg, off) + Travel(cfg, off, [(Z, cfg.tipHeight)], "")
    + Extrude(cfg, off, [(E, mL), (F, cfg.extrusionMotorFeedrate)])
  }

  /** `doWaferScan`: a zero droplet size raises before anything is written. */
  function WaferScanSpec(cfg: Config, off: Offsets, mL: real): Result<seq<string>>
  {
    if cfg.dropletSize == 0.0 then Err(ZeroDivisionError)
    else Ok(ScanPrologue(cfg, off, mL) + RingsAt(cfg, off, RingXs(cfg, MaxRotations(cfg)))
            + Extrude(cfg, off, [(E, -1.0 * mL), (F, cfg.extrusionMotorFeedrate)]))
  }

  /** The lines of `endGCode`: raise Z relative to where it is, then present the bed. */
  function EndLines(cfg: Config, off: Offsets): seq<string>
  {
    [RelativePosLine] + Travel(cfg, off, [(Z, 10.0)], "Raize Z.")
    + [AbsPosLine] + Travel(cfg, off, [(X, 0.0), (Y, cfg.yMax)], "Present print.")
  }

  /** Regrouping appends, one step at a time. */
  lemma AppendAssoc<T>(s: seq<T>, a: seq<T>, b: seq<T>)
    ensures s + (a + b) == s + a + b
  {
  }

  lemma ExtrudeAllThree(cfg: Config, off: Offsets, m0: Coords, m1: Coords, m2: Coords)
    ensures ExtrudeAll(cfg, off, [m0, m1, m2]) == Extrude(cfg, off, m0) + Extrude(cfg, off, m1) + Extrude(cfg, off, m2)
  {
    var ms := [m0, m1, m2];
    assert ms[..2] == [m0, m1] && [m0, m1][..1] == [m0] && [m0][..0] == [];
    assert ExtrudeAll(cfg, off, [m0]) == Extrude(cfg, off, m0);
    assert ExtrudeAll(cfg, off, [m0, m1]) == Extrude(cfg, off, m0) + Extrude(cfg, off, m1);
  }

  // ----- What the routines promise ----------------------------------------

  /** A dict whose first key is a movement axis has found its coordinates. */
  lemma LeadsWithAxis(c: Coords)
    requires c != [] && c[0].0 != F
    ensures HasMoveAxis(c)
  {
    assert HasKey(c, c[0].0);
  }

  /** A travel with at least one axis writes exactly one line. */
  lemma TravelOneLine(cfg: Config, off: Offsets, c: Coords, comment: string)
    requires c != [] && c[0].0 != F
    ensures |Travel(cfg, off, c, comment)| == 1
  {
    LeadsWithAxis(c);
    NonExtrudeMoveLine(cfg, off, c, comment);
  }

  /** An extruder move with at least one axis writes exactly one line. */
  lemma ExtrudeOneLine(cfg: Config, off: Offsets, c: Coords)
    requires c != [] && c[0].0 != F
    ensures |Extrude(cfg, off, c)| == 1
  {
    LeadsWithAxis(c);
    ExtrudeMoveLine(cfg, off, c, "");
  }

  /** `startGCode` writes its eight header lines whatever happens, and
      nothing more exactly when the feed rate cannot be computed. */
  lemma StartLinesHeader(cfg: Config, off: Offsets, mL: real, mm: real)
    ensures |StartLines(cfg, off, mL, mm)| >= 8 && StartLines(cfg, off, mL, mm)[..8] == StartHeader
    ensures (mL == 0.0 || mm == 0.0) <==> StartLines(cfg, off, mL, mm) == StartHeader
  {
    var s := StartLines(cfg, off, mL, mm);
    if mL != 0.0 && mm != 0.0 {
      var e := GetEFeedRate(mL, mm).value;
      StartTailCount(cfg, off, e);
      var t := StartTail(cfg, off, e);
      assert s == StartHeader + t;
      assert s[..8] == StartHeader;
    } else {
      assert s == StartHeader;
    }
  }

  /** When the feed rate exists, the header is followed by the M92 line
      for it, the lift and the footer. */
  lemma StartTailLines(cfg: Config, off: Offsets, e: real)
    ensures StartTail(cfg, off, e)
      == ["M92 E" + Fmt4(e) + " ; Set steps per unit."]
      + Travel(cfg, off, [(Z, 2.0)], "Move up to prevent scratching.")
      + [StartFooter]
  {
    SetStepsPerUnitE(off, e);
  }

  lemma StartTailCount(cfg: Config, off: Offsets, e: real)
    ensures |StartTail(cfg, off, e)| == 3
  {
    StartTailLines(cfg, off, e);
    TravelOneLine(cfg, off, [(Z, 2.0)], "Move up to prevent scratching.");
  }

  /** `centerHead` writes three moves. */
  lemma CenterHeadCount(cfg: Config, off: Offsets)
    ensures |CenterHeadLines(cfg, off)| == 3
  {
    TravelOneLine(cfg, off, [(Z, 3.0)], "BEGIN CENTER HEAD");
    TravelOneLine(cfg, off, BedCentre(cfg), "");
    TravelOneLine(cfg, off, [(Z, 1.0)], "END CENTER HEAD");
  }

  /** `endGCode` writes four lines: relative mode, the lift, absolute mode, the presenting move. */
  lemma EndLinesShape(cfg: Config, off: Offsets)
    ensures |EndLines(cfg, off)| == 4
    ensures EndLines(cfg, off)[0] == RelativePosLine && EndLines(cfg, off)[2] == AbsPosLine
  {
    TravelOneLine(cfg, off, [(Z, 10.0)], "Raize Z.");
    TravelOneLine(cfg, off, [(X, 0.0), (Y, cfg.yMax)], "Present print.");
  }

  /** `collectSample` leaves the plunger one volume further back. */
  lemma CollectNetE(cfg: Config, v: real)
    ensures NetE(CollectMoves(cfg, v)) == -v
  {
    var ms := CollectMoves(cfg, v);
    assert ms[..2] == [ms[0], ms[1]] && [ms[0], ms[1]][..1] == [ms[0]] && [ms[0]][..0] == [];
    assert NetE([ms[0]]) == -v / 2.0;
    assert NetE([ms[0], ms[1]]) == 0.0;
  }

  /** `dispenseSample` leaves the plunger one volume further forward. */
  lemma DispenseNetE(cfg: Config, v: real)
    ensures NetE(DispenseMoves(cfg, v)) == v
  {
    var ms := DispenseMoves(cfg, v);
    assert ms[..2] == [ms[0], ms[1]] && [ms[0], ms[1]][..1] == [ms[0]] && [ms[0]][..0] == [];
    assert NetE([ms[0]]) == v;
    assert NetE([ms[0], ms[1]]) == v / 2.0;
  }

  /** `useCuevette` writes seven lines: three travels, three extruder moves, one travel. */
  lemma CuevetteCount(cfg: Config, off: Offsets, mL: real, dispense: bool)
    ensures |CuevetteLines(cfg, off, mL, dispense)| == 7
  {
    var ms: seq<Coords> := if dispense then DispenseMoves(cfg, mL) else CollectMoves(cfg, mL);
    assert ms[0][0].0 == E && ms[1][0].0 == E && ms[2][0].0 == E;
    ExtrudeAllThree(cfg, off, ms[0], ms[1], ms[2]);
    assert ms == [ms[0], ms[1], ms[2]];
    ExtrudeOneLine(cfg, off, ms[0]);
    ExtrudeOneLine(cfg, off, ms[1]);
    ExtrudeOneLine(cfg, off, ms[2]);
    TravelOneLine(cfg, off, [(Z, cfg.travelHeight)], "");
    TravelOneLine(cfg, off, [(X, cfg.cuevetteX), (Y, cfg.cuevetteLipY)], "");
    TravelOneLine(cfg, off, [(Z, cfg.cuevetteZ)], "");
  }

  /** Each pass of the scan loop writes two lines: the move out and the circle. */
  lemma RingCount(cfg: Config, off: Offsets, x: real)
    ensures |RingLinesAt(cfg, off, x)| == 2
  {
    RingMoveCount(cfg, off, x);
    RingCircleCount(cfg, off, x);
  }

  lemma RingMoveCount(cfg: Config, off: Offsets, x: real)
    ensures |RingMove(cfg, off, x)| == 1
  {
    TravelOneLine(cfg, off, [(X, x), (F, cfg.scanningMoveFeedrate)], "Move needle in.");
  }

  lemma RingCircleCount(cfg: Config, off: Offsets, x: real)
    ensures |RingCircle(cfg, off, x)| == 1
  {
    var i := cfg.xMax / 2.0 - x;
    RingArc(cfg, off, x, i);
    CircleAtArc(off, i, 0.0);
  }

  /** One `doCircle` call with two explicit values writes one `G2` line. */
  lemma CircleAtArc(off: Offsets, i: real, j: real)
    ensures CircleAt(off, i, j) == ["G2 I" + Fmt4(i - off.x) + " J" + Fmt4(j - off.y)]
  {
    DoCircleArc(off, i, j);
  }

  /** The loop visits one position per pass, the `k`-th at `RingX(cfg, k)`. */
  lemma {:induction false} RingXsShape(cfg: Config, n: int)
    ensures |RingXs(cfg, n)| == if n <= 0 then 0 else n
    ensures forall k :: 0 <= k < |RingXs(cfg, n)| ==> RingXs(cfg, n)[k] == RingX(cfg, k)
    decreases n
  {
    if n > 0 {
      RingXsShape(cfg, n - 1);
    }
  }

  /** One more pass appends its two lines. */
  lemma RingsAtSnoc(cfg: Config, off: Offsets, xs: seq<real>, x: real)
    ensures RingsAt(cfg, off, xs + [x]) == RingsAt(cfg, off, xs) + RingLinesAt(cfg, off, x)
  {
    assert (xs + [x])[..|xs|] == xs;
  }

  /** What the scan loop has written after pass `k`. */
  lemma NextPass(cfg: Config, off: Offsets, base: seq<string>, k: nat, x: real)
    requires x == RingX(cfg, k)
    ensures base + RingsAt(cfg, off, RingXs(cfg, k)) + RingLinesAt(cfg, off, x)
      == base + RingsAt(cfg, off, RingXs(cfg, k + 1))
  {
    var xs := RingXs(cfg, k);
    assert RingXs(cfg, k + 1) == xs + [x];
    RingsAtSnoc(cfg, off, xs, x);
    AppendAssoc(base, RingsAt(cfg, off, xs), RingLinesAt(cfg, off, x));
  }

  /** Passes at `|xs|` positions write two lines each. */
  lemma {:induction false} RingsAtCount(cfg: Config, off: Offsets, xs: seq<real>)
    ensures |RingsAt(cfg, off, xs)| == 2 * |xs|
  {
    if xs != [] {
      RingsAtCount(cfg, off, xs[..|xs| - 1]);
      RingCount(cfg, off, xs[|xs| - 1]);
    }
  }

  /** `doWaferScan` raises ZeroDivisionError exactly when the droplet size is
      zero; otherwise it writes three centring moves, the lowering, the
      draw, two lines per circle and the final push. */
  lemma WaferScanCount(cfg: Config, off: Offsets, mL: real)
    ensures WaferScanSpec(cfg, off, mL).Err? <==> cfg.dropletSize == 0.0
    ensures WaferScanSpec(cfg, off, mL).Err? ==> WaferScanSpec(cfg, off, mL).error == ZeroDivisionError
    ensures cfg.dropletSize != 0.0 ==>
      |WaferScanSpec(cfg, off, mL).value| == 6 + (if MaxRotations(cfg) <= 0 then 0 else 2 * MaxRotations(cfg))
  {
    if cfg.dropletSize != 0.0 {
      CenterHeadCount(cfg, off);
      TravelOneLine(cfg, off, [(Z, cfg.tipHeight)], "");
      ExtrudeOneLine(cfg, off, [(E, mL), (F, cfg.extrusionMotorFeedrate)]);
      ExtrudeOneLine(cfg, off, [(E, -1.0 * mL), (F, cfg.extrusionMotorFeedrate)]);
      RingXsShape(cfg, MaxRotations(cfg));
      RingsAtCount(cfg, off, RingXs(cfg, MaxRotations(cfg)));
    }
  }

  /** With a positive droplet size every circle the loop draws lies inside
      the scanned band: no larger than the outermost radius, at least one
      droplet wide, and each one droplet inside the one before. */
  lemma RingRadii(cfg: Config, k: int)
    requires cfg.dropletSize > 0.0 && 0 <= k < MaxRotations(cfg)
    ensures cfg.dropletSize <= RingOffset(cfg, k) <= MaxRadius(cfg)
    ensures RingOffset(cfg, k + 1) == RingOffset(cfg, k) - cfg.dropletSize
  {
    var d := cfg.dropletSize;
    var r := MaxRadius(cfg);
    assert (k + 1) as real <= r / d;
    FloorBound(r, d, (k + 1) as real);
    assert k as real * d >= 0.0;
  }

  /** `q <= r / d` with `d > 0` means `q * d <= r`. */
  lemma FloorBound(r: real, d: real, q: real)
    requires d > 0.0 && q <= r / d
    ensures q * d <= r
  {
    assert q * d <= (r / d) * d;
  }

  /** With the declared constants the scan draws four circles, of radius
      45.8, 35.8, 25.8 and 15.8 mm. */
  lemma DefaultScan()
    ensures MaxRadius(DefaultConfig) == 45.8
    ensures MaxRotations(DefaultConfig) == 4
    ensures RingOffset(DefaultConfig, 0) == 45.8 && RingOffset(DefaultConfig, 1) == 35.8
    ensures RingOffset(DefaultConfig, 2) == 25.8 && RingOffset(DefaultConfig, 3) == 15.8
  {
    assert 45.8 / 10.0 == 4.58;
  }

  /** The circle drawn with the needle at `x` is centred on the bed centre:
      its `I` is the distance back to the centre and its `J` is zero. */
  lemma RingArc(cfg: Config, off: Offsets, x: real, i: real)
    requires i == cfg.xMax / 2.0 - x
    ensures RingCircle(cfg, off, x) == CircleAt(off, i, 0.0)
  {
    assert cfg.yMax / 2.0 - cfg.yMax / 2.0 == 0.0;
  }

  // ----- The scanner --------------------------------------------------------

  class VPDScanner {
    /** The printer whose command list the routines extend. */
    const printer: MarlinPrinter
    /** Syringe volume and the plunger travel it spans. */
    const mL: real
    const mm: real

    constructor (filename: string, cfg: Config, mL: real := 0.5, mm: real := 60.0)
      ensures fresh(printer)
      ensures printer.filename == filename && printer.cfg == cfg
      ensures printer.offsets == Offsets(0.0, 0.0, 0.0) && printer.commands == []
      ensures this.mL == mL && this.mm == mm
    {
      printer := new MarlinPrinter(filename, cfg);
      this.mL := mL;
      this.mm := mm;
    }

    /** `startGCode`; fails with ZeroDivisionError, after the header, when
        the syringe dimensions give no feed rate. */
    method StartGCode() returns (out: Outcome)
      modifies printer
      ensures out == OutcomeOf(GetEFeedRate(mL, mm))
      ensures printer.commands == old(printer.commands) + StartLines(printer.cfg, printer.offsets, mL, mm)
    {
      printer.commands := printer.commands + ["; BEGIN START GCODE"];
      printer.commands := printer.commands + ["G21 ; set units to millimeters"];
      printer.commands := printer.commands + ["M82 ;absolute extrusion mode"];
      printer.commands := printer.commands + ["M302 S0; always allow extrusion (disable checking)"];
      printer.commands := printer.commands + ["G92 E0 ; Reset Extruder"];
      printer.HomeAxes();
      printer.AbsPos();
      printer.commands := printer.commands + ["G92 E0 X0 Y0 Z0; Set home position"];
      ghost var c0 := printer.commands;
      assert c0 == old(printer.commands) + StartHeader;
      var eSteps := GetEFeedRate(mL, mm);
      if eSteps.Err? {
        return Fail(eSteps.error);
      }
      ghost var a := Emitted(SetStepsPerUnitSpec(printer.offsets, [(E, eSteps.value)]));
      ghost var b := Travel(printer.cfg, printer.offsets, [(Z, 2.0)], "Move up to prevent scratching.");
      var o1 := printer.SetStepsPerUnit([(E, eSteps.value)]);
      var o2 := printer.NonExtrudeMove([(Z, 2.0)], "Move up to prevent scratching.");
      printer.commands := printer.commands + [StartFooter];
      assert printer.commands == c0 + a + b + [StartFooter];
      AppendAssoc(c0, a + b, [StartFooter]);
      AppendAssoc(c0, a, b);
      assert printer.commands == c0 + StartTail(printer.cfg, printer.offsets, eSteps.value);
      AppendAssoc(old(printer.commands), StartHeader, StartTail(printer.cfg, printer.offsets, eSteps.value));
      out := Pass;
    }

    /** `collectSample`: draws `volume` into the needle. */
    method CollectSample(volume: real)
      modifies printer
      ensures printer.commands == old(printer.commands) + ExtrudeAll(printer.cfg, printer.offsets, CollectMoves(printer.cfg, volume))
    {
      ghost var ms := CollectMoves(printer.cfg, volume);
      ghost var a := Extrude(printer.cfg, printer.offsets, ms[0]);
      ghost var b := Extrude(printer.cfg, printer.offsets, ms[1]);
      ghost var c := Extrude(printer.cfg, printer.offsets, ms[2]);
      var o1 := printer.ExtrudeMove([(E, -volume / 2.0), (F, printer.cfg.extrusionMotorFeedrate)]);
      var o2 := printer.ExtrudeMove([(E, volume / 2.0), (F, printer.cfg.extrusionMotorFeedrate)]);
      var o3 := printer.ExtrudeMove([(E, -volume), (F, printer.cfg.extrusionMotorFeedrate)]);
      assert printer.commands == old(printer.commands) + a + b + c;
      ExtrudeAllThree(printer.cfg, printer.offsets, ms[0], ms[1], ms[2]);
      assert ms == [ms[0], ms[1], ms[2]];
      AppendAssoc(old(printer.commands), a + b, c);
      AppendAssoc(old(printer.commands), a, b);
    }

    /** `dispenseSample`: pushes `volume` out of the needle. */
    method DispenseSample(volume: real)
      modifies printer
      ensures printer.commands == old(printer.commands) + ExtrudeAll(printer.cfg, printer.offsets, DispenseMoves(printer.cfg, volume))
    {
      ghost var ms := DispenseMoves(printer.cfg, volume);
      ghost var a := Extrude(printer.cfg, printer.offsets, ms[0]);
      ghost var b := Extrude(printer.cfg, printer.offsets, ms[1]);
      ghost var c := Extrude(printer.cfg, printer.offsets, ms[2]);
      var o1 := printer.ExtrudeMove([(E, volume), (F, printer.cfg.extrusionMotorFeedrate)]);
      var o2 := printer.ExtrudeMove([(E, -volume / 2.0), (F, printer.cfg.extrusionMotorFeedrate)]);
      var o3 := printer.ExtrudeMove([(E, volume / 2.0), (F, printer.cfg.extrusionMotorFeedrate)]);
      assert printer.commands == old(printer.commands) + a + b + c;
      ExtrudeAllThree(printer.cfg, printer.offsets, ms[0], ms[1], ms[2]);
      assert ms == [ms[0], ms[1], ms[2]];
      AppendAssoc(old(printer.commands), a + b, c);
      AppendAssoc(old(printer.commands), a, b);
    }

    /** `useCuevette`: dispense into, or collect from, the cuvette. */
    method UseCuevette(dispense: bool)
      modifies printer
      ensures printer.commands == old(printer.commands) + CuevetteLines(printer.cfg, printer.offsets, mL, dispense)
    {
      ghost var a := Travel(printer.cfg, printer.offsets, [(Z, printer.cfg.travelHeight)], "");
      ghost var b := Travel(printer.cfg, printer.offsets, [(X, printer.cfg.cuevetteX), (Y, printer.cfg.cuevetteLipY)], "");
      ghost var c := Travel(printer.cfg, printer.offsets, [(Z, printer.cfg.cuevetteZ)], "");
      ghost var d := ExtrudeAll(printer.cfg, printer.offsets,
        if dispense then DispenseMoves(printer.cfg, mL) else CollectMoves(printer.cfg, mL));
      var o1 := printer.NonExtrudeMove([(Z, printer.cfg.travelHeight)]);
      var o2 := printer.NonExtrudeMove([(X, printer.cfg.cuevetteX), (Y, printer.cfg.cuevetteLipY)]);
      var o3 := printer.NonExtrudeMove([(Z, printer.cfg.cuevetteZ)]);
      if dispense {
        DispenseSample(mL);
      } else {
        CollectSample(mL);
      }
      var o4 := printer.NonExtrudeMove([(Z, printer.cfg.travelHeight)]);
      assert printer.commands == old(printer.commands) + a + b + c + d + a;
      AppendAssoc(old(printer.commands), a + b + c + d, a);
      AppendAssoc(old(printer.commands), a + b + c, d);
      AppendAssoc(old(printer.commands), a + b, c);
      AppendAssoc(old(printer.commands), a, b);
    }

    /** `centerHead`. */
    method CenterHead()
      modifies printer
      ensures printer.commands == old(printer.commands) + CenterHeadLines(printer.cfg, printer.offsets)
    {
      ghost var a := Travel(printer.cfg, printer.offsets, [(Z, 3.0)], "BEGIN CENTER HEAD");
      ghost var b := Travel(printer.cfg, printer.offsets, BedCentre(printer.cfg), "");
      ghost var c := Travel(printer.cfg, printer.offsets, [(Z, 1.0)], "END CENTER HEAD");
      var o1 := printer.NonExtrudeMove([(Z, 3.0)], "BEGIN CENTER HEAD");
      var o2 := printer.NonExtrudeMove(BedCentre(printer.cfg));
      var o3 := printer.NonExtrudeMove([(Z, 1.0)], "END CENTER HEAD");
      assert printer.commands == old(printer.commands) + a + b + c;
      AppendAssoc(old(printer.commands), a + b, c);
      AppendAssoc(old(printer.commands), a, b);
    }

    /** `doWaferScan`: centre over the wafer, lower, draw up the droplet,
        sweep it round concentric circles from the outermost inwards, and
        push it back out. */
    method DoWaferScan() returns (out: Outcome)
      modifies printer
      ensures out == OutcomeOf(WaferScanSpec(printer.cfg, printer.offsets, mL))
      ensures printer.commands == old(printer.commands) + Emitted(WaferScanSpec(printer.cfg, printer.offsets, mL))
    {
      if printer.cfg.dropletSize == 0.0 {
        return Fail(ZeroDivisionError);
      }
      var maxRadius := printer.cfg.waferDiam / 2.0 - printer.cfg.edgeGap;
      var maxRotations := (maxRadius / printer.cfg.dropletSize).Floor;
      MaxRotationsIs(printer.cfg, maxRadius, maxRotations);
      ghost var c0 := printer.commands;
      ScanStart();
      ghost var prologue := printer.commands;
      ScanRings(maxRadius, maxRotations);
      ghost var rings := RingsAt(printer.cfg, printer.offsets, RingXs(printer.cfg, maxRotations));
      assert printer.commands == prologue + rings;
      ghost var push := Extrude(printer.cfg, printer.offsets, [(E, -1.0 * mL), (F, printer.cfg.extrusionMotorFeedrate)]);
      var o5 := printer.ExtrudeMove([(E, -1.0 * mL), (F, printer.cfg.extrusionMotorFeedrate)]);
      assert printer.commands == prologue + rings + push;
      AppendAssoc(c0, ScanPrologue(printer.cfg, printer.offsets, mL), rings);
      AppendAssoc(c0, ScanPrologue(printer.cfg, printer.offsets, mL) + rings, push);
      assert WaferScanSpec(printer.cfg, printer.offsets, mL)
        == Ok(ScanPrologue(printer.cfg, printer.offsets, mL) + rings + push);
      out := Pass;
    }

    /** The moves of `doWaferScan` before its loop. */
    method ScanStart()
      modifies printer
      ensures printer.commands == old(printer.commands) + ScanPrologue(printer.cfg, printer.offsets, mL)
    {
      ghost var ch := CenterHeadLines(printer.cfg, printer.offsets);
      ghost var tip := Travel(printer.cfg, printer.offsets, [(Z, printer.cfg.tipHeight)], "");
      ghost var draw := Extrude(printer.cfg, printer.offsets, [(E, mL), (F, printer.cfg.extrusionMotorFeedrate)]);
      CenterHead();
      var o1 := printer.NonExtrudeMove([(Z, printer.cfg.tipHeight)]);
      var o2 := printer.ExtrudeMove([(E, mL), (F, printer.cfg.extrusionMotorFeedrate)]);
      assert printer.commands == old(printer.commands) + ch + tip + draw;
      AppendAssoc(old(printer.commands), ch + tip, draw);
      AppendAssoc(old(printer.commands), ch, tip);
    }

    /** The loop of `doWaferScan`: one pass per circle, outermost first. */
    method ScanRings(maxRadius: real, maxRotations: int)
      requires maxRadius == MaxRadius(printer.cfg)
      modifies printer
      ensures printer.commands == old(printer.commands) + RingsAt(printer.cfg, printer.offsets, RingXs(printer.cfg, maxRotations))
    {
      var rotationCount := 0;
      while rotationCount < maxRotations
        invariant 0 <= rotationCount
        invariant rotationCount <= if maxRotations < 0 then 0 else maxRotations
        invariant Scanned(old(printer.commands), rotationCount)
        decreases maxRotations - rotationCount
      {
        NextScanPass(maxRadius, rotationCount, old(printer.commands));
        rotationCount := rotationCount + 1;
      }
      RingXsStop(printer.cfg, maxRotations, rotationCount);
    }

    /** The command list holds `base` followed by the first `k` passes. */
    ghost predicate Scanned(base: seq<string>, k: int)
      reads printer
    {
      printer.commands == base + RingsAt(printer.cfg, printer.offsets, RingXs(printer.cfg, k))
    }

    /** A pass of the loop extends what the earlier passes wrote. */
    method NextScanPass(maxRadius: real, rotationCount: nat, ghost base: seq<string>)
      requires maxRadius == MaxRadius(printer.cfg)
      requires Scanned(base, rotationCount)
      modifies printer
      ensures Scanned(base, rotationCount + 1)
    {
      var x := ScanPass(maxRadius, rotationCount);
      NextPass(printer.cfg, printer.offsets, base, rotationCount, x);
    }

    /** One pass of the loop in `doWaferScan`: out to the circle's radius,
        then round the circle; `x` is where the needle went. */
    method ScanPass(maxRadius: real, rotationCount: nat) returns (x: real)
      requires maxRadius == MaxRadius(printer.cfg)
      modifies printer
      ensures x == RingX(printer.cfg, rotationCount)
      ensures printer.commands == old(printer.commands) + RingLinesAt(printer.cfg, printer.offsets, x)
    {
      var currentOffset := maxRadius - rotationCount as real * printer.cfg.dropletSize;
      RingOffsetIs(printer.cfg, maxRadius, rotationCount, currentOffset);
      x := printer.cfg.xMax / 2.0 + currentOffset;
      var rel := CalcRelPos(x, printer.cfg.yMax / 2.0, printer.cfg.xMax / 2.0, printer.cfg.yMax / 2.0);
      ghost var mv := RingMove(printer.cfg, printer.offsets, x);
      ghost var arc := RingCircle(printer.cfg, printer.offsets, x);
      MoveOut(x);
      Circle(rel.0, rel.1);
      assert rel.0 == printer.cfg.xMax / 2.0 - x && rel.1 == printer.cfg.yMax / 2.0 - printer.cfg.yMax / 2.0;
      AppendAssoc(old(printer.commands), mv, arc);
    }

    method MoveOut(x: real)
      modifies printer
      ensures printer.commands == old(printer.commands) + RingMove(printer.cfg, printer.offsets, x)
    {
      var o := printer.NonExtrudeMove([(X, x), (F, printer.cfg.scanningMoveFeedrate)], "Move needle in.");
    }

    method Circle(i: real, j: real)
      modifies printer
      ensures printer.commands == old(printer.commands) + CircleAt(printer.offsets, i, j)
    {
      var o := printer.DoCircle([(X, i), (Y, j)]);
    }

    /** `endGCode`. */
    method EndGCode()
      modifies printer
      ensures printer.commands == old(printer.commands) + EndLines(printer.cfg, printer.offsets)
    {
      ghost var b := Travel(printer.cfg, printer.offsets, [(Z, 10.0)], "Raize Z.");
      ghost var d := Travel(printer.cfg, printer.offsets, [(X, 0.0), (Y, printer.cfg.yMax)], "Present print.");
      printer.RelativePos();
      var o1 := printer.NonExtrudeMove([(Z, 10.0)], "Raize Z.");
      printer.AbsPos();
      var o2 := printer.NonExtrudeMove([(X, 0.0), (Y, printer.cfg.yMax)], "Present print.");
      assert printer.commands == old(printer.commands) + [RelativePosLine] + b + [AbsPosLine] + d;
      AppendAssoc(old(printer.commands), [RelativePosLine] + b + [AbsPosLine], d);
      AppendAssoc(old(printer.commands), [RelativePosLine] + b, [AbsPosLine]);
      AppendAssoc(old(printer.commands), [RelativePosLine], b);
    }
  }
}
