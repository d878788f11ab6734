/** OLD/custom_commands.py: the earlier list-threading emitters for a wafer
    scan.  Each routine appends to the list its caller passes in and returns
    that list.  Their calls to `nonExtrudeMove` and `doCircle` do not bind to
    the helpers of nativeGCodeCommands.py (a positional feed rate lands on
    `X`, a second `X=` is a duplicate argument, and no free function
    `doCircle` is imported),
    so those calls are recorded as the moves they were meant to request. */
module OldCustomCommands {
  import opened Outcomes
  import opened PyText

  // Ender 3 bed limits.
  const X_MAX: nat := 220
  const Y_MAX: nat := 220
  const Z_MAX: nat := 250

  // Process values, in mm and mm/min.
  const TRAVEL_FEEDRATE: int := 5000
  const E_FEEDRATE: int := 1500
  const DISPENSE_FEEDRATE: int := 1000
  const DROPLET_SIZE: nat := 1
  const TIP_HEIGHT: nat := 3
  const TRAVEL_HEIGHT: nat := 40

  const CUEVETTE_X: nat := 200
  const CUEVETTE_LIP_Y: nat := 25
  const CUEVETTE_BOTTOM_HEIGHT: nat := 10

  // A 4-inch wafer, scanned up to 5 mm from its edge.
  const WAFER_DIAM: real := 101.6
  const EDGE_LENGTH: nat := 5

  /** One entry of the command list: a literal line, a requested straight
      move at a feed rate to the named axes, or a requested full circle
      around the centre at relative offset (i, j). */
  datatype Event =
    | Line(text: string)
    | Travel(feedrate: int, x: Option<real>, y: Option<real>, z: Option<real>)
    | Circle(i: real, j: real)

  /** The Python list the routines thread through. */
  class EventList {
    var events: seq<Event>

    constructor ()
      ensures events == []
    {
      events := [];
    }
  }

  /** `calcRelPos`: the vector from the absolute position to the point. */
  function CalcRelPos(xAbs: real, yAbs: real, xPoint: real, yPoint: real): (r: (real, real))
    ensures xAbs + r.0 == xPoint && yAbs + r.1 == yPoint
  {
    (xPoint - xAbs, yPoint - yAbs)
  }

  /** Swapping the two points reverses the vector. */
  lemma CalcRelPosReverse(xAbs: real, yAbs: real, xPoint: real, yPoint: real)
    ensures CalcRelPos(xPoint, yPoint, xAbs, yAbs).0 == -CalcRelPos(xAbs, yAbs, xPoint, yPoint).0
    ensures CalcRelPos(xPoint, yPoint, xAbs, yAbs).1 == -CalcRelPos(xAbs, yAbs, xPoint, yPoint).1
  {
    var r := CalcRelPos(xAbs, yAbs, xPoint, yPoint);
    var q := CalcRelPos(xPoint, yPoint, xAbs, yAbs);
    assert xAbs + r.0 == xPoint && xPoint + q.0 == xAbs;
    assert yAbs + r.1 == yPoint && yPoint + q.1 == yAbs;
  }

  /** The vector is zero exactly when the two points coincide. */
  lemma CalcRelPosZero(xAbs: real, yAbs: real, xPoint: real, yPoint: real)
    ensures CalcRelPos(xAbs, yAbs, xPoint, yPoint) == (0.0, 0.0) <==> xAbs == xPoint && yAbs == yPoint
  {
    var r := CalcRelPos(xAbs, yAbs, xPoint, yPoint);
    assert xAbs + r.0 == xPoint && yAbs + r.1 == yPoint;
  }

  /** The lines of `startGCode`, from its opening to its closing marker:
      units, extrusion mode, homing, then the extruder's maximum feed rate
      and a lift. */
  const StartEvents: seq<Event> := StartSetup + StartFeedAndLift

  const StartSetup: seq<Event> := [
    Line("; BEGIN START GCODE"),
    Line("G21 ; set units to millimeters"),
    Line("M82 ;absolute extrusion mode"),
    Line("M302 S0; always allow extrusion (disable checking)"),
    Line("G92 E0 ; Reset Extruder"),
    Line("G28 ; Home all axes")]

  const StartFeedAndLift: seq<Event> := [
    Line("G90; Absolute positioning"),
    Line("G92 E0 X0 Y0 Z0; Set home position"),
    Line("M203 E" + IntToString(E_FEEDRATE)),
    Line("G1 Z2.0; Move up to prevent scratching"),
    Line("; END START GCODE")]

  /** The lines of `endGCode`: raise Z relatively, back to absolute, and
      present the wafer at the far Y edge. */
  const EndEvents: seq<Event> := [
    Line("G91 ;Relative positioning"),
    Line("G1 Z10 ; Raise Z"),
    Line("G90 ;Absolute positioning"),
    Line("G1 X0 Y" + IntToString(Y_MAX) + " ;Present print")]

  /** The bed centre, `X_MAX/2` and `Y_MAX/2` as floats. */
  function HalfX(): real { X_MAX as real / 2.0 }
  function HalfY(): real { Y_MAX as real / 2.0 }

  /** `centerHead`: up to Z 3, over the bed centre, down to Z 1, between
      two markers. */
  function CenterEvents(): seq<Event>
  {
    [Line("; BEGIN CENTER HEAD"),
     Travel(TRAVEL_FEEDRATE, None, None, Some(3.0)),
     Travel(TRAVEL_FEEDRATE, Some(HalfX()), Some(HalfY()), None),
     Travel(TRAVEL_FEEDRATE, None, None, Some(1.0)),
     Line("; END CENTER HEAD")]
  }

  /** `depositSample`: up to the travel height, over the cuevette lip, down
      to the cuevette bottom, then the same X/Y once more. */
  function DepositEvents(): seq<Event>
  {
    [Travel(TRAVEL_FEEDRATE, None, None, Some(TRAVEL_HEIGHT as real)),
     Travel(TRAVEL_FEEDRATE, Some(CUEVETTE_X as real), Some((CUEVETTE_LIP_Y + 3) as real), None),
     Travel(TRAVEL_FEEDRATE, None, None, Some(CUEVETTE_BOTTOM_HEIGHT as real)),
     Travel(TRAVEL_FEEDRATE, Some(CUEVETTE_X as real), Some((CUEVETTE_LIP_Y + 3) as real), None)]
  }

  /** `max_radius`: the wafer radius less the edge margin. */
  function MaxRadius(): real { WAFER_DIAM / 2.0 - EDGE_LENGTH as real }

  /** `max_rotations`: how many droplet widths fit in the scanned radius. */
  function MaxRotations(): int { (MaxRadius() / DROPLET_SIZE as real).Floor }

  /** `current_offset` of rotation `k`. */
  function Offset(k: int): real { MaxRadius() - (k * DROPLET_SIZE) as real }

  /** The X the head moves out to before ring `k`. */
  function RingX(k: int): real { HalfX() + Offset(k) }

  /** What rotation `k` appends: the comment, the move out along X, and the
      circle around the bed centre. */
  function RingEvents(k: int): seq<Event>
  {
    var rel := CalcRelPos(RingX(k), HalfY(), HalfX(), HalfY());
    [Line(";Move the head in."), Travel(E_FEEDRATE, Some(RingX(k)), None, None), Circle(rel.0, rel.1)]
  }

  /** Rotations 0 to n-1, in order. */
  function RingsUpTo(n: nat): seq<Event>
  {
    if n == 0 then [] else RingsUpTo(n - 1) + RingEvents(n - 1)
  }

  /** What precedes the rings: the centring block and the drop to the tip
      height. */
  function ScanPrologue(): seq<Event>
  {
    CenterEvents() + [Travel(TRAVEL_FEEDRATE, None, None, Some(TIP_HEIGHT as real))]
  }

  /** `doWaferScan` in closed form. */
  function ScanEvents(): seq<Event>
  {
    ScanPrologue() + RingsUpTo(MaxRotations())
  }

  /** `startGCode(lst)`. */
  method StartGCode(lst: EventList) returns (r: EventList)
    modifies lst
    ensures r == lst && lst.events == old(lst.events) + StartEvents
  {
    ghost var s0 := lst.events;
    lst.events := lst.events + [Line("; BEGIN START GCODE")];
    lst.events := lst.events + [Line("G21 ; set units to millimeters")];
    lst.events := lst.events + [Line("M82 ;absolute extrusion mode")];
    lst.events := lst.events + [Line("M302 S0; always allow extrusion (disable checking)")];
    lst.events := lst.events + [Line("G92 E0 ; Reset Extruder")];
    lst.events := lst.events + [Line("G28 ; Home all axes")];
    ghost var s1 := lst.events;
    lst.events := lst.events + [Line("G90; Absolute positioning")];
    lst.events := lst.events + [Line("G92 E0 X0 Y0 Z0; Set home position")];
    lst.events := lst.events + [Line("M203 E" + IntToString(E_FEEDRATE))];
    lst.events := lst.events + [Line("G1 Z2.0; Move up to prevent scratching")];
    lst.events := lst.events + [Line("; END START GCODE")];
    assert lst.events == s1 + StartFeedAndLift;
    assert s1 == s0 + StartSetup;
    r := lst;
  }

  /** `centerHead(lst)`. */
  method CenterHead(lst: EventList) returns (r: EventList)
    modifies lst
    ensures r == lst && lst.events == old(lst.events) + CenterEvents()
  {
    lst.events := lst.events + [Line("; BEGIN CENTER HEAD")];
    lst.events := lst.events + [Travel(TRAVEL_FEEDRATE, None, None, Some(3.0))];
    lst.events := lst.events + [Travel(TRAVEL_FEEDRATE, Some(X_MAX as real / 2.0), Some(Y_MAX as real / 2.0), None)];
    lst.events := lst.events + [Travel(TRAVEL_FEEDRATE, None, None, Some(1.0))];
    lst.events := lst.events + [Line("; END CENTER HEAD")];
    r := lst;
  }

  /** `depositSample(lst)`. */
  method DepositSample(lst: EventList) returns (r: EventList)
    modifies lst
    ensures r == lst && lst.events == old(lst.events) + DepositEvents()
  {
    lst.events := lst.events + [Travel(TRAVEL_FEEDRATE, None, None, Some(TRAVEL_HEIGHT as real))];
    lst.events := lst.events + [Travel(TRAVEL_FEEDRATE, Some(CUEVETTE_X as real), Some((CUEVETTE_LIP_Y + 3) as real), None)];
    lst.events := lst.events + [Travel(TRAVEL_FEEDRATE, None, None, Some(CUEVETTE_BOTTOM_HEIGHT as real))];
    lst.events := lst.events + [Travel(TRAVEL_FEEDRATE, Some(CUEVETTE_X as real), Some((CUEVETTE_LIP_Y + 3) as real), None)];
    r := lst;
  }

  /** `doWaferScan(lst)`: centre, drop to the tip height, then one ring per
      droplet width from the outermost inwards. */
  method DoWaferScan(lst: EventList) returns (r: EventList)
    modifies lst
    ensures r == lst && lst.events == old(lst.events) + ScanEvents()
  {
    var rotationCount := 0;
    var maxRadius := WAFER_DIAM / 2.0 - EDGE_LENGTH as real;
    var maxRotations := (maxRadius / DROPLET_SIZE as real).Floor;
    var _ := CenterHead(lst);
    lst.events := lst.events + [Travel(TRAVEL_FEEDRATE, None, None, Some(TIP_HEIGHT as real))];
    ghost var base := lst.events;
    assert base == old(lst.events) + ScanPrologue();
    assert maxRotations == MaxRotations();
    while rotationCount < maxRotations
      invariant 0 <= rotationCount
      invariant rotationCount <= if maxRotations < 0 then 0 else maxRotations
      invariant lst.events == base + RingsUpTo(rotationCount)
    {
      var currentOffset := maxRadius - (rotationCount * DROPLET_SIZE) as real;
      Rotate(lst, rotationCount, currentOffset);
      RingStep(base, rotationCount, lst.events);
      rotationCount := rotationCount + 1;
    }
    ScanDone(old(lst.events), rotationCount, lst.events);
    r := lst;
  }

  /** One pass of the loop of `doWaferScan`: the comment, the move out to
      the ring's start, and the circle back round to it. */
  method Rotate(lst: EventList, ghost k: int, currentOffset: real)
    requires currentOffset == Offset(k)
    modifies lst
    ensures lst.events == old(lst.events) + RingEvents(k)
  {
    lst.events := lst.events + [Line(";Move the head in.")];
    lst.events := lst.events + [Travel(E_FEEDRATE, Some(X_MAX as real / 2.0 + currentOffset), None, None)];
    var rel := CalcRelPos(X_MAX as real / 2.0 + currentOffset, Y_MAX as real / 2.0, X_MAX as real / 2.0, Y_MAX as real / 2.0);
    lst.events := lst.events + [Circle(rel.0, rel.1)];
  }

  /** After the last rotation the list holds the whole scan. */
  lemma ScanDone(base: seq<Event>, k: nat, s: seq<Event>)
    requires k == MaxRotations()
    requires s == base + ScanPrologue() + RingsUpTo(k)
    ensures s == base + ScanEvents()
  {
  }

  /** Appending ring `k` after rings 0 to k-1 gives rings 0 to k. */
  lemma RingStep(base: seq<Event>, k: nat, s: seq<Event>)
    requires s == base + RingsUpTo(k) + RingEvents(k)
    ensures s == base + RingsUpTo(k + 1)
  {
  }

  /** `endGCode(lst)`. */
  method EndGCode(lst: EventList) returns (r: EventList)
    modifies lst
    ensures r == lst && lst.events == old(lst.events) + EndEvents
  {
    lst.events := lst.events + [Line("G91 ;Relative positioning")];
    lst.events := lst.events + [Line("G1 Z10 ; Raise Z")];
    lst.events := lst.events + [Line("G90 ;Absolute positioning")];
    lst.events := lst.events + [Line("G1 X0 Y" + IntToString(Y_MAX) + " ;Present print")];
    r := lst;
  }

  /** With the defaults the scanned radius is 45.8 mm, so 45 rings. */
  lemma MaxRotationsValue()
    ensures MaxRadius() == 45.8 && MaxRotations() == 45
  {
  }

  /** Every rotation appends three entries. */
  lemma {:induction false} RingsLength(n: nat)
    ensures |RingsUpTo(n)| == 3 * n
  {
    if n > 0 {
      RingsLength(n - 1);
    }
  }

  /** The circle of ring `k` is centred on the bed centre: it starts
      `Offset(k)` to the +X side, so its relative centre is (-Offset(k), 0). */
  lemma RingCircle(k: int)
    ensures RingEvents(k)[2] == Circle(-Offset(k), 0.0)
  {
  }

  /** Rotation `k` sits at entries 3k to 3k+2 of the rings: the comment,
      the move out to `RingX(k)` at the extruder feed rate, and the circle. */
  lemma {:induction false} RingAt(n: nat, k: nat, i: nat)
    requires k < n && i == 3 * k
    ensures |RingsUpTo(n)| == 3 * n
    ensures RingsUpTo(n)[i] == Line(";Move the head in.")
    ensures RingsUpTo(n)[i + 1] == Travel(E_FEEDRATE, Some(RingX(k)), None, None)
    ensures RingsUpTo(n)[i + 2] == Circle(-Offset(k), 0.0)
  {
    RingsLength(n);
    RingsLength(n - 1);
    RingCircle(n - 1);
    if k < n - 1 {
      RingAt(n - 1, k, i);
    }
  }

  /** Each rotation moves one droplet width further in. */
  lemma OffsetsDecrease(j: int, k: int)
    requires j < k
    ensures Offset(k) < Offset(j)
    ensures Offset(j) - Offset(k) == ((k - j) * DROPLET_SIZE) as real
  {
  }

  /** Every ring has a radius between one droplet width and the scanned
      radius, so the rings never reach the centre, and the head's start
      point stays on the bed. */
  lemma RingInRange(k: int)
    requires 0 <= k < MaxRotations()
    ensures DROPLET_SIZE as real <= Offset(k) <= MaxRadius()
    ensures HalfX() < RingX(k) <= X_MAX as real
  {
    MaxRotationsValue();
  }

  /** The whole scan: the five centring entries, the drop to the tip
      height, then three entries per ring. */
  lemma ScanLength()
    ensures |ScanEvents()| == 141
  {
    MaxRotationsValue();
    RingsLength(45);
  }

  /** Ring `k` of the scan is at entries 6+3k to 8+3k, after the centring
      block and the drop to the tip height. */
  lemma ScanRing(k: nat, i: nat)
    requires k < MaxRotations() && i == 6 + 3 * k
    ensures |ScanEvents()| == 6 + 3 * MaxRotations()
    ensures ScanEvents()[..6] == CenterEvents() + [Travel(TRAVEL_FEEDRATE, None, None, Some(TIP_HEIGHT as real))]
    ensures ScanEvents()[i] == Line(";Move the head in.")
    ensures ScanEvents()[i + 1] == Travel(E_FEEDRATE, Some(RingX(k)), None, None)
    ensures ScanEvents()[i + 2] == Circle(-Offset(k), 0.0)
  {
    var n := MaxRotations();
    RingAt(n, k, 3 * k);
  }

  /** `startGCode` writes eleven lines between its two markers; the
      extruder's maximum feed rate is written into the ninth. */
  lemma StartEventsFacts()
    ensures |StartEvents| == 11
    ensures StartEvents[0] == Line("; BEGIN START GCODE")
    ensures StartEvents[8] == Line("M203 E1500")
    ensures StartEvents[10] == Line("; END START GCODE")
    ensures forall e | e in StartEvents :: e.Line?
  {
    FeedRateDigits();
  }

  /** The four lines of `endGCode`, with `Y_MAX` written as 220. */
  lemma EndEventsAre()
    ensures EndEvents == [Line("G91 ;Relative positioning"), Line("G1 Z10 ; Raise Z"),
                          Line("G90 ;Absolute positioning"), Line("G1 X0 Y220 ;Present print")]
  {
    FeedRateDigits();
    assert "G1 X0 Y" + "220" + " ;Present print" == "G1 X0 Y220 ;Present print";
  }

  /** The two numbers these blocks write with `str()`. */
  lemma FeedRateDigits()
    ensures IntToString(E_FEEDRATE) == "1500" && IntToString(Y_MAX) == "220"
  {
    assert NatToString(1) == "1";
    assert NatToString(15) == NatToString(1) + "5";
    assert NatToString(150) == NatToString(15) + "0";
    assert NatToString(1500) == NatToString(150) + "0";
    assert NatToString(2) == "2";
    assert NatToString(22) == NatToString(2) + "2";
    assert NatToString(220) == NatToString(22) + "0";
  }

  /** `centerHead` opens and closes with its markers, requests only
      travel-speed moves between them, and ends over the bed centre at
      Z 1. */
  lemma CenterEventsFacts()
    ensures |CenterEvents()| == 5
    ensures CenterEvents()[0] == Line("; BEGIN CENTER HEAD") && CenterEvents()[4] == Line("; END CENTER HEAD")
    ensures forall i | 1 <= i <= 3 :: CenterEvents()[i].Travel? && CenterEvents()[i].feedrate == TRAVEL_FEEDRATE
    ensures CenterEvents()[2].x == Some(110.0) && CenterEvents()[2].y == Some(110.0)
    ensures CenterEvents()[3].z == Some(1.0)
  {
  }

  /** `depositSample` climbs to the travel height before crossing to the
      cuevette and descends to its bottom; its last request repeats the
      cuevette X/Y, so it leaves the head at the bottom height. */
  lemma DepositEventsFacts()
    ensures |DepositEvents()| == 4
    ensures DepositEvents()[0].z == Some(40.0) && DepositEvents()[0].x.None? && DepositEvents()[0].y.None?
    ensures DepositEvents()[1].x == Some(200.0) && DepositEvents()[1].y == Some(28.0) && DepositEvents()[1].z.None?
    ensures DepositEvents()[2].z == Some(10.0) && DepositEvents()[2].x.None?
    ensures DepositEvents()[3] == DepositEvents()[1]
  {
  }
}
