# VPD G-code generator, modelled in Dafny

This project models the core of a G-code generator for a modified 3D printer (an Ender 3). The printer carries a syringe and performs vapour-phase decomposition (VPD) scans of a silicon wafer. The program writes no G-code by hand. Its callers invoke routines that append G-code lines to a list, and the list is later written to a `.gcode` file.

The model covers four Python files:

- **gCodeClass.py**, modules `GCodeClass` and `Scanner`:
  - `marlinPrinter` is a class with an append-only `commands` list and three tool-tip offsets. Its move emitters pass every coordinate dict through a sanitize pipeline: find the dict, subtract or add the offsets, then write each value with four decimals.
  - `VPDScanner` builds its routines on those emitters: start-up, sample collection and dispensing, cuevette visits, head centring, a concentric-circle wafer scan, and shut-down.
- **nativeGCodeCommands.py**, module `NativeGCodeCommands`: the free-function layer.
  - `addDecimalPoint` normalises one number's text.
  - `nonExtrudeMove`, `extrudeInPlace`, `relativePos` and `absPos` append to the list their caller passes in, and return that same list.
- **custom_commands.py**, module `CustomCommands`: a start block and a head-centring routine. Both append to the module-global list `COMMANDS` through the free-function helpers.
- **OLD/custom_commands.py**, module `OldCustomCommands`: the earlier list-threading routines for start-up, centring, sample deposit, wafer scan and shut-down.
  - Several of its helper calls do not bind to the helpers shown in nativeGCodeCommands.py:
    - a positional feed rate lands on `X`;
    - a positional feed rate together with `X=` is a duplicate argument;
    - no free function `doCircle` exists in anything the file imports (the only `doCircle` is the method `marlinPrinter.doCircle` of gCodeClass.py, which the file does not use).
  - Lines written literally are recorded as text. Those helper calls are recorded as the moves they request (`Travel`, `Circle`).

Two support modules serve all four:

- `Outcomes` holds the Python exceptions, `Option`, `Result` and the pass/fail outcome of an emitter.
- `PyText` holds the parts of Python's text behaviour the code relies on:
  - `str()` of an int;
  - `f"{v:.4f}"`, as round-half-up to four decimals;
  - `str.strip()` over ASCII whitespace;
  - substring search.

State that the source changes in place is modelled as classes:

- `MarlinPrinter.commands` and `VPDScanner.printer`;
- the caller's list `CommandList.lines` in the free-function layer;
- `Globals.commands` for `COMMANDS`;
- `EventList.events` in the old routines.

Each method's `ensures` ties the new state to the old state plus a specification function. The lemmas prove what the source promises about those functions.

Reading notes:

- **Offsets on relative values.** `doCircle` passes its relative I/J values through the offset subtraction too (gCodeClass.py:143, 66-69). This is modelled as written (`DoCircleArc`). `VPDScanner` builds its printer without offsets (gCodeClass.py:268), so its circles are unaffected (`DoCircleArcNoOffset`).
- **Unit tests of `addDecimalPoint`.** Two expectations differ in type from what the code returns but compare equal to it in Python: a tuple `(1.4, 2)` is expected as `(1.4, 2.0)`, and `[None, 1]` as `[None, 1.0]`. The code returns the first argument unchanged for any non-number, which is what the model and `AddDecimalPointTests` state.
- **`calcRelPos` twice.** gCodeClass.py:324-330 and OLD/custom_commands.py:94-100 each define it, with the same body. The two modules keep their own copy (`Scanner.CalcRelPos`, `OldCustomCommands.CalcRelPos`), because the source files do not depend on each other.
- **`depositSample` ends low.** Its last move (OLD/custom_commands.py:115) repeats the cuevette X/Y rather than raising Z, so the head stays at the cuevette bottom height. `DepositEventsFacts` states this as written.

## Model

| member | source | states |
|---|---|---|
| PyText.NatToString | gCodeClass.py:45 | `str()` of a natural number is a non-empty digit string with no leading zero |
| PyText.ParseNatToString | gCodeClass.py:45 | reading the digits of `str(n)` back gives `n` |
| PyText.Pad4 | gCodeClass.py:89 | the fractional part is exactly four digits |
| PyText.ParsePad4 | gCodeClass.py:89 | reading the four padded digits back gives the number |
| PyText.Round4Nearest | gCodeClass.py:88-89 | the four-decimal rounding is within half a unit of the tenth-thousandths of the value |
| PyText.Round4Exact | gCodeClass.py:88-89 | a value with at most four decimals is rendered exactly |
| PyText.Render4Meaning | gCodeClass.py:89 | the rendering is an optional '-', digits, '.', four digits; it denotes the rounded value; the sign is shown exactly for negatives |
| PyText.Fixed4Plain | gCodeClass.py:89 | a digit string, '.', four digits is a four-decimal text with that value |
| PyText.Fixed4Negative | gCodeClass.py:89 | the same text with a leading '-' denotes the negated value |
| PyText.Render4Parts | gCodeClass.py:89 | the rendering is sign, whole part, '.', and the zero-padded fraction |
| PyText.Fmt4 | gCodeClass.py:88-89 | `f"{v:.4f}"` is a four-decimal text whose value is `v` rounded and whose sign matches |
| PyText.Fmt4Of | gCodeClass.py:88-89 | for an exactly representable value, the text is its whole part, '.', and its padded fraction |
| PyText.NegateFixed4 | gCodeClass.py:186-190 | adding a '-' to a non-negative text or dropping it from a negative one negates the value |
| PyText.Fmt4Idempotent | gCodeClass.py:88-89 | formatting the value of a formatted text again gives the same text |
| PyText.Fixed4Chars | gCodeClass.py:89 | a four-decimal text contains only digits, '.' and '-' |
| PyText.TrimLeftShape | gCodeClass.py:140 | left trimming drops exactly a whitespace prefix and stops at a non-space |
| PyText.TrimRightShape | gCodeClass.py:140 | right trimming drops exactly a whitespace suffix and stops at a non-space |
| PyText.StripUnchanged | gCodeClass.py:140 | `strip()` leaves a text that starts and ends with non-spaces unchanged |
| PyText.TrimRightAppend | gCodeClass.py:140 | trimming after a non-space end trims only the appended part |
| PyText.StripAfter | gCodeClass.py:138-140 | stripping a move, separator and comment trims only the comment's right end |
| PyText.StripTail | gCodeClass.py:138-140 | stripping a move plus a tail trims only the tail's right end |
| GCodeClass.IndexOf | gCodeClass.py:179-195 | the position of a key is the first with that key, and -1 exactly when the key is absent |
| GCodeClass.Get | gCodeClass.py:179-195 | a dict lookup finds a value exactly when the key is present |
| GCodeClass.OffsetRoundTrip | gCodeClass.py:57-73 | applying the offsets and then removing them (or the other way round) gives the dict back |
| GCodeClass.AdjustForOffset | gCodeClass.py:57-73 | the loop keeps every key and the order; X becomes X−xOffset, Y becomes Y−yOffset, Z becomes Z+zOffset; E and F are unchanged |
| GCodeClass.LimitDecimalPlaces | gCodeClass.py:76-90 | the loop keeps the keys; every value becomes a four-decimal text of its rounded value |
| GCodeClass.Sanitize | gCodeClass.py:93-118 | the pipeline fails with ValueError("coords argument not found!") exactly when no X/Y/Z/E key is present (an F-only dict is rejected); otherwise every value is four-decimal text |
| GCodeClass.SanitizeMeaning | gCodeClass.py:111-113 | a sanitized dict keeps the keys in order, and each value is the offset value rounded to four decimals |
| GCodeClass.SanitizeCoords | gCodeClass.py:93-118 | the method computes the pipeline's result or its error |
| GCodeClass.GetSanitized | gCodeClass.py:111-113 | after sanitizing, a key is present exactly when it was before, with value `Fmt4` of the offset value |
| GCodeClass.LimitDecimalPlacesExample | gCodeClass.py:82-83 | the doctest: 5.0001, 100.1 and 10.0 become '5.0001', '100.1000' and '10.0000' |
| GCodeClass.Fmt4Example1 | gCodeClass.py:80-81 | 5.0001 is written '5.0001' |
| GCodeClass.Fmt4Example2 | gCodeClass.py:82-83 | 100.1 is written '100.1000' |
| GCodeClass.Fmt4Example3 | gCodeClass.py:84-85 | 10.0 is written '10.0000' |
| GCodeClass.TokensPrefix | gCodeClass.py:130-133 | the token loop only appends to `G0` |
| GCodeClass.SanitizedNoFValue | gCodeClass.py:87-89 | no sanitized value contains the letter F |
| GCodeClass.TokensHasF | gCodeClass.py:134-135 | the `'F' not in move` test succeeds exactly when the dict has no F key |
| GCodeClass.G0TextShape | gCodeClass.py:130-135 | the move starts with 'G' and ends with a digit, so `strip()` keeps it whole |
| GCodeClass.G0LinesOne | gCodeClass.py:130-140 | one line: `G0`, the tokens in dict order, ` F{TRAVEL_FEEDRATE}` raw when F is absent, and ` ;comment` when a comment is given |
| GCodeClass.NonExtrudeMoveLine | gCodeClass.py:123-140 | a sanitizable dict gives exactly that one line |
| GCodeClass.ArcTokensPrefix | gCodeClass.py:156-162 | the arc token loop only appends to `G2` |
| GCodeClass.ArcTokensGrow | gCodeClass.py:156-162 | the arc move grows exactly when X or Y is present |
| GCodeClass.DoCircleOutcome | gCodeClass.py:143-167 | no move axis gives the ValueError; three or more keys give the Exception; otherwise at most one line, and none exactly when neither X nor Y is present |
| GCodeClass.DoCircleArc | gCodeClass.py:143-167 | {X: i, Y: j} gives `G2 I{i−xOffset} J{j−yOffset}` in four decimals: the offsets reach the relative values |
| GCodeClass.SanitizePair | gCodeClass.py:111-113 | sanitizing an X/Y pair gives the two offset values in four decimals |
| GCodeClass.FormatOffsetPair | gCodeClass.py:111-113 | offsetting and then formatting an X/Y pair gives the same two texts |
| GCodeClass.ArcPair | gCodeClass.py:156-167 | a sanitized X/Y pair gives the single line `G2 I… J…` |
| GCodeClass.DoCircleExample | gCodeClass.py:149-150 | the doctest: {X: 20, Y: 20} gives 'G2 I20.0000 J20.0000' |
| GCodeClass.DoCircleArcNoOffset | gCodeClass.py:143-167 | with zero offsets the arc carries its I/J unchanged |
| GCodeClass.Fmt4Example4 | gCodeClass.py:150 | 20.0 is written '20.0000' |
| GCodeClass.AddKeyShape | gCodeClass.py:179-184 | adding an axis token only appends, and ends in a digit when the key is present |
| GCodeClass.AddEShape | gCodeClass.py:185-193 | adding the E token only appends, and ends in a digit when E is present |
| GCodeClass.ReversedE | gCodeClass.py:185-193 | with `reverseEDir` the E text denotes the negated value, with a '-' exactly when E ≥ 0 (0 included); without it E is copied |
| GCodeClass.G1TextShape | gCodeClass.py:177-195 | a `G1` move with some X/Y/Z/E key starts with 'G' and ends in a digit, so `strip()` keeps it whole |
| GCodeClass.G1LinesOne | gCodeClass.py:197-199 | such a move gives exactly one line, with ` ; comment` right-trimmed when given |
| GCodeClass.MoveLine | gCodeClass.py:197-199 | the final `strip()` and comment step keeps the move whole and trims only the comment |
| GCodeClass.ExtrudeMoveLine | gCodeClass.py:170-199 | a sanitizable dict gives one line of X, Y, Z, E, F tokens in that fixed order |
| GCodeClass.SanitizedLookup | gCodeClass.py:111-113 | equal lookups before sanitizing stay equal after it |
| GCodeClass.FixedOrderLookups | gCodeClass.py:179-214 | the `G1` and `M92` texts depend only on the lookups of their keys |
| GCodeClass.ExtrudeMoveOrderFree | gCodeClass.py:176-195 | two dicts with the same X/Y/Z/E/F values in any insertion order give the same result |
| GCodeClass.SetStepsPerUnitLine | gCodeClass.py:202-218 | a sanitizable dict gives one `M92` line ending in " ; Set steps per unit." |
| GCodeClass.M92TextShape | gCodeClass.py:205-214 | the `M92` move starts with 'M' and ends in a digit |
| GCodeClass.M92Line | gCodeClass.py:216-218 | the `strip()` of the move and its comment is the plain concatenation |
| GCodeClass.SetStepsPerUnitE | gCodeClass.py:202-218 | {E: e} gives exactly "M92 E{e:.4f} ; Set steps per unit." |
| GCodeClass.M92TextE | gCodeClass.py:213-214 | an E-only dict gives "M92 E" and its value |
| GCodeClass.SetStepsPerUnitIgnoresF | gCodeClass.py:204-214 | the F key and insertion order make no difference to `setStepsPerUnit` |
| GCodeClass.GCodeFileName | gCodeClass.py:235-237 | the file name always contains ".gcode" and is unchanged when it already did |
| GCodeClass.MarlinPrinter.constructor | gCodeClass.py:19-30 | keeps the file name and the offsets (default 0); the command list starts empty |
| GCodeClass.MarlinPrinter.NonExtrudeMove | gCodeClass.py:123-140 | appends the lines of the specification or reports its error, leaving the earlier lines untouched |
| GCodeClass.MarlinPrinter.EmitG0 | gCodeClass.py:130-140 | the loop builds the `G0` line of the specification and appends it |
| GCodeClass.MarlinPrinter.DoCircle | gCodeClass.py:143-167 | appends the `G2` lines of the specification or reports its error |
| GCodeClass.MarlinPrinter.EmitG2 | gCodeClass.py:156-167 | the loop builds the arc line and appends it when X or Y is present |
| GCodeClass.MarlinPrinter.ExtrudeMove | gCodeClass.py:170-199 | appends the `G1` lines of the specification or reports its error |
| GCodeClass.MarlinPrinter.EmitG1 | gCodeClass.py:197-199 | appends the `G1` line with its optional comment |
| GCodeClass.MarlinPrinter.G1Move | gCodeClass.py:176-195 | builds the `G1` text in the fixed key order |
| GCodeClass.MarlinPrinter.SetStepsPerUnit | gCodeClass.py:202-218 | appends the `M92` lines of the specification or reports its error |
| GCodeClass.MarlinPrinter.EmitM92 | gCodeClass.py:205-218 | builds and appends the `M92` line |
| GCodeClass.MarlinPrinter.RelativePos | gCodeClass.py:221-222 | appends "G91 ; Set all axes to relative" |
| GCodeClass.MarlinPrinter.AbsPos | gCodeClass.py:224-225 | appends "G90 ; Set all axes to absolute" |
| GCodeClass.MarlinPrinter.HomeAxes | gCodeClass.py:227-228 | appends "G28 ; Home all axes" |
| Scanner.GetEFeedRate | gCodeClass.py:272-298 | the steps per mL fail with ZeroDivisionError exactly when mL or mm is zero |
| Scanner.FeedRateValue | gCodeClass.py:278-298 | the value is 3200·6.36619·mm / (300·mL), positive exactly when mL and mm have the same sign |
| Scanner.FeedRateClosedForm | gCodeClass.py:281-296 | the chain of divisions in the source equals that closed form |
| Scanner.DefaultFeedRate | gCodeClass.py:267-298 | with the defaults mL = 0.5 and mm = 60 the feed rate is 8148.7232 |
| Scanner.CalcRelPos | gCodeClass.py:324-330 | the vector added to the absolute position lands on the point |
| Scanner.MaxRotationsIs | gCodeClass.py:387-388 | the loop bound the method computes is floor(max_radius / DROPLET_SIZE) |
| Scanner.RingOffsetIs | gCodeClass.py:398-400 | the X the loop moves out to is the centre plus ring k's offset |
| Scanner.RingXIsRadius | gCodeClass.py:398-400 | ring k starts at X_MAX/2 + (max_radius − k·DROPLET_SIZE) |
| Scanner.RingXsStop | gCodeClass.py:397-405 | when the loop exits, the rings done are all the rings |
| Scanner.ExtrudeAllThree | gCodeClass.py:338-350 | three extrude calls in a row give their lines in order |
| Scanner.LeadsWithAxis | gCodeClass.py:104 | a dict whose first key is not F passes the search for a move axis |
| Scanner.TravelOneLine | gCodeClass.py:123-140 | such a travel appends exactly one line |
| Scanner.ExtrudeOneLine | gCodeClass.py:170-199 | such an extrusion appends exactly one line |
| Scanner.StartLinesHeader | gCodeClass.py:301-321 | the start block begins with the eight fixed lines, and is only those exactly when the feed rate divides by zero |
| Scanner.StartTailLines | gCodeClass.py:316-321 | after the header: the `M92 E` line, the lift to Z 2.0 with its comment, and the closing marker |
| Scanner.StartTailCount | gCodeClass.py:316-321 | that tail is three lines |
| Scanner.CenterHeadCount | gCodeClass.py:375-378 | centring appends three lines |
| Scanner.EndLinesShape | gCodeClass.py:410-417 | shut-down appends four lines, the first relative and the third absolute positioning |
| Scanner.CollectNetE | gCodeClass.py:333-340 | the three collection moves draw in `volume` in total |
| Scanner.DispenseNetE | gCodeClass.py:343-350 | the three dispensing moves push out `volume` in total |
| Scanner.CuevetteCount | gCodeClass.py:353-372 | a cuevette visit appends seven lines |
| Scanner.RingCount | gCodeClass.py:397-405 | each ring appends two lines |
| Scanner.RingMoveCount | gCodeClass.py:400 | the move out is one line |
| Scanner.RingCircleCount | gCodeClass.py:402-403 | the circle is one line |
| Scanner.CircleAtArc | gCodeClass.py:402-403 | the circle line is `G2 I… J…` of the offset relative values |
| Scanner.RingXsShape | gCodeClass.py:397-405 | the loop visits rings 0 to N−1 in order, none when N ≤ 0 |
| Scanner.RingsAtSnoc | gCodeClass.py:397-405 | one more ring appends that ring's lines at the end |
| Scanner.NextPass | gCodeClass.py:397-405 | a pass after rings 0 to k−1 gives rings 0 to k |
| Scanner.RingsAtCount | gCodeClass.py:397-405 | the rings give two lines each |
| Scanner.WaferScanCount | gCodeClass.py:380-407 | the scan fails with ZeroDivisionError exactly when DROPLET_SIZE is 0; otherwise it appends 6 + 2·max(N, 0) lines |
| Scanner.RingRadii | gCodeClass.py:387-398 | every ring's radius lies between DROPLET_SIZE and max_radius, and each is DROPLET_SIZE less than the one before |
| Scanner.FloorBound | gCodeClass.py:388 | a quotient's floor times the divisor does not exceed the dividend |
| Scanner.DefaultScan | gCodeClass.py:387-398 | with the class values, max_radius is 45.8, there are 4 rings, at 45.8, 35.8, 25.8 and 15.8 |
| Scanner.RingArc | gCodeClass.py:402-403 | the circle of the ring at X is centred at (X_MAX/2 − X, 0) relative |
| Scanner.VPDScanner.constructor | gCodeClass.py:267-270 | the printer has zero offsets and no lines; mL and mm are kept (defaults 0.5 and 60) |
| Scanner.VPDScanner.StartGCode | gCodeClass.py:301-321 | appends the start block, or the header alone when the feed rate divides by zero |
| Scanner.VPDScanner.CollectSample | gCodeClass.py:333-340 | appends the three collection extrusions |
| Scanner.VPDScanner.DispenseSample | gCodeClass.py:343-350 | appends the three dispensing extrusions |
| Scanner.VPDScanner.UseCuevette | gCodeClass.py:353-372 | appends up, over, down, the sample moves chosen by `dispense`, and up |
| Scanner.VPDScanner.CenterHead | gCodeClass.py:375-378 | appends the three centring travels with their marker comments |
| Scanner.VPDScanner.DoWaferScan | gCodeClass.py:380-407 | appends the whole scan, or reports the division by zero |
| Scanner.VPDScanner.ScanStart | gCodeClass.py:387-395 | appends centring, the drop to the tip height, and the first extrusion |
| Scanner.VPDScanner.ScanRings | gCodeClass.py:397-405 | the while loop appends the lines of rings 0 to N−1 |
| Scanner.VPDScanner.NextScanPass | gCodeClass.py:397-405 | one loop pass extends the rings done by one |
| Scanner.VPDScanner.ScanPass | gCodeClass.py:398-403 | appends the move out to ring k's X and its circle |
| Scanner.VPDScanner.MoveOut | gCodeClass.py:400 | appends the move out at the scanning feed rate with "Move needle in." |
| Scanner.VPDScanner.Circle | gCodeClass.py:402-403 | appends the circle line |
| Scanner.VPDScanner.EndGCode | gCodeClass.py:410-417 | appends relative positioning, the raise, absolute positioning, and the presenting move |
| NativeGCodeCommands.AddDecimalPoint | nativeGCodeCommands.py:10-32 | the loop returns the first argument unchanged once any argument is not int/float/str, IndexError for no arguments, and otherwise the first argument's pointed text |
| NativeGCodeCommands.AddDecimalPointOne | nativeGCodeCommands.py:17-32 | one argument gives its pointed form |
| NativeGCodeCommands.AddDecimalPointInt | nativeGCodeCommands.py:20-21 | an int n gives the text "n.0" |
| NativeGCodeCommands.AddDecimalPointText | nativeGCodeCommands.py:22-27 | a float or str gains ".0" exactly when its text has no '.' and is kept otherwise |
| NativeGCodeCommands.AddDecimalPointOther | nativeGCodeCommands.py:28-29 | any argument that is not int/float/str makes the result the first argument |
| NativeGCodeCommands.AddDecimalPointFirst | nativeGCodeCommands.py:31-32 | only the first argument's result is returned |
| NativeGCodeCommands.WithPointHasPoint | nativeGCodeCommands.py:20-27 | every text the loop produces contains '.' |
| NativeGCodeCommands.AddDecimalPointIdempotent | nativeGCodeCommands.py:20-29 | applying the function to its own output changes nothing |
| NativeGCodeCommands.AddDecimalPointTests | nativeGCodeCommands.py:17-32 | None stays None, 1.0 and 1 give "1.0", a tuple or list comes back unchanged |
| NativeGCodeCommands.NonExtrudeMove | nativeGCodeCommands.py:35-48 | returns the same list, with the move line appended when some axis is given |
| NativeGCodeCommands.G0Move | nativeGCodeCommands.py:40-44 | builds `G0` and the X, Y, Z tokens in that fixed order |
| NativeGCodeCommands.AxisToken | nativeGCodeCommands.py:40-44 | one axis gives ` {axis}{value}` of its pointed value, or nothing for None |
| NativeGCodeCommands.PointedNone | nativeGCodeCommands.py:28-32 | the pointed value is None exactly when the value is |
| NativeGCodeCommands.TokenLength | nativeGCodeCommands.py:44 | a token is empty exactly for None |
| NativeGCodeCommands.NonExtrudeNoLine | nativeGCodeCommands.py:44-48 | at most one line, and none exactly when X, Y and Z are all None |
| NativeGCodeCommands.IntToken | nativeGCodeCommands.py:20-21 | an int axis is written " {axis}n.0" |
| NativeGCodeCommands.IntTokenEnd | nativeGCodeCommands.py:44 | an int token ends in '0', so `strip()` keeps it |
| NativeGCodeCommands.NonExtrudeIntLine | nativeGCodeCommands.py:35-48 | with int or None axes, not all None, the one line is the `G0` text itself |
| NativeGCodeCommands.NonExtrudeTests | nativeGCodeCommands.py:35-48 | the seven unit-test moves built from 1, 2, 3 give "G0 X1.0 Y2.0 Z3.0" and its six sub-forms |
| NativeGCodeCommands.ExtrudeInPlace | nativeGCodeCommands.py:51-59 | always appends exactly one line `G1 E{amount}` and returns the same list |
| NativeGCodeCommands.ExtrudeInPlaceInt | nativeGCodeCommands.py:52-54 | an int n gives "G1 En.0"; the doctest 5 gives "G1 E5.0" |
| NativeGCodeCommands.RelativePos | nativeGCodeCommands.py:61-63 | appends "G91 ; Set all axes to relative" and returns the list |
| NativeGCodeCommands.AbsPos | nativeGCodeCommands.py:65-67 | appends "G90 ; Set all axes to absolute" and returns the list |
| CustomCommands.Globals.StartGCode | custom_commands.py:37-47 | appends the eight start lines to `COMMANDS`, in order, after the existing ones |
| CustomCommands.Globals.CenterHead | custom_commands.py:50-53 | appends the lines of the four helper calls, the innermost first |
| CustomCommands.StartLinesFacts | custom_commands.py:38-47 | eight lines; the seventh is "G1 F2700 E0"; the eighth keeps the literal "{E_FEEDRATE}" |
| CustomCommands.FeedRateDigits | custom_commands.py:45 | E_FEEDRATE is written 2700 |
| CustomCommands.FloatToken | nativeGCodeCommands.py:22-27 | a float whose text has a '.' is written as that text |
| CustomCommands.HalfBed | custom_commands.py:52 | `X_MAX/2` and `Y_MAX/2` are the float 110.0 |
| CustomCommands.CenterLinesAre | custom_commands.py:50-53 | centring appends exactly "G0 Z3.0", "G0 X110.0 Y110.0", "G0 Z0.2", and the outer call adds nothing |
| CustomCommands.CentreLine | custom_commands.py:52 | the centre call gives "G0 X110.0 Y110.0" |
| CustomCommands.CentreText | custom_commands.py:52 | its move text is "G0 X110.0 Y110.0" |
| CustomCommands.LowerLine | custom_commands.py:53 | the inner call gives "G0 Z0.2" |
| CustomCommands.LowerText | custom_commands.py:53 | its move text is "G0 Z0.2" |
| OldCustomCommands.CalcRelPos | OLD/custom_commands.py:94-100 | the vector added to the absolute position lands on the point |
| OldCustomCommands.CalcRelPosReverse | OLD/custom_commands.py:94-100 | swapping the two points negates the vector |
| OldCustomCommands.CalcRelPosZero | OLD/custom_commands.py:94-100 | the vector is zero exactly when the points coincide |
| OldCustomCommands.StartGCode | OLD/custom_commands.py:59-80 | appends the eleven start lines and returns the same list |
| OldCustomCommands.CenterHead | OLD/custom_commands.py:83-91 | appends the markers around the three travel requests and returns the same list |
| OldCustomCommands.DepositSample | OLD/custom_commands.py:102-117 | appends the four travel requests and returns the same list |
| OldCustomCommands.DoWaferScan | OLD/custom_commands.py:119-146 | appends centring, the drop to the tip height and every ring, and returns the same list |
| OldCustomCommands.Rotate | OLD/custom_commands.py:133-142 | one loop pass appends the comment, the move out and the circle of ring k |
| OldCustomCommands.EndGCode | OLD/custom_commands.py:149-158 | appends the four shut-down lines and returns the same list |
| OldCustomCommands.MaxRotationsValue | OLD/custom_commands.py:126-127 | the scanned radius is 45.8 and the loop runs 45 times |
| OldCustomCommands.RingsLength | OLD/custom_commands.py:132-144 | each rotation appends three entries |
| OldCustomCommands.RingCircle | OLD/custom_commands.py:140-142 | ring k's circle has relative centre (−offset, 0) |
| OldCustomCommands.RingAt | OLD/custom_commands.py:132-144 | rotation k sits at entries 3k to 3k+2: the comment, the move out to the centre plus offset at E_FEEDRATE, the circle |
| OldCustomCommands.OffsetsDecrease | OLD/custom_commands.py:133 | offsets strictly decrease, by DROPLET_SIZE per rotation |
| OldCustomCommands.RingInRange | OLD/custom_commands.py:126-137 | every offset lies between DROPLET_SIZE and max_radius, and the start X stays on the bed |
| OldCustomCommands.ScanLength | OLD/custom_commands.py:119-146 | the scan appends 141 entries |
| OldCustomCommands.ScanRing | OLD/custom_commands.py:129-144 | the scan begins with centring and the drop to the tip height; ring k follows at entries 6+3k to 8+3k |
| OldCustomCommands.StartEventsFacts | OLD/custom_commands.py:63-78 | eleven lines, opening "; BEGIN START GCODE", the ninth "M203 E1500", closing "; END START GCODE" |
| OldCustomCommands.EndEventsAre | OLD/custom_commands.py:153-156 | exactly "G91 ;Relative positioning", "G1 Z10 ; Raise Z", "G90 ;Absolute positioning", "G1 X0 Y220 ;Present print" |
| OldCustomCommands.FeedRateDigits | OLD/custom_commands.py:73 | E_FEEDRATE is written 1500 and Y_MAX 220 |
| OldCustomCommands.CenterEventsFacts | OLD/custom_commands.py:84-89 | the markers bracket three travel-speed requests, ending over (110, 110) at Z 1 |
| OldCustomCommands.DepositEventsFacts | OLD/custom_commands.py:108-115 | up to Z 40, over (200, 28), down to Z 10, then the same X/Y again |

## Left out

- File output (`writeToFile`, `write_to_gcode`) and their callers: only the ".gcode" suffix rule is modelled, as `GCodeFileName`.
- The caller and configuration scripts, the scripts under Testing/, and the unused `pygcode` import. They assign constants, parse arguments and write files.
- IEEE-754 floats. Values are reals and `f"{v:.4f}"` is round-half-up to four decimals.
  - Binary representation error and ties are not modelled, and neither is the text "-0.0000" for a tiny negative value.
  - In nativeGCodeCommands.py a float is known only by the `str()` text it carries (`PyFloat`). `Half` and `IntegralFloat` give the text of `n / 2` and of an integral float only for magnitudes below 2^53.
- The reflective argument search of the decorator: the coordinate dict is an explicit parameter.
  - The keyword `coords=` path is not modelled, because `i` is unbound there (gCodeClass.py:115).
  - The `coords is None` branch is not modelled, because the search rejects a missing dict first (gCodeClass.py:62-63).
  - Whether the caller's dict is mutated in place is not modelled: the pipeline works on a copy.
- The class pipeline's `addDecimalPoint` step is folded into `LimitDecimalPlaces`: for a number whose `str()` has a decimal point, `limitDecimalPlaces` reads the text straight back with `float()`. Its Exception for other value types is not modelled, because the values are reals.
- LimitDecimalPlaces, Sanitize: the ValueError raised for a float whose `str()` is in exponent form without a '.' (such as `1e-05` or `1e+16`) is not modelled. `addDecimalPoint` turns it into text like "1e-05.0", which `float()` at gCodeClass.py:88 rejects; the model, on reals, returns the four-decimal text instead. This follows from leaving Python's `str(float)` out.
- `str.strip()` is modelled over ASCII whitespace only.
- Python's bool-as-int is not modelled.
- The stale doctests are not modelled: `'G1 E5.0'` for `extrudeMove` at gCodeClass.py:173-174, and the `GCodeGenerator` doctest at gCodeClass.py:79.
- `VPDScanner` derives from `marlinPrinter` in the source. Here it holds a `MarlinPrinter` with zero offsets, which is what its own constructor makes.
- The raw ` F{TRAVEL_FEEDRATE}` suffix is modelled for an int constant only. A class-level float value would be written as Python's `str()` of it.
- `addDecimalPoint` on an object that is not int, float, str or None is modelled as an opaque value carrying its `str()` text (`PyOther`).
- In OLD/custom_commands.py:
  - `Z_MAX`, `DISPENSE_FEEDRATE` and `compensateNozzleOffset` are unused or empty.
  - The helper calls that do not bind are recorded as `Travel` and `Circle` requests, so no G-code text is derived for them.
  - The commented-out `GCodeCircle` is not modelled.
  - `math.floor` on a float is modelled as the floor of a real.
