/** custom_commands.py: a start block and a head-centring routine, both
    appended to the module-global list `COMMANDS` through the helpers of
    nativeGCodeCommands.py. */
module CustomCommands {
  import opened PyText
  import opened NativeGCodeCommands

  const X_MAX: nat := 220
  const Y_MAX: nat := 220
  const E_FEEDRATE: int := 2700

  /** The eight lines of `startGCode`.  The last one is not an f-string, so
      `{E_FEEDRATE}` stays in it as written. */
  const StartLines: seq<string> := [
    "G21 ; set units to millimeters",
    "M82 ;absolute extrusion mode",
    "G92 E0 ; Reset Extruder",
    "G28 ; Home all axes",
    "G90; Absolute positioning",
    "G92 E0 X0 Y0 Z0; Set home position",
    "G1 F" + IntToString(E_FEEDRATE) + " E0",
    "G1 Z2.0 F{E_FEEDRATE} ; Move up to prevent scrating"]

  /** The lines of `centerHead`: up to Z 3, over the bed centre, down to
      Z 0.2, and a last call that names no axis. */
  function CenterLines(): seq<string>
  {
    NonExtrudeLines(PyNone, PyNone, PyInt(3))
    + NonExtrudeLines(Half(X_MAX), Half(Y_MAX), PyNone)
    + NonExtrudeLines(PyNone, PyNone, PyFloat("0.2"))
    + NonExtrudeLines(PyNone, PyNone, PyNone)
  }

  /** The module's global state: the list `COMMANDS`, empty at import. */
  class Globals {
    const commands: CommandList

    constructor ()
      ensures fresh(commands) && commands.lines == []
    {
      commands := new CommandList();
    }

    /** `startGCode()`. */
    method StartGCode()
      modifies commands
      ensures commands.lines == old(commands.lines) + StartLines
    {
      commands.lines := commands.lines + ["G21 ; set units to millimeters"];
      commands.lines := commands.lines + ["M82 ;absolute extrusion mode"];
      commands.lines := commands.lines + ["G92 E0 ; Reset Extruder"];
      commands.lines := commands.lines + ["G28 ; Home all axes"];
      commands.lines := commands.lines + ["G90; Absolute positioning"];
      commands.lines := commands.lines + ["G92 E0 X0 Y0 Z0; Set home position"];
      commands.lines := commands.lines + ["G1 F" + IntToString(E_FEEDRATE) + " E0"];
      commands.lines := commands.lines + ["G1 Z2.0 F{E_FEEDRATE} ; Move up to prevent scrating"];
    }

    /** `centerHead()`; the last call passes the list returned by the one
        inside it. */
    method CenterHead()
      modifies commands
      ensures commands.lines == old(commands.lines) + CenterLines()
    {
      ghost var s0 := commands.lines;
      var l1 := NonExtrudeMove(commands, z := PyInt(3));
      ghost var s1 := commands.lines;
      var l2 := NonExtrudeMove(commands, x := Half(X_MAX), y := Half(Y_MAX));
      ghost var s2 := commands.lines;
      var inner := NonExtrudeMove(commands, z := PyFloat("0.2"));
      ghost var s3 := commands.lines;
      var l3 := NonExtrudeMove(inner);
      Concat4(s0, s1, s2, s3, commands.lines, NonExtrudeLines(PyNone, PyNone, PyInt(3)), NonExtrudeLines(Half(X_MAX), Half(Y_MAX), PyNone), NonExtrudeLines(PyNone, PyNone, PyFloat("0.2")), NonExtrudeLines(PyNone, PyNone, PyNone));
    }
  }

  /** Four appends in a row append their concatenation. */
  lemma Concat4(s0: seq<string>, s1: seq<string>, s2: seq<string>, s3: seq<string>, s4: seq<string>,
                a: seq<string>, b: seq<string>, c: seq<string>, d: seq<string>)
    requires s1 == s0 + a && s2 == s1 + b && s3 == s2 + c && s4 == s3 + d
    ensures s4 == s0 + (a + b + c + d)
  {
  }

  /** The start block has eight lines; the extruder feed rate is written
      into the seventh, and the eighth keeps the placeholder text. */
  lemma StartLinesFacts()
    ensures |StartLines| == 8
    ensures StartLines[0] == "G21 ; set units to millimeters"
    ensures StartLines[6] == "G1 F2700 E0"
    ensures StartLines[7] == "G1 Z2.0 F{E_FEEDRATE} ; Move up to prevent scrating"
  {
    FeedRateDigits();
    assert "G1 F" + "2700" + " E0" == "G1 F2700 E0";
  }

  /** `str(E_FEEDRATE)`. */
  lemma FeedRateDigits()
    ensures IntToString(E_FEEDRATE) == "2700"
  {
    assert NatToString(2) == "2";
    assert NatToString(27) == NatToString(2) + "7";
    assert NatToString(270) == NatToString(27) + "0";
    assert NatToString(2700) == NatToString(270) + "0";
  }

  /** A float whose text has a decimal point is written as that text. */
  lemma FloatToken(axis: string, t: string)
    requires '.' in t
    ensures Token(axis, Pointed(PyFloat(t))) == " " + axis + t
  {
  }

  /** `X_MAX / 2` and `Y_MAX / 2` are the float 110.0. */
  lemma HalfBed()
    ensures Half(X_MAX) == PyFloat("110.0") && Half(Y_MAX) == PyFloat("110.0")
  {
    assert NatToString(110) == NatToString(11) + "0";
    assert NatToString(11) == "11";
  }

  /** The three lines `centerHead` appends; the outermost call adds none. */
  lemma CenterLinesAre()
    ensures CenterLines() == ["G0 Z3.0", "G0 X110.0 Y110.0", "G0 Z0.2"]
  {
    NonExtrudeTests();
    NonExtrudeNoLine(PyNone, PyNone, PyNone);
    HalfBed();
    CentreLine();
    LowerLine();
  }

  lemma CentreLine()
    ensures NonExtrudeLines(PyFloat("110.0"), PyFloat("110.0"), PyNone) == ["G0 X110.0 Y110.0"]
  {
    var line := "G0 X110.0 Y110.0";
    CentreText();
    assert line[0] == 'G' && line[|line| - 1] == '0';
    StripUnchanged(line);
  }

  lemma CentreText()
    ensures G0Text(PyFloat("110.0"), PyFloat("110.0"), PyNone) == "G0 X110.0 Y110.0"
  {
    var t := "110.0";
    assert t[3] == '.';
    FloatToken("X", t);
    FloatToken("Y", t);
    assert "G0" + " X110.0" + " Y110.0" + "" == "G0 X110.0 Y110.0";
  }

  lemma LowerLine()
    ensures NonExtrudeLines(PyNone, PyNone, PyFloat("0.2")) == ["G0 Z0.2"]
  {
    var line := "G0 Z0.2";
    LowerText();
    assert line[0] == 'G' && line[|line| - 1] == '2';
    StripUnchanged(line);
  }

  lemma LowerText()
    ensures G0Text(PyNone, PyNone, PyFloat("0.2")) == "G0 Z0.2"
  {
    var t := "0.2";
    assert t[1] == '.';
    FloatToken("Z", t);
    assert "G0" + "" + "" + " Z0.2" == "G0 Z0.2";
  }
}
