/** nativeGCodeCommands.py: the free-function layer.  `addDecimalPoint`
    normalises a number's text, and each emitter appends to the list its
    caller passes in and hands that same list back. */
module NativeGCodeCommands {
  import opened Outcomes
  import opened PyText

  /** The Python values the helpers are called with.  A float is known by
      the text `str()` gives it; any other object (a tuple, a list) by its
      `str()` text as well. */
  datatype PyValue =
    | PyNone
    | PyInt(i: int)
    | PyFloat(text: string)
    | PyStr(s: string)
    | PyOther(text: string)

  /** `str(v)`, which is also what `f"{v}"` writes. */
  function Str(v: PyValue): string
  {
    match v
    case PyNone => "None"
    case PyInt(i) => IntToString(i)
    case PyFloat(t) => t
    case PyStr(s) => s
    case PyOther(t) => t
  }

  /** `str()` of a float whose value is the integer `n` (below 2^53 in
      magnitude): the integer's digits followed by `.0`. */
  function IntegralFloat(n: int): PyValue
  {
    PyFloat(IntToString(n) + ".0")
  }

  /** Python's `n / 2` for a non-negative int `n` below 2^53, as a float. */
  function Half(n: nat): PyValue
  {
    if n % 2 == 0 then IntegralFloat(n / 2) else PyFloat(NatToString(n / 2) + ".5")
  }

  /** The arguments the loop of `addDecimalPoint` handles: int, float, str. */
  predicate IsBasic(v: PyValue)
  {
    v.PyInt? || v.PyFloat? || v.PyStr?
  }

  /** What the loop appends for one handled argument. */
  function WithPoint(v: PyValue): string
    requires IsBasic(v)
  {
    if v.PyInt? then Str(v) + ".0"
    else if '.' !in Str(v) then Str(v) + ".0"
    else Str(v)
  }

  /** `addDecimalPoint(*args)` in closed form: the first argument unchanged
      as soon as any argument is not an int, float or str; an IndexError
      for no arguments; otherwise the first argument's text with a decimal
      point. */
  function AddDecimalPointSpec(args: seq<PyValue>): Result<PyValue>
  {
    if exists k :: 0 <= k < |args| && !IsBasic(args[k]) then Ok(args[0])
    else if args == [] then Err(IndexError)
    else Ok(PyStr(WithPoint(args[0])))
  }

  /** `addDecimalPoint`, with its loop over the arguments. */
  method AddDecimalPoint(args: seq<PyValue>) returns (r: Result<PyValue>)
    ensures r == AddDecimalPointSpec(args)
  {
    var result: seq<string> := [];
    var k := 0;
    while k < |args|
      invariant 0 <= k <= |args|
      invariant forall j :: 0 <= j < k ==> IsBasic(args[j])
      invariant |result| == k
      invariant forall j :: 0 <= j < k ==> result[j] == WithPoint(args[j])
    {
      var arg := args[k];
      if arg.PyInt? {
        result := result + [Str(arg) + ".0"];
      } else if arg.PyFloat? || arg.PyStr? {
        var strVal := Str(arg);
        if '.' !in strVal {
          result := result + [Str(arg) + ".0"];
        } else {
          result := result + [Str(arg)];
        }
      } else {
        return Ok(args[0]);
      }
      k := k + 1;
    }
    if |result| == 0 {
      return Err(IndexError);
    }
    return Ok(PyStr(result[0]));
  }

  /** `addDecimalPoint(v)` with the one argument every emitter passes. */
  function Pointed(v: PyValue): PyValue
  {
    if IsBasic(v) then PyStr(WithPoint(v)) else v
  }

  /** With one argument the call never raises, and gives `Pointed`. */
  lemma AddDecimalPointOne(v: PyValue)
    ensures AddDecimalPointSpec([v]) == Ok(Pointed(v))
  {
    if !IsBasic(v) {
      assert !IsBasic([v][0]);
    }
  }

  /** An int `n` becomes the text `n.0`. */
  lemma AddDecimalPointInt(n: int)
    ensures AddDecimalPointSpec([PyInt(n)]) == Ok(PyStr(IntToString(n) + ".0"))
  {
    AddDecimalPointOne(PyInt(n));
  }

  /** A float or str gains `.0` exactly when its text has no '.', and is
      otherwise its text unchanged. */
  lemma AddDecimalPointText(v: PyValue)
    requires v.PyFloat? || v.PyStr?
    ensures '.' in Str(v) ==> AddDecimalPointSpec([v]) == Ok(PyStr(Str(v)))
    ensures '.' !in Str(v) ==> AddDecimalPointSpec([v]) == Ok(PyStr(Str(v) + ".0"))
  {
    AddDecimalPointOne(v);
  }

  /** Anything that is not an int, float or str (None, a tuple, a list) is
      handed back unchanged, wherever in the arguments it sits. */
  lemma AddDecimalPointOther(args: seq<PyValue>, k: int)
    requires 0 <= k < |args| && !IsBasic(args[k])
    ensures AddDecimalPointSpec(args) == Ok(args[0])
  {
  }

  /** When every argument is handled, only the first one decides the result. */
  lemma AddDecimalPointFirst(args: seq<PyValue>)
    requires args != [] && forall k :: 0 <= k < |args| ==> IsBasic(args[k])
    ensures AddDecimalPointSpec(args) == AddDecimalPointSpec([args[0]])
  {
    AddDecimalPointOne(args[0]);
  }

  /** Every text the loop produces contains a decimal point. */
  lemma WithPointHasPoint(v: PyValue)
    requires IsBasic(v)
    ensures '.' in WithPoint(v)
  {
    var s := Str(v);
    if v.PyInt? || '.' !in s {
      assert (s + ".0")[|s|] == '.';
    }
  }

  /** Applying `addDecimalPoint` to its own one-argument result changes nothing. */
  lemma AddDecimalPointIdempotent(v: PyValue)
    ensures AddDecimalPointSpec([Pointed(v)]) == Ok(Pointed(v))
  {
    AddDecimalPointOne(v);
    AddDecimalPointOne(Pointed(v));
    if IsBasic(v) {
      WithPointHasPoint(v);
    }
  }

  /** The cases of the unit tests of `addDecimalPoint`.  A tuple or list is
      returned as it came: the tests' expected values compare equal to it in
      Python because `2 == 2.0` and `1 == 1.0`. */
  lemma AddDecimalPointTests()
    ensures AddDecimalPointSpec([PyNone]) == Ok(PyNone)
    ensures AddDecimalPointSpec([PyFloat("1.0")]) == Ok(PyStr("1.0"))
    ensures AddDecimalPointSpec([PyInt(1)]) == Ok(PyStr("1.0"))
    ensures AddDecimalPointSpec([PyOther("(1.4, 2)")]) == Ok(PyOther("(1.4, 2)"))
    ensures AddDecimalPointSpec([PyOther("[None, 1]")]) == Ok(PyOther("[None, 1]"))
  {
    AddDecimalPointOne(PyNone);
    AddDecimalPointText(PyFloat("1.0"));
    assert Str(PyFloat("1.0"))[1] == '.';
    AddDecimalPointInt(1);
    assert IntToString(1) + ".0" == "1.0";
    AddDecimalPointOne(PyOther("(1.4, 2)"));
    AddDecimalPointOne(PyOther("[None, 1]"));
  }

  /** The list a caller hands to the emitters, which they extend in place. */
  class CommandList {
    var lines: seq<string>

    constructor ()
      ensures lines == []
    {
      lines := [];
    }
  }

  /** ` {axis}{value}` for an axis that is not None, else nothing. */
  function Token(axis: string, v: PyValue): string
  {
    if v.PyNone? then "" else " " + axis + Str(v)
  }

  /** The text `nonExtrudeMove` builds: `G0`, then X, Y, Z in that order. */
  function G0Text(x: PyValue, y: PyValue, z: PyValue): string
  {
    "G0" + Token("X", Pointed(x)) + Token("Y", Pointed(y)) + Token("Z", Pointed(z))
  }

  /** The lines `nonExtrudeMove` appends: none when the text is bare `G0`. */
  function NonExtrudeLines(x: PyValue, y: PyValue, z: PyValue): seq<string>
  {
    var move := G0Text(x, y, z);
    if move != "G0" then [Strip(move)] else []
  }

  /** `nonExtrudeMove(lst, X, Y, Z)`. */
  method NonExtrudeMove(lst: CommandList, x: PyValue := PyNone, y: PyValue := PyNone, z: PyValue := PyNone)
    returns (r: CommandList)
    modifies lst
    ensures r == lst
    ensures lst.lines == old(lst.lines) + NonExtrudeLines(x, y, z)
  {
    var move := G0Move(x, y, z);
    if move != "G0" {
      lst.lines := lst.lines + [Strip(move)];
    }
    return lst;
  }

  /** The text `nonExtrudeMove` puts together from its three axes. */
  method G0Move(x: PyValue, y: PyValue, z: PyValue) returns (move: string)
    ensures move == G0Text(x, y, z)
  {
    var tx := AxisToken("X", x);
    var ty := AxisToken("Y", y);
    var tz := AxisToken("Z", z);
    move := "G0" + tx + ty + tz;
  }

  /** One axis: `addDecimalPoint` of its value, then ` {axis}{value}`
      unless the value is None. */
  method AxisToken(axis: string, v: PyValue) returns (t: string)
    ensures t == Token(axis, Pointed(v))
  {
    AddDecimalPointOne(v);
    var p := AddDecimalPoint([v]);
    t := if !p.value.PyNone? then " " + axis + Str(p.value) else "";
  }

  /** `None` stays `None` through `addDecimalPoint`, and nothing else becomes it. */
  lemma PointedNone(v: PyValue)
    ensures Pointed(v).PyNone? <==> v.PyNone?
  {
  }

  /** A token that is present makes the text longer. */
  lemma TokenLength(axis: string, v: PyValue)
    ensures |Token(axis, v)| == 0 <==> v.PyNone?
  {
  }

  /** `nonExtrudeMove` appends at most one line, and none exactly when all
      three axes are None. */
  lemma NonExtrudeNoLine(x: PyValue, y: PyValue, z: PyValue)
    ensures |NonExtrudeLines(x, y, z)| <= 1
    ensures NonExtrudeLines(x, y, z) == [] <==> x.PyNone? && y.PyNone? && z.PyNone?
  {
    PointedNone(x);
    PointedNone(y);
    PointedNone(z);
    TokenLength("X", Pointed(x));
    TokenLength("Y", Pointed(y));
    TokenLength("Z", Pointed(z));
    var move := G0Text(x, y, z);
    assert |move| == 2 + |Token("X", Pointed(x))| + |Token("Y", Pointed(y))| + |Token("Z", Pointed(z))|;
    if move == "G0" {
      assert |move| == 2;
    }
  }

  predicate IntOrNone(v: PyValue)
  {
    v.PyNone? || v.PyInt?
  }

  /** The text an int axis contributes: ` X1.0` for 1. */
  lemma IntToken(axis: string, n: int)
    ensures Token(axis, Pointed(PyInt(n))) == " " + axis + IntToString(n) + ".0"
  {
  }

  /** An int axis's token ends in the `0` of its `.0`. */
  lemma IntTokenEnd(axis: string, v: PyValue)
    requires v.PyInt?
    ensures var t := Token(axis, Pointed(v)); |t| > 0 && t[|t| - 1] == '0'
  {
    IntToken(axis, v.i);
  }

  /** With int axes, not all of them None, the line is the text itself:
      `G0` and a token per given axis, X, Y, Z in that order, each value
      with `.0` appended. */
  lemma NonExtrudeIntLine(x: PyValue, y: PyValue, z: PyValue)
    requires IntOrNone(x) && IntOrNone(y) && IntOrNone(z)
    requires !(x.PyNone? && y.PyNone? && z.PyNone?)
    ensures NonExtrudeLines(x, y, z) == [G0Text(x, y, z)]
  {
    NonExtrudeNoLine(x, y, z);
    var move := G0Text(x, y, z);
    var tx, ty, tz := Token("X", Pointed(x)), Token("Y", Pointed(y)), Token("Z", Pointed(z));
    assert move == "G0" + tx + ty + tz;
    var last: string := if !z.PyNone? then tz else if !y.PyNone? then ty else tx;
    if !z.PyNone? {
      IntTokenEnd("Z", z);
    } else if !y.PyNone? {
      IntTokenEnd("Y", y);
      assert tz == "";
    } else {
      IntTokenEnd("X", x);
      assert ty == "" && tz == "";
    }
    assert move[|move| - 1] == last[|last| - 1];
    StripUnchanged(move);
  }

  lemma OneTwoThree()
    ensures IntToString(1) == "1" && IntToString(2) == "2" && IntToString(3) == "3"
  {
  }

  /** The tokens of the unit tests' values. */
  lemma TestTokens()
    ensures Token("X", Pointed(PyInt(1))) == " X1.0"
    ensures Token("Y", Pointed(PyInt(2))) == " Y2.0"
    ensures Token("Z", Pointed(PyInt(3))) == " Z3.0"
    ensures Token("X", Pointed(PyNone)) == "" && Token("Y", Pointed(PyNone)) == "" && Token("Z", Pointed(PyNone)) == ""
  {
    OneTwoThree();
    IntToken("X", 1);
    IntToken("Y", 2);
    IntToken("Z", 3);
  }

  /** The unit tests of `nonExtrudeMove`. */
  lemma NonExtrudeTests()
    ensures NonExtrudeLines(PyInt(1), PyInt(2), PyInt(3)) == ["G0 X1.0 Y2.0 Z3.0"]
    ensures NonExtrudeLines(PyInt(1), PyInt(2), PyNone) == ["G0 X1.0 Y2.0"]
    ensures NonExtrudeLines(PyInt(1), PyNone, PyInt(3)) == ["G0 X1.0 Z3.0"]
    ensures NonExtrudeLines(PyNone, PyInt(2), PyInt(3)) == ["G0 Y2.0 Z3.0"]
    ensures NonExtrudeLines(PyInt(1), PyNone, PyNone) == ["G0 X1.0"]
    ensures NonExtrudeLines(PyNone, PyInt(2), PyNone) == ["G0 Y2.0"]
    ensures NonExtrudeLines(PyNone, PyNone, PyInt(3)) == ["G0 Z3.0"]
  {
    TestTokens();
    TestTexts();
    NonExtrudeIntLine(PyInt(1), PyInt(2), PyInt(3));
    NonExtrudeIntLine(PyInt(1), PyInt(2), PyNone);
    NonExtrudeIntLine(PyInt(1), PyNone, PyInt(3));
    NonExtrudeIntLine(PyNone, PyInt(2), PyInt(3));
    NonExtrudeIntLine(PyInt(1), PyNone, PyNone);
    NonExtrudeIntLine(PyNone, PyInt(2), PyNone);
    NonExtrudeIntLine(PyNone, PyNone, PyInt(3));
  }

  /** The test lines, assembled from their tokens. */
  lemma TestTexts()
    ensures "G0" + " X1.0" + " Y2.0" + " Z3.0" == "G0 X1.0 Y2.0 Z3.0"
    ensures "G0" + " X1.0" + " Y2.0" + "" == "G0 X1.0 Y2.0"
    ensures "G0" + " X1.0" + "" + " Z3.0" == "G0 X1.0 Z3.0"
    ensures "G0" + "" + " Y2.0" + " Z3.0" == "G0 Y2.0 Z3.0"
    ensures "G0" + " X1.0" + "" + "" == "G0 X1.0"
    ensures "G0" + "" + " Y2.0" + "" == "G0 Y2.0"
    ensures "G0" + "" + "" + " Z3.0" == "G0 Z3.0"
  {
  }

  /** The line of `extrudeInPlace`. */
  function ExtrudeInPlaceLine(amount: PyValue): string
  {
    "G1 E" + Str(Pointed(amount))
  }

  /** `extrudeInPlace(lst, amount)`: always exactly one line. */
  method ExtrudeInPlace(lst: CommandList, amount: PyValue) returns (r: CommandList)
    modifies lst
    ensures r == lst
    ensures lst.lines == old(lst.lines) + [ExtrudeInPlaceLine(amount)]
  {
    AddDecimalPointOne(amount);
    var a := AddDecimalPoint([amount]);
    lst.lines := lst.lines + ["G1 E" + Str(a.value)];
    return lst;
  }

  /** An int amount `n` is written `G1 E<n>.0`; the doctest's 5 gives `G1 E5.0`. */
  lemma ExtrudeInPlaceInt(n: int)
    ensures ExtrudeInPlaceLine(PyInt(n)) == "G1 E" + IntToString(n) + ".0"
    ensures ExtrudeInPlaceLine(PyInt(5)) == "G1 E5.0"
  {
    assert IntToString(5) == "5";
  }

  const RelativePosLine := "G91 ; Set all axes to relative"
  const AbsPosLine := "G90 ; Set all axes to absolute"

  /** `relativePos(lst)`. */
  method RelativePos(lst: CommandList) returns (r: CommandList)
    modifies lst
    ensures r == lst && lst.lines == old(lst.lines) + [RelativePosLine]
  {
    lst.lines := lst.lines + [RelativePosLine];
    return lst;
  }

  /** `absPos(lst)`. */
  method AbsPos(lst: CommandList) returns (r: CommandList)
    modifies lst
    ensures r == lst && lst.lines == old(lst.lines) + [AbsPosLine]
  {
    lst.lines := lst.lines + [AbsPosLine];
    return lst;
  }
}
