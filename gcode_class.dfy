/** The `marlinPrinter` class of gCodeClass.py: an append-only list of
    G-code lines, three tool-tip offsets, and the emitters that turn a
    coordinate dict into one line each through the sanitize pipeline
    (offset, then four-decimal formatting). */
module GCodeClass {
  import opened Outcomes
  import opened PyText

  /** The keys a coordinate dict may carry. */
  datatype Axis = X | Y | Z | E | F

  function AxisName(a: Axis): string
  {
    match a
    case X => "X"
    case Y => "Y"
    case Z => "Z"
    case E => "E"
    case F => "F"
  }

  /** A coordinate dict such as `{'X': 10.0, 'F': 1000}`, in insertion order. */
  type Coords = seq<(Axis, real)>

  /** The same dict once the pipeline has turned every value into text. */
  type Formatted = seq<(Axis, string)>

  predicate HasKey<T>(c: seq<(Axis, T)>, a: Axis)
  {
    exists i :: 0 <= i < |c| && c[i].0 == a
  }

  /** Where key `a` first occurs, or -1. */
  function IndexOf<T>(c: seq<(Axis, T)>, a: Axis): (i: int)
    ensures -1 <= i < |c|
    ensures 0 <= i ==> c[i].0 == a && forall j :: 0 <= j < i ==> c[j].0 != a
    ensures i < 0 <==> !HasKey(c, a)
  {
    if c == [] then -1
    else if c[0].0 == a then 0
    else var k := IndexOf(c[1..], a);
      assert HasKey(c[1..], a) ==> HasKey(c, a);
      assert HasKey(c, a) ==> HasKey(c[1..], a) by {
        if HasKey(c, a) {
          var w :| 0 <= w < |c| && c[w].0 == a;
          assert c[1..][w - 1].0 == a;
        }
      }
      if k < 0 then -1 else k + 1
  }

  /** `coords['a']` when the key is present. */
  function Get<T>(c: seq<(Axis, T)>, a: Axis): (r: Option<T>)
    ensures r.Some? <==> HasKey(c, a)
  {
    var i := IndexOf(c, a);
    if i < 0 then None else Some(c[i].1)
  }

  /** Dicts with the same keys, position by position, look keys up at the same place. */
  lemma {:induction false} SameKeysSameIndex<T, U>(c: seq<(Axis, T)>, d: seq<(Axis, U)>, a: Axis)
    requires |c| == |d| && forall i :: 0 <= i < |c| ==> c[i].0 == d[i].0
    ensures IndexOf(c, a) == IndexOf(d, a)
  {
    if c != [] && c[0].0 != a {
      SameKeysSameIndex(c[1..], d[1..], a);
    }
  }

  // ----- Offsets -----------------------------------------------------------

  /** The tool-tip offsets of one printer. */
  datatype Offsets = Offsets(x: real, y: real, z: real)

  /** How one value is adjusted for the tip offset: X and Y move by minus
      their offset, Z by plus its offset, E and F are left alone. */
  function Shift(off: Offsets, a: Axis, v: real): real
  {
    match a
    case X => v - off.x
    case Y => v - off.y
    case Z => v + off.z
    case _ => v
  }

  /** The adjustment undone: from the coordinates sent to the printer back to
      the tip's own coordinates. */
  function Unshift(off: Offsets, a: Axis, v: real): real
  {
    match a
    case X => v + off.x
    case Y => v + off.y
    case Z => v - off.z
    case _ => v
  }

  function Offset(off: Offsets, c: Coords): Coords
  {
    seq(|c|, i requires 0 <= i < |c| => (c[i].0, Shift(off, c[i].0, c[i].1)))
  }

  function Unoffset(off: Offsets, c: Coords): Coords
  {
    seq(|c|, i requires 0 <= i < |c| => (c[i].0, Unshift(off, c[i].0, c[i].1)))
  }

  /** Offsetting and un-offsetting are inverse to each other. */
  lemma OffsetRoundTrip(off: Offsets, c: Coords)
    ensures Unoffset(off, Offset(off, c)) == c
    ensures Offset(off, Unoffset(off, c)) == c
  {
    assert forall i :: 0 <= i < |c| ==> Unshift(off, c[i].0, Shift(off, c[i].0, c[i].1)) == c[i].1;
    assert forall i :: 0 <= i < |c| ==> Shift(off, c[i].0, Unshift(off, c[i].0, c[i].1)) == c[i].1;
  }

  /** `adjsutForOffset`: rewrites X, Y and Z of the dict in place and keeps
      every key where it was. */
  method AdjustForOffset(off: Offsets, coords: Coords) returns (r: Coords)
    ensures |r| == |coords|
    ensures forall i :: 0 <= i < |r| ==> r[i].0 == coords[i].0
    ensures forall i :: 0 <= i < |r| && coords[i].0 == X ==> r[i].1 == coords[i].1 - off.x
    ensures forall i :: 0 <= i < |r| && coords[i].0 == Y ==> r[i].1 == coords[i].1 - off.y
    ensures forall i :: 0 <= i < |r| && coords[i].0 == Z ==> r[i].1 == coords[i].1 + off.z
    ensures forall i :: 0 <= i < |r| && coords[i].0 in {E, F} ==> r[i].1 == coords[i].1
    ensures r == Offset(off, coords)
  {
    r := coords;
    var i := 0;
    while i < |r|
      invariant 0 <= i <= |r| == |coords|
      invariant forall k :: 0 <= k < i ==> r[k] == (coords[k].0, Shift(off, coords[k].0, coords[k].1))
      invariant forall k :: i <= k < |r| ==> r[k] == coords[k]
    {
      var (axis, value) := r[i];
      if axis == X {
        r := r[i := (X, value - off.x)];
      }
      if axis == Y {
        r := r[i := (Y, value - off.y)];
      }
      if axis == Z {
        r := r[i := (Z, value + off.z)];
      }
      i := i + 1;
    }
  }

  // ----- Formatting -------------------------------------------------------

  /** `s` is what `f"{v:.4f}"` writes: four decimals, and a '-' exactly
      when the value is below zero. */
  predicate IsFmt4(s: string)
  {
    IsFixed4(s) && (s[0] == '-' <==> Fixed4Value(s) < 0)
  }

  /** Every value of the dict is a four-decimal string. */
  predicate Sanitized(fc: Formatted)
  {
    forall i :: 0 <= i < |fc| ==> IsFmt4(fc[i].1)
  }

  function Format(c: Coords): Formatted
  {
    seq(|c|, i requires 0 <= i < |c| => (c[i].0, Fmt4(c[i].1)))
  }

  /** `addDecimalPoint` followed by `limitDecimalPlaces`.  The first writes
      each number as text and the second reads it straight back with
      `float()`, so on numbers written with a decimal point the pair amounts
      to `f"{v:.4f}"` per value. */
  method LimitDecimalPlaces(coords: Coords) returns (r: Formatted)
    ensures |r| == |coords| && Sanitized(r)
    ensures forall i :: 0 <= i < |r| ==> r[i].0 == coords[i].0 && Fixed4Value(r[i].1) == Round4(coords[i].1)
    ensures r == Format(coords)
  {
    r := [];
    var i := 0;
    while i < |coords|
      invariant 0 <= i <= |coords|
      invariant r == Format(coords[..i])
    {
      assert Format(coords[..i + 1]) == Format(coords[..i]) + [(coords[i].0, Fmt4(coords[i].1))];
      r := r + [(coords[i].0, Fmt4(coords[i].1))];
      i := i + 1;
    }
    assert coords[..i] == coords;
  }

  /** The dict holds at least one of X, Y, Z, E: the decorator's test for
      having found its coordinates argument. */
  predicate HasMoveAxis(c: Coords)
  {
    HasKey(c, X) || HasKey(c, Y) || HasKey(c, Z) || HasKey(c, E)
  }

  /** The `sanitizeCoords` pipeline, with the coordinates passed explicitly. */
  function Sanitize(off: Offsets, c: Coords): (r: Result<Formatted>)
    ensures r.Err? <==> !HasMoveAxis(c)
    ensures r.Err? ==> r.error == ValueError("coords argument not found!")
    ensures r.Ok? ==> Sanitized(r.value)
  {
    if HasMoveAxis(c) then Ok(Format(Offset(off, c)))
    else Err(ValueError("coords argument not found!"))
  }

  /** What the pipeline promises: the keys stay where they were, and each
      value becomes a four-decimal string of the offset-adjusted number. */
  lemma SanitizeMeaning(off: Offsets, c: Coords)
    requires HasMoveAxis(c)
    ensures Sanitize(off, c).Ok?
    ensures |Sanitize(off, c).value| == |c|
    ensures forall i :: 0 <= i < |c| ==>
      Sanitize(off, c).value[i].0 == c[i].0 && Fixed4Value(Sanitize(off, c).value[i].1) == Round4(Shift(off, c[i].0, c[i].1))
  {
  }

  method SanitizeCoords(off: Offsets, coords: Coords) returns (r: Result<Formatted>)
    ensures r == Sanitize(off, coords)
  {
    if !HasMoveAxis(coords) {
      return Err(ValueError("coords argument not found!"));
    }
    var adjusted := AdjustForOffset(off, coords);
    var text := LimitDecimalPlaces(adjusted);
    r := Ok(text);
  }

  // ----- Configuration ----------------------------------------------------

  /** The class-level constants of `marlinPrinter` and `VPDScanner`, which
      caller scripts overwrite before building a routine. */
  datatype Config = Config(
    reverseEDir: bool,
    xMax: real,
    yMax: real,
    travelFeedrate: int,
    scanningMoveFeedrate: real,
    extrusionMotorFeedrate: real,
    tipHeight: real,
    travelHeight: real,
    dropletSize: real,
    cuevetteX: real,
    cuevetteLipY: real,
    cuevetteZ: real,
    waferDiam: real,
    edgeGap: real)

  /** The values the classes declare. */
  const DefaultConfig := Config(
    reverseEDir := true,
    xMax := 220.0,
    yMax := 220.0,
    travelFeedrate := 4000,
    scanningMoveFeedrate := 1000.0,
    extrusionMotorFeedrate := 10.0,
    tipHeight := 3.0,
    travelHeight := 40.0,
    dropletSize := 10.0,
    cuevetteX := 200.0,
    cuevetteLipY := 25.0,
    cuevetteZ := 10.0,
    waferDiam := 101.6,
    edgeGap := 5.0)

  // ----- The lines the emitters build -------------------------------------

  /** `move` after the loop `for axis, value in coords.items(): move += f' {axis}{value}'`. */
  function Tokens(move: string, fc: Formatted): string
  {
    if fc == [] then move
    else Tokens(move, fc[..|fc| - 1]) + " " + AxisName(fc[|fc| - 1].0) + fc[|fc| - 1].1
  }

  /** The lines `nonExtrudeMove` appends: tokens in dict order, the raw
      travel feedrate when the text has no `F` yet, then the comment. */
  function G0Lines(cfg: Config, fc: Formatted, comment: string): seq<string>
  {
    var move := Tokens("G0", fc);
    var fed := if 'F' !in move then move + " F" + IntToString(cfg.travelFeedrate) else move;
    if fed != "G0" then [Strip(if comment != "" then fed + " ;" + comment else fed)] else []
  }

  function NonExtrudeMoveSpec(cfg: Config, off: Offsets, coords: Coords, comment: string): Result<seq<string>>
  {
    match Sanitize(off, coords)
    case Err(e) => Err(e)
    case Ok(fc) => Ok(G0Lines(cfg, fc, comment))
  }

  /** `move` after the loop of `doCircle`: ` I{value}` for X, ` J{value}`
      for Y, nothing for any other key. */
  function ArcTokens(move: string, fc: Formatted): string
  {
    if fc == [] then move
    else
      var m := ArcTokens(move, fc[..|fc| - 1]);
      var p := fc[|fc| - 1];
      if p.0 == X then m + " I" + p.1 else if p.0 == Y then m + " J" + p.1 else m
  }

  function G2Lines(fc: Formatted, comment: string): seq<string>
  {
    var move := ArcTokens("G2", fc);
    if move != "G2" then [Strip(if comment != "" then move + " ; " + comment else move)] else []
  }

  function DoCircleSpec(off: Offsets, coords: Coords, comment: string): Result<seq<string>>
  {
    match Sanitize(off, coords)
    case Err(e) => Err(e)
    case Ok(fc) =>
      if |fc| >= 3 then Err(Exception("Passed 3 or more coordinates to the doCircle funciton."))
      else Ok(G2Lines(fc, comment))
  }

  /** The text written before a value of key `a` in the fixed-order emitters. */
  function Lead(a: Axis): string
  {
    match a
    case X => " X"
    case Y => " Y"
    case Z => " Z"
    case E => " E"
    case F => " F"
  }

  /** `if "a" in coord_axes: move += f" a{coords['a']}"` */
  function AddKey(move: string, fc: Formatted, a: Axis): string
  {
    if HasKey(fc, a) then move + Lead(a) + Get(fc, a).value else move
  }

  /** The E step of `extrudeMove`.  With the extruder reversed, a value that
      reads as zero or more gains a leading '-', and a negative one loses its
      '-'. */
  function AddE(reverse: bool, move: string, e: Option<string>): string
    requires e.Some? ==> IsFmt4(e.value)
  {
    if e.None? then move
    else if !reverse then move + " E" + e.value
    else if Fixed4Value(e.value) >= 0 then move + " E-" + e.value
    else if '-' in e.value then move + " E" + e.value[1..]
    else move
  }

  /** Looking a key up in a sanitized dict gives a four-decimal string. */
  lemma GetFmt4(fc: Formatted, a: Axis)
    requires Sanitized(fc)
    ensures Get(fc, a).Some? ==> IsFmt4(Get(fc, a).value)
  {
    if HasKey(fc, a) {
      assert IsFmt4(fc[IndexOf(fc, a)].1);
    }
  }

  /** The text of `extrudeMove` before the comment: X, Y, Z, E, F whatever the dict order. */
  function G1Text(cfg: Config, fc: Formatted): string
    requires Sanitized(fc)
  {
    GetFmt4(fc, E);
    AddKey(AddE(cfg.reverseEDir, AddKey(AddKey(AddKey("G1", fc, X), fc, Y), fc, Z), Get(fc, E)), fc, F)
  }

  function G1Lines(cfg: Config, fc: Formatted, comment: string): seq<string>
    requires Sanitized(fc)
  {
    MoveLines(G1Text(cfg, fc), comment)
  }

  /** The tail of `extrudeMove`: a text with something after `G1` becomes
      one stripped line, with the comment after ` ; ` when there is one. */
  function MoveLines(move: string, comment: string): seq<string>
  {
    if move != "G1" then [Strip(if comment != "" then move + " ; " + comment else move)] else []
  }

  function ExtrudeMoveSpec(cfg: Config, off: Offsets, coords: Coords, comment: string): Result<seq<string>>
  {
    match Sanitize(off, coords)
    case Err(e) => Err(e)
    case Ok(fc) => Ok(G1Lines(cfg, fc, comment))
  }

  /** The text of `setStepsPerUnit`: X, Y, Z, E in that order; F is ignored. */
  function M92Text(fc: Formatted): string
  {
    AddKey(AddKey(AddKey(AddKey("M92", fc, X), fc, Y), fc, Z), fc, E)
  }

  function M92Lines(fc: Formatted): seq<string>
  {
    var move := M92Text(fc);
    if move != "M92" then [Strip(move + " ; Set steps per unit.")] else []
  }

  function SetStepsPerUnitSpec(off: Offsets, coords: Coords): Result<seq<string>>
  {
    match Sanitize(off, coords)
    case Err(e) => Err(e)
    case Ok(fc) => Ok(M92Lines(fc))
  }

  /** The lines an emitter appends: none when it raised. */
  function Emitted(r: Result<seq<string>>): seq<string>
  {
    if r.Ok? then r.value else []
  }

  function OutcomeOf<T>(r: Result<T>): Outcome
  {
    if r.Ok? then Pass else Fail(r.error)
  }

  // ----- What the emitters promise ---------------------------------------

  /** The pipeline keeps each key's value findable under that key: the
      looked-up text is the adjusted value written to four decimals. */
  lemma GetSanitized(off: Offsets, c: Coords, a: Axis)
    requires HasMoveAxis(c)
    ensures Get(Sanitize(off, c).value, a).Some? <==> HasKey(c, a)
    ensures HasKey(c, a) ==> Get(Sanitize(off, c).value, a).value == Fmt4(Shift(off, a, Get(c, a).value))
  {
    SameKeysSameIndex(Sanitize(off, c).value, c, a);
  }

  /** The formatted values of the `limitDecimalPlaces` doctest. */
  lemma LimitDecimalPlacesExample()
    ensures Format([(X, 5.0001), (Y, 100.1), (Z, 10.0)]) == [(X, "5.0001"), (Y, "100.1000"), (Z, "10.0000")]
  {
    Fmt4Example1();
    Fmt4Example2();
    Fmt4Example3();
  }

  lemma Fmt4Example1()
    ensures Fmt4(5.0001) == "5.0001"
  {
    Fmt4Of(5.0001, 50001, "5", "0001");
  }

  lemma Fmt4Example2()
    ensures Fmt4(100.1) == "100.1000"
  {
    assert 1001000 / 10000 == 100 && 1001000 % 10000 == 1000;
    assert NatToString(10) == "10";
    assert NatToString(100) == NatToString(10) + "0";
    assert Pad4(1000) == "1000";
    Fmt4Of(100.1, 1001000, "100", "1000");
  }

  lemma Fmt4Example3()
    ensures Fmt4(10.0) == "10.0000"
  {
    assert 100000 / 10000 == 10 && 100000 % 10000 == 0;
    assert NatToString(10) == "10";
    assert Pad4(0) == "0000";
    Fmt4Of(10.0, 100000, "10", "0000");
  }

  /** Every line the loop emitters build starts with their command word. */
  lemma {:induction false} TokensPrefix(head: string, fc: Formatted)
    ensures |Tokens(head, fc)| >= |head| && Tokens(head, fc)[..|head|] == head
  {
    if fc != [] {
      TokensPrefix(head, fc[..|fc| - 1]);
    }
  }

  /** No value of the dict holds the letter `F`. */
  predicate NoFValue(fc: Formatted)
  {
    forall i :: 0 <= i < |fc| ==> 'F' !in fc[i].1
  }

  lemma SanitizedNoFValue(fc: Formatted)
    requires Sanitized(fc)
    ensures NoFValue(fc)
  {
    forall i | 0 <= i < |fc|
      ensures 'F' !in fc[i].1
    {
      Fixed4Chars(fc[i].1);
    }
  }

  /** As no formatted value holds an `F`, the text of a travel move holds
      one exactly when the dict has the key F. */
  lemma {:induction false} TokensHasF(head: string, fc: Formatted)
    requires NoFValue(fc)
    ensures 'F' in Tokens(head, fc) <==> 'F' in head || HasKey(fc, F)
  {
    if fc != [] {
      var init, last := fc[..|fc| - 1], fc[|fc| - 1];
      assert NoFValue(init) by {
        assert forall i :: 0 <= i < |init| ==> init[i] == fc[i];
      }
      TokensHasF(head, init);
      var t := Tokens(head, init);
      assert Tokens(head, fc) == t + (" " + AxisName(last.0) + last.1);
      assert 'F' in " " + AxisName(last.0) + last.1 <==> last.0 == F;
      HasKeySnoc(fc, F);
    }
  }

  /** A key is in a non-empty dict when it is in all but the last entry or is the last. */
  lemma HasKeySnoc<T>(c: seq<(Axis, T)>, a: Axis)
    requires c != []
    ensures HasKey(c, a) <==> HasKey(c[..|c| - 1], a) || c[|c| - 1].0 == a
  {
    var init := c[..|c| - 1];
    if HasKey(c, a) && c[|c| - 1].0 != a {
      var w :| 0 <= w < |c| && c[w].0 == a;
      assert init[w].0 == a;
    }
    if HasKey(init, a) {
      var w :| 0 <= w < |init| && init[w].0 == a;
      assert c[w].0 == a;
    }
  }

  /** The text of a travel move before its comment: it starts with `G0`
      and, once the dict has a key, ends in a digit. */
  lemma G0TextShape(cfg: Config, fc: Formatted)
    requires Sanitized(fc) && fc != []
    ensures var move := Tokens("G0", fc);
      var fed := if 'F' !in move then move + " F" + IntToString(cfg.travelFeedrate) else move;
      |fed| > 2 && fed[0] == 'G' && IsDigit(fed[|fed| - 1])
  {
    var move := Tokens("G0", fc);
    TokensPrefix("G0", fc);
    var v := fc[|fc| - 1].1;
    assert IsFixed4(v);
    assert v[|v| - 1] == v[|v| - 4..][3];
    var feed := IntToString(cfg.travelFeedrate);
    assert IsDigit(feed[|feed| - 1]);
  }

  /** On a non-empty sanitized dict the body of `nonExtrudeMove` appends
      one line, and `strip()` only takes trailing white space off the comment. */
  lemma G0LinesOne(cfg: Config, fc: Formatted, comment: string)
    requires Sanitized(fc) && fc != []
    ensures
      var move := Tokens("G0", fc);
      var fed := if HasKey(fc, F) then move else move + " F" + IntToString(cfg.travelFeedrate);
      G0Lines(cfg, fc, comment) == [if comment != "" then fed + " ;" + TrimRight(comment) else fed]
  {
    var move := Tokens("G0", fc);
    SanitizedNoFValue(fc);
    TokensHasF("G0", fc);
    G0TextShape(cfg, fc);
    var fed := if HasKey(fc, F) then move else move + " F" + IntToString(cfg.travelFeedrate);
    if comment != "" {
      StripAfter(fed, " ;", comment);
    } else {
      StripUnchanged(fed);
    }
  }

  /** A travel move whose dict holds a move axis always yields exactly one
      line: the tokens in dict order, ` F` with the class's travel feedrate
      unless the dict gave F, and after ` ;` the comment without its
      trailing white space. */
  lemma NonExtrudeMoveLine(cfg: Config, off: Offsets, coords: Coords, comment: string)
    requires HasMoveAxis(coords)
    ensures
      var move := Tokens("G0", Sanitize(off, coords).value);
      var fed := if HasKey(coords, F) then move else move + " F" + IntToString(cfg.travelFeedrate);
      NonExtrudeMoveSpec(cfg, off, coords, comment)
      == Ok([if comment != "" then fed + " ;" + TrimRight(comment) else fed])
  {
    var fc := Sanitize(off, coords).value;
    GetSanitized(off, coords, F);
    assert |fc| == |coords| > 0;
    G0LinesOne(cfg, fc, comment);
  }

  /** The command word stays at the front of the text. */
  lemma {:induction false} ArcTokensPrefix(head: string, fc: Formatted)
    ensures |ArcTokens(head, fc)| >= |head| && ArcTokens(head, fc)[..|head|] == head
  {
    if fc != [] {
      ArcTokensPrefix(head, fc[..|fc| - 1]);
    }
  }

  /** The arc text grows past its command word exactly when the dict has X or Y. */
  lemma {:induction false} ArcTokensGrow(head: string, fc: Formatted)
    ensures |ArcTokens(head, fc)| > |head| <==> HasKey(fc, X) || HasKey(fc, Y)
  {
    if fc != [] {
      var init, last := fc[..|fc| - 1], fc[|fc| - 1];
      ArcTokensGrow(head, init);
      ArcTokensPrefix(head, init);
      forall a | a == X || a == Y
        ensures HasKey(fc, a) <==> HasKey(init, a) || last.0 == a
      {
        if HasKey(fc, a) && last.0 != a {
          var w :| 0 <= w < |fc| && fc[w].0 == a;
          assert init[w].0 == a;
        }
        if HasKey(init, a) {
          var w :| 0 <= w < |init| && init[w].0 == a;
          assert fc[w].0 == a;
        }
      }
    }
  }

  /** `doCircle` raises ValueError without a move axis and its own Exception
      for three keys or more; otherwise it appends one line when the dict
      has X or Y and nothing when it has neither. */
  lemma DoCircleOutcome(off: Offsets, coords: Coords, comment: string)
    ensures DoCircleSpec(off, coords, comment).Err? <==> !HasMoveAxis(coords) || |coords| >= 3
    ensures !HasMoveAxis(coords) ==> DoCircleSpec(off, coords, comment) == Err(ValueError("coords argument not found!"))
    ensures HasMoveAxis(coords) && |coords| >= 3 ==>
      DoCircleSpec(off, coords, comment) == Err(Exception("Passed 3 or more coordinates to the doCircle funciton."))
    ensures DoCircleSpec(off, coords, comment).Ok? ==>
      |DoCircleSpec(off, coords, comment).value| <= 1
      && (DoCircleSpec(off, coords, comment).value == [] <==> !HasKey(coords, X) && !HasKey(coords, Y))
  {
    if HasMoveAxis(coords) && |coords| < 3 {
      var fc := Sanitize(off, coords).value;
      GetSanitized(off, coords, X);
      GetSanitized(off, coords, Y);
      ArcTokensGrow("G2", fc);
      ArcTokensPrefix("G2", fc);
    }
  }

  /** The arc `doCircle` writes for a centre given as X and Y: I and J are
      the centre with the tip offsets subtracted, as for absolute
      coordinates, although G2 reads I and J relative to the current
      position. */
  lemma DoCircleArc(off: Offsets, i: real, j: real)
    ensures DoCircleSpec(off, [(X, i), (Y, j)], "") == Ok(["G2 I" + Fmt4(i - off.x) + " J" + Fmt4(j - off.y)])
  {
    SanitizePair(off, i, j);
    ArcPair(Sanitize(off, [(X, i), (Y, j)]).value);
  }

  /** Two explicit coordinates `X`, `Y` sanitize to their offset, formatted values. */
  lemma SanitizePair(off: Offsets, i: real, j: real)
    ensures var r := Sanitize(off, [(X, i), (Y, j)]);
      && r.Ok? && |r.value| == 2
      && r.value[0] == (X, Fmt4(i - off.x)) && r.value[1] == (Y, Fmt4(j - off.y))
  {
    var c := [(X, i), (Y, j)];
    assert c[0].0 == X;
    FormatOffsetPair(off, i, j);
  }

  lemma FormatOffsetPair(off: Offsets, i: real, j: real)
    ensures var f := Format(Offset(off, [(X, i), (Y, j)]));
      |f| == 2 && f[0] == (X, Fmt4(i - off.x)) && f[1] == (Y, Fmt4(j - off.y))
  {
    var o := Offset(off, [(X, i), (Y, j)]);
    assert |o| == 2 && o[0] == (X, i - off.x) && o[1] == (Y, j - off.y);
  }

  /** With two formatted values, `doCircle` writes `G2 I<u> J<v>`. */
  lemma ArcPair(fc: Formatted)
    requires |fc| == 2 && fc[0].0 == X && fc[1].0 == Y && IsFixed4(fc[0].1) && IsFixed4(fc[1].1)
    ensures G2Lines(fc, "") == ["G2 I" + fc[0].1 + " J" + fc[1].1]
  {
    var u, v := fc[0].1, fc[1].1;
    assert ArcTokens("G2", fc) == "G2 I" + u + " J" + v by {
      assert fc[..1][..0] == [];
      assert ArcTokens("G2", fc[..1]) == "G2 I" + u;
    }
    var line := "G2 I" + u + " J" + v;
    assert line[|line| - 1] == v[|v| - 1] == v[|v| - 4..][3];
    StripUnchanged(line);
  }

  /** The `doCircle` doctest, with zero offsets. */
  lemma DoCircleExample()
    ensures DoCircleSpec(Offsets(0.0, 0.0, 0.0), [(X, 20.0), (Y, 20.0)], "") == Ok(["G2 I20.0000 J20.0000"])
  {
    Fmt4Example4();
    assert "G2 I" + Fmt4(20.0) + " J" + Fmt4(20.0) == "G2 I20.0000 J20.0000";
    DoCircleArcNoOffset(20.0, 20.0, "G2 I20.0000 J20.0000");
  }

  lemma DoCircleArcNoOffset(i: real, j: real, line: string)
    requires line == "G2 I" + Fmt4(i) + " J" + Fmt4(j)
    ensures DoCircleSpec(Offsets(0.0, 0.0, 0.0), [(X, i), (Y, j)], "") == Ok([line])
  {
    DoCircleArc(Offsets(0.0, 0.0, 0.0), i, j);
  }

  lemma Fmt4Example4()
    ensures Fmt4(20.0) == "20.0000"
  {
    assert NatToString(20) == "20";
    Fmt4Of(20.0, 200000, "20", "0000");
  }

  /** A fixed-order step keeps what was written and, when the key is
      present, appends a value ending in a digit. */
  lemma AddKeyShape(move: string, fc: Formatted, a: Axis)
    requires Sanitized(fc)
    ensures |AddKey(move, fc, a)| >= |move| && AddKey(move, fc, a)[..|move|] == move
    ensures HasKey(fc, a) ==> |AddKey(move, fc, a)| > |move| && IsDigit(AddKey(move, fc, a)[|AddKey(move, fc, a)| - 1])
  {
    if HasKey(fc, a) {
      var v := Get(fc, a).value;
      assert IsFmt4(fc[IndexOf(fc, a)].1);
      assert v[|v| - 1] == v[|v| - 4..][3];
    }
  }

  /** The E step likewise, whichever way the extruder turns. */
  lemma AddEShape(reverse: bool, move: string, e: Option<string>)
    requires e.Some? ==> IsFmt4(e.value)
    ensures |AddE(reverse, move, e)| >= |move| && AddE(reverse, move, e)[..|move|] == move
    ensures e.Some? ==> |AddE(reverse, move, e)| > |move| && IsDigit(AddE(reverse, move, e)[|AddE(reverse, move, e)| - 1])
  {
    if e.Some? {
      var v := e.value;
      assert v[|v| - 1] == v[|v| - 4..][3];
      if reverse && Fixed4Value(v) < 0 {
        assert v[0] == '-';
        assert v[1..][|v| - 2] == v[|v| - 1];
      }
    }
  }

  /** With the extruder reversed, the E written is the negation of the
      requested one (a zero is written `-0.0000`); otherwise it is the
      requested one. */
  lemma ReversedE(move: string, e: string)
    requires IsFmt4(e)
    ensures
      var r := AddE(true, move, Some(e));
      var n := |move| + 2;
      && |r| > n && r[..n] == move + " E"
      && IsFixed4(r[n..]) && Fixed4Value(r[n..]) == -Fixed4Value(e)
      && (r[n] == '-' <==> Fixed4Value(e) >= 0)
    ensures AddE(false, move, Some(e)) == move + " E" + e
  {
    NegateFixed4(e);
    var t := if Fixed4Value(e) >= 0 then "-" + e else e[1..];
    assert AddE(true, move, Some(e)) == move + " E" + t by {
      if Fixed4Value(e) < 0 {
        assert e[0] == '-';
      } else {
        assert move + " E-" + e == move + " E" + t;
      }
    }
    var r := move + " E" + t;
    assert r[|move| + 2..] == t;
  }

  /** The text of `extrudeMove` starts with `G1` and, once a move axis is
      present, ends in a digit. */
  lemma G1TextShape(cfg: Config, fc: Formatted)
    requires Sanitized(fc) && (HasKey(fc, X) || HasKey(fc, Y) || HasKey(fc, Z) || HasKey(fc, E))
    ensures Heads(G1Text(cfg, fc), 'G', 2) && Tails(G1Text(cfg, fc), 2)
  {
    var m1 := AddKey("G1", fc, X);
    var m2 := AddKey(m1, fc, Y);
    var m3 := AddKey(m2, fc, Z);
    GetFmt4(fc, E);
    var m4 := AddE(cfg.reverseEDir, m3, Get(fc, E));
    var m5 := AddKey(m4, fc, F);
    assert Heads("G1", 'G', 2);
    AddKeyStep("G1", fc, X, 'G', 2);
    AddKeyStep(m1, fc, Y, 'G', 2);
    AddKeyStep(m2, fc, Z, 'G', 2);
    AddEStep(cfg.reverseEDir, m3, Get(fc, E), 'G', 2);
    AddKeyStep(m4, fc, F, 'G', 2);
    assert m5 == G1Text(cfg, fc);
  }

  /** At least `n` characters, the first of them `c`. */
  predicate Heads(s: string, c: char, n: nat)
  {
    0 < n <= |s| && s[0] == c
  }

  /** More than `n` characters, the last of them a digit. */
  predicate Tails(s: string, n: nat)
  {
    |s| > n && IsDigit(s[|s| - 1])
  }

  /** One fixed-order step keeps the leading `G` and the trailing digit,
      and leaves a trailing digit when the key is present. */
  lemma AddKeyStep(move: string, fc: Formatted, a: Axis, c: char, n: nat)
    requires Sanitized(fc)
    ensures Heads(move, c, n) ==> Heads(AddKey(move, fc, a), c, n)
    ensures Heads(move, c, n) && (Tails(move, n) || HasKey(fc, a)) ==> Tails(AddKey(move, fc, a), n)
  {
    AddKeyShape(move, fc, a);
    if Heads(move, c, n) {
      assert AddKey(move, fc, a)[0] == AddKey(move, fc, a)[..|move|][0];
    }
  }

  /** The E step likewise. */
  lemma AddEStep(reverse: bool, move: string, e: Option<string>, c: char, n: nat)
    requires e.Some? ==> IsFmt4(e.value)
    ensures Heads(move, c, n) ==> Heads(AddE(reverse, move, e), c, n)
    ensures Heads(move, c, n) && (Tails(move, n) || e.Some?) ==> Tails(AddE(reverse, move, e), n)
  {
    AddEShape(reverse, move, e);
    var r := AddE(reverse, move, e);
    if Heads(move, c, n) {
      assert r[0] == r[..|move|][0];
    }
    if e.None? {
      assert r == move;
    }
  }

  /** The body of `extrudeMove` on a dict with a move axis appends one line. */
  lemma G1LinesOne(cfg: Config, fc: Formatted, comment: string)
    requires Sanitized(fc) && (HasKey(fc, X) || HasKey(fc, Y) || HasKey(fc, Z) || HasKey(fc, E))
    ensures G1Lines(cfg, fc, comment) == [G1Text(cfg, fc) + (if comment != "" then TrimRight(" ; " + comment) else "")]
  {
    G1TextShape(cfg, fc);
    MoveLine(G1Text(cfg, fc), comment);
  }

  /** A `G1` text with something after the command word is kept, with the
      comment appended after ` ; ` less its trailing white space. */
  lemma MoveLine(move: string, comment: string)
    requires Heads(move, 'G', 2) && Tails(move, 2)
    ensures MoveLines(move, comment) == [move + (if comment != "" then TrimRight(" ; " + comment) else "")]
  {
    assert move != "G1";
    if comment != "" {
      assert move + " ; " + comment == move + (" ; " + comment);
      StripTail(move, " ; " + comment);
    } else {
      StripUnchanged(move);
      assert move + "" == move;
    }
  }

  /** An extruding move whose dict holds a move axis yields exactly one line:
      the fixed-order text, then the comment after ` ; ` less any trailing
      white space. */
  lemma ExtrudeMoveLine(cfg: Config, off: Offsets, coords: Coords, comment: string)
    requires HasMoveAxis(coords)
    ensures ExtrudeMoveSpec(cfg, off, coords, comment)
      == Ok([G1Text(cfg, Sanitize(off, coords).value) + (if comment != "" then TrimRight(" ; " + comment) else "")])
  {
    var fc := Sanitize(off, coords).value;
    GetSanitized(off, coords, X);
    GetSanitized(off, coords, Y);
    GetSanitized(off, coords, Z);
    GetSanitized(off, coords, E);
    G1LinesOne(cfg, fc, comment);
  }

  /** Dicts agreeing on key `a` still agree on it after the pipeline. */
  lemma SanitizedLookup(off: Offsets, c1: Coords, c2: Coords, a: Axis)
    requires HasMoveAxis(c1) && HasMoveAxis(c2) && Get(c1, a) == Get(c2, a)
    ensures Get(Sanitize(off, c1).value, a) == Get(Sanitize(off, c2).value, a)
  {
    GetSanitized(off, c1, a);
    GetSanitized(off, c2, a);
  }

  /** The fixed-order texts read the dict only through lookups. */
  lemma FixedOrderLookups(cfg: Config, fc1: Formatted, fc2: Formatted)
    requires Sanitized(fc1) && Sanitized(fc2)
    requires Get(fc1, X) == Get(fc2, X) && Get(fc1, Y) == Get(fc2, Y) && Get(fc1, Z) == Get(fc2, Z)
    requires Get(fc1, E) == Get(fc2, E)
    ensures M92Text(fc1) == M92Text(fc2)
    ensures Get(fc1, F) == Get(fc2, F) ==> G1Text(cfg, fc1) == G1Text(cfg, fc2)
  {
    var m1 := AddKey(AddKey(AddKey("G1", fc1, X), fc1, Y), fc1, Z);
    assert m1 == AddKey(AddKey(AddKey("G1", fc2, X), fc2, Y), fc2, Z);
  }

  /** `extrudeMove` looks keys up by name, so two dicts with the same
      entries in any order give the same outcome and line. */
  lemma ExtrudeMoveOrderFree(cfg: Config, off: Offsets, c1: Coords, c2: Coords, comment: string)
    requires Get(c1, X) == Get(c2, X) && Get(c1, Y) == Get(c2, Y) && Get(c1, Z) == Get(c2, Z)
    requires Get(c1, E) == Get(c2, E) && Get(c1, F) == Get(c2, F)
    ensures ExtrudeMoveSpec(cfg, off, c1, comment) == ExtrudeMoveSpec(cfg, off, c2, comment)
  {
    assert HasMoveAxis(c1) == HasMoveAxis(c2);
    if HasMoveAxis(c1) {
      SanitizedLookup(off, c1, c2, X);
      SanitizedLookup(off, c1, c2, Y);
      SanitizedLookup(off, c1, c2, Z);
      SanitizedLookup(off, c1, c2, E);
      SanitizedLookup(off, c1, c2, F);
      var fc1, fc2 := Sanitize(off, c1).value, Sanitize(off, c2).value;
      FixedOrderLookups(cfg, fc1, fc2);
    }
  }

  /** The line of `setStepsPerUnit`: X, Y, Z, E in that order and its fixed comment. */
  lemma SetStepsPerUnitLine(off: Offsets, coords: Coords)
    requires HasMoveAxis(coords)
    ensures SetStepsPerUnitSpec(off, coords) == Ok([M92Text(Sanitize(off, coords).value) + " ; Set steps per unit."])
  {
    var fc := Sanitize(off, coords).value;
    assert HasKey(fc, X) || HasKey(fc, Y) || HasKey(fc, Z) || HasKey(fc, E) by {
      GetSanitized(off, coords, X);
      GetSanitized(off, coords, Y);
      GetSanitized(off, coords, Z);
      GetSanitized(off, coords, E);
    }
    M92TextShape(fc);
    M92Line(M92Text(fc));
  }

  /** The text of `setStepsPerUnit` starts with `M92` and, once an axis is
      present, runs on past it to a digit. */
  lemma M92TextShape(fc: Formatted)
    requires Sanitized(fc) && (HasKey(fc, X) || HasKey(fc, Y) || HasKey(fc, Z) || HasKey(fc, E))
    ensures Heads(M92Text(fc), 'M', 3) && Tails(M92Text(fc), 3)
  {
    var m1 := AddKey("M92", fc, X);
    var m2 := AddKey(m1, fc, Y);
    var m3 := AddKey(m2, fc, Z);
    assert Heads("M92", 'M', 3);
    AddKeyStep("M92", fc, X, 'M', 3);
    AddKeyStep(m1, fc, Y, 'M', 3);
    AddKeyStep(m2, fc, Z, 'M', 3);
    AddKeyStep(m3, fc, E, 'M', 3);
  }

  /** Such a text is kept, with the fixed comment after it. */
  lemma M92Line(move: string)
    requires Heads(move, 'M', 3) && Tails(move, 3)
    ensures (if move != "M92" then [Strip(move + " ; Set steps per unit.")] else [])
         == [move + " ; Set steps per unit."]
  {
    assert move != "M92";
    var line := move + " ; Set steps per unit.";
    assert line[0] == 'M' && line[|line| - 1] == '.';
    StripUnchanged(line);
  }

  /** A lone E value is written as `M92 E<value>`: the form `startGCode` uses. */
  lemma SetStepsPerUnitE(off: Offsets, e: real)
    ensures SetStepsPerUnitSpec(off, [(E, e)]) == Ok(["M92 E" + Fmt4(e) + " ; Set steps per unit."])
  {
    var c := [(E, e)];
    assert c[0].0 == E;
    SetStepsPerUnitLine(off, c);
    var o := Offset(off, c);
    assert |o| == 1 && o[0] == (E, e);
    var fc := Sanitize(off, c).value;
    assert |fc| == 1 && fc[0] == (E, Fmt4(e));
    M92TextE(fc);
  }

  lemma M92TextE(fc: Formatted)
    requires |fc| == 1 && fc[0].0 == E
    ensures M92Text(fc) == "M92 E" + fc[0].1
  {
    assert !HasKey(fc, X) && !HasKey(fc, Y) && !HasKey(fc, Z);
    assert HasKey(fc, E) by { assert fc[0].0 == E; }
    assert "M92" + " E" == "M92 E";
  }

  /** `setStepsPerUnit` ignores F and the dict order: dicts agreeing on
      X, Y, Z and E give the same outcome and line. */
  lemma SetStepsPerUnitIgnoresF(off: Offsets, c1: Coords, c2: Coords)
    requires Get(c1, X) == Get(c2, X) && Get(c1, Y) == Get(c2, Y) && Get(c1, Z) == Get(c2, Z)
    requires Get(c1, E) == Get(c2, E)
    ensures SetStepsPerUnitSpec(off, c1) == SetStepsPerUnitSpec(off, c2)
  {
    if HasMoveAxis(c1) {
      SanitizedLookup(off, c1, c2, X);
      SanitizedLookup(off, c1, c2, Y);
      SanitizedLookup(off, c1, c2, Z);
      SanitizedLookup(off, c1, c2, E);
      FixedOrderLookups(DefaultConfig, Sanitize(off, c1).value, Sanitize(off, c2).value);
    }
  }

  const RelativePosLine := "G91 ; Set all axes to relative"
  const AbsPosLine := "G90 ; Set all axes to absolute"
  const HomeAxesLine := "G28 ; Home all axes"

  /** The name `writeToFile` writes to: `.gcode` is added unless the name
      already contains it. */
  function GCodeFileName(filename: string): (r: string)
    ensures Contains(r, ".gcode")
    ensures Contains(filename, ".gcode") ==> r == filename
  {
    if Contains(filename, ".gcode") then filename
    else
      var r := filename + ".gcode";
      assert OccursAt(r, ".gcode", |filename|);
      r
  }

  // ----- The printer ------------------------------------------------------

  class MarlinPrinter {
    const filename: string
    const offsets: Offsets
    const cfg: Config
    /** The routine so far, one G-code line per entry. */
    var commands: seq<string>

    constructor (filename: string, cfg: Config, xOffset: real := 0.0, yOffset: real := 0.0, zOffset: real := 0.0)
      ensures this.filename == filename && this.cfg == cfg
      ensures offsets == Offsets(xOffset, yOffset, zOffset)
      ensures commands == []
    {
      this.filename := filename;
      this.cfg := cfg;
      offsets := Offsets(xOffset, yOffset, zOffset);
      commands := [];
    }

    /** `nonExtrudeMove`, as decorated: the pipeline, then the body. */
    method NonExtrudeMove(coords: Coords, comment: string := "") returns (out: Outcome)
      modifies this
      ensures out == OutcomeOf(NonExtrudeMoveSpec(cfg, offsets, coords, comment))
      ensures commands == old(commands) + Emitted(NonExtrudeMoveSpec(cfg, offsets, coords, comment))
    {
      var sane := SanitizeCoords(offsets, coords);
      if sane.Err? {
        return Fail(sane.error);
      }
      EmitG0(sane.value, comment);
      out := Pass;
    }

    /** The body of `nonExtrudeMove`: a travel move, `G0`, the tokens in dict
        order, the default feedrate when F is missing. */
    method EmitG0(fc: Formatted, comment: string)
      modifies this
      ensures commands == old(commands) + G0Lines(cfg, fc, comment)
    {
      var move := "G0";
      var i := 0;
      while i < |fc|
        invariant 0 <= i <= |fc|
        invariant move == Tokens("G0", fc[..i])
      {
        assert fc[..i + 1][..i] == fc[..i];
        var (axis, value) := fc[i];
        move := move + " " + AxisName(axis) + value;
        i := i + 1;
      }
      assert fc[..i] == fc;
      if 'F' !in move {
        move := move + " F" + IntToString(cfg.travelFeedrate);
      }
      if move != "G0" {
        if comment != "" {
          move := move + " ;" + comment;
        }
        commands := commands + [Strip(move)];
      }
    }

    /** `doCircle`, as decorated: the pipeline, the key-count check, then the body. */
    method DoCircle(coords: Coords, comment: string := "") returns (out: Outcome)
      modifies this
      ensures out == OutcomeOf(DoCircleSpec(offsets, coords, comment))
      ensures commands == old(commands) + Emitted(DoCircleSpec(offsets, coords, comment))
    {
      var sane := SanitizeCoords(offsets, coords);
      if sane.Err? {
        return Fail(sane.error);
      }
      if |sane.value| >= 3 {
        return Fail(Exception("Passed 3 or more coordinates to the doCircle funciton."));
      }
      EmitG2(sane.value, comment);
      out := Pass;
    }

    /** The rest of `doCircle`: a full circle around a centre given RELATIVE
        to the current position, `G2` with I from X and J from Y. */
    method EmitG2(fc: Formatted, comment: string)
      modifies this
      ensures commands == old(commands) + G2Lines(fc, comment)
    {
      var move := "G2";
      var i := 0;
      while i < |fc|
        invariant 0 <= i <= |fc|
        invariant move == ArcTokens("G2", fc[..i])
      {
        assert fc[..i + 1][..i] == fc[..i];
        var (axis, value) := fc[i];
        if axis == X {
          move := move + " I" + value;
        }
        if axis == Y {
          move := move + " J" + value;
        }
        i := i + 1;
      }
      assert fc[..i] == fc;
      if move != "G2" {
        if comment != "" {
          move := move + " ; " + comment;
        }
        commands := commands + [Strip(move)];
      }
    }

    /** `extrudeMove`, as decorated: the pipeline, then the body. */
    method ExtrudeMove(coords: Coords, comment: string := "") returns (out: Outcome)
      modifies this
      ensures out == OutcomeOf(ExtrudeMoveSpec(cfg, offsets, coords, comment))
      ensures commands == old(commands) + Emitted(ExtrudeMoveSpec(cfg, offsets, coords, comment))
    {
      var sane := SanitizeCoords(offsets, coords);
      if sane.Err? {
        return Fail(sane.error);
      }
      EmitG1(sane.value, comment);
      out := Pass;
    }

    /** The body of `extrudeMove`: a move that drives the extruder, tokens in
        the fixed order X, Y, Z, E, F. */
    method EmitG1(fc: Formatted, comment: string)
      requires Sanitized(fc)
      modifies this
      ensures commands == old(commands) + G1Lines(cfg, fc, comment)
    {
      var move := G1Move(fc);
      if move != "G1" {
        if comment != "" {
          move := move + " ; " + comment;
        }
        commands := commands + [Strip(move)];
      }
    }

    /** The text `extrudeMove` builds before its comment. */
    method G1Move(fc: Formatted) returns (move: string)
      requires Sanitized(fc)
      ensures move == G1Text(cfg, fc)
    {
      move := "G1";
      if HasKey(fc, X) {
        move := move + " X" + Get(fc, X).value;
      }
      if HasKey(fc, Y) {
        move := move + " Y" + Get(fc, Y).value;
      }
      if HasKey(fc, Z) {
        move := move + " Z" + Get(fc, Z).value;
      }
      ghost var beforeE := move;
      assert beforeE == AddKey(AddKey(AddKey("G1", fc, X), fc, Y), fc, Z);
      GetFmt4(fc, E);
      if HasKey(fc, E) {
        var e := Get(fc, E).value;
        if cfg.reverseEDir {
          if Fixed4Value(e) >= 0 {
            move := move + " E-" + e;
          } else if '-' in e {
            move := move + " E" + e[1..];
          }
        } else {
          move := move + " E" + e;
        }
      }
      assert move == AddE(cfg.reverseEDir, beforeE, Get(fc, E));
      ghost var beforeF := move;
      if HasKey(fc, F) {
        move := move + " F" + Get(fc, F).value;
      }
      assert move == AddKey(beforeF, fc, F);
    }

    /** `setStepsPerUnit`, as decorated: the pipeline, then the body. */
    method SetStepsPerUnit(coords: Coords) returns (out: Outcome)
      modifies this
      ensures out == OutcomeOf(SetStepsPerUnitSpec(offsets, coords))
      ensures commands == old(commands) + Emitted(SetStepsPerUnitSpec(offsets, coords))
    {
      var sane := SanitizeCoords(offsets, coords);
      if sane.Err? {
        return Fail(sane.error);
      }
      EmitM92(sane.value);
      out := Pass;
    }

    /** The body of `setStepsPerUnit`: `M92` with X, Y, Z, E in that order. */
    method EmitM92(fc: Formatted)
      modifies this
      ensures commands == old(commands) + M92Lines(fc)
    {
      var move := "M92";
      if HasKey(fc, X) {
        move := move + " X" + Get(fc, X).value;
      }
      if HasKey(fc, Y) {
        move := move + " Y" + Get(fc, Y).value;
      }
      if HasKey(fc, Z) {
        move := move + " Z" + Get(fc, Z).value;
      }
      if HasKey(fc, E) {
        move := move + " E" + Get(fc, E).value;
      }
      if move != "M92" {
        move := move + " ; Set steps per unit.";
        commands := commands + [Strip(move)];
      }
    }

    method RelativePos()
      modifies this
      ensures commands == old(commands) + [RelativePosLine]
    {
      commands := commands + [RelativePosLine];
    }

    method AbsPos()
      modifies this
      ensures commands == old(commands) + [AbsPosLine]
    {
      commands := commands + [AbsPosLine];
    }

    method HomeAxes()
      modifies this
      ensures commands == old(commands) + [HomeAxesLine]
    {
      commands := commands + [HomeAxesLine];
    }
  }
}
