/** Atomic charge extraction through Multiwfn: the script for each charge
    method, the parsers of the `.chg` file and of the MBIS multipole file,
    and the method selection and atom-order checks that tie the runs of
    `run_charges_to_npz` together.

    Files are given as their lines. `float()` is the parameter `num`: it
    maps a token to its value, or to None where Python raises ValueError.
    What Multiwfn leaves behind for a script is the parameter `run`. */
module Charges {
  import opened Wrappers
  import opened PyStr
  import opened Multiwfn

  // ----- Errors -----

  /** The four per-atom quantities of an MBIS multipole file. */
  datatype Quantity = ChargesQ | DipolesQ | CartesianQ | TracelessQ

  /** The exceptions that end an extraction. */
  datatype Failure =
    | UnsupportedMethod(methodName: string)       // ValueError
    | NoChargeData                            // ValueError from `_parse_chg`
    | NotANumber(token: string)               // ValueError from `float()`
    | CountMismatch(quantity: Quantity)       // ValueError from `_parse_mbis_multipoles`
    | NoMethods                               // ValueError
    | OrderingMismatch                        // ValueError
    | WavefunctionNotFound                    // FileNotFoundError
    | MissingChargeFile(methodName: string)       // FileNotFoundError
    | MissingMultipoleFile                    // FileNotFoundError
    | NoAtomicData                            // RuntimeError
    | ExecutionFailed(error: ExecutionError)  // MultiwfnExecutionError

  // ----- Methods and their scripts -----

  const SUPPORTED_METHODS: seq<string> :=
    ["hirshfeld", "vdd", "becke", "adch", "chelpg", "mk", "cm5", "mbis"]

  /** The keystrokes after the wavefunction path for each method. */
  const METHOD_SCRIPTS: map<string, seq<string>> := map[
    "hirshfeld" := ["7", "1", "1", "y", "0", "q"],
    "vdd" := ["7", "2", "1", "y", "0", "q"],
    "becke" := ["7", "10", "0", "y", "0", "q"],
    "adch" := ["7", "11", "1", "y", "0", "q"],
    "chelpg" := ["7", "12", "1", "y", "0", "0", "q"],
    "mk" := ["7", "13", "1", "y", "0", "0", "q"],
    "cm5" := ["7", "16", "1", "y", "0", "q"],
    "mbis" := ["7", "20", "-3", "-4", "1", "n", "y", "y", "0", "0", "q"]
  ]

  /** Every supported method has a script and every script belongs to a
      supported method, so `_build_script` never raises inside
      `run_charges_to_npz`. */
  lemma SupportedHaveScripts()
    ensures forall m :: m in SUPPORTED_METHODS <==> m in METHOD_SCRIPTS
  {
    forall m | m in METHOD_SCRIPTS ensures m in SUPPORTED_METHODS {
      assert m in METHOD_SCRIPTS.Keys;
    }
  }

  /** `_build_script`: the resolved wavefunction path, then the method's
      keystrokes, composed into one script. */
  function BuildScript(methodName: string, wavefunction: string): (r: Result<string, Failure>)
    ensures r.Ok? <==> methodName in METHOD_SCRIPTS
    ensures r.Err? ==> r.error == UnsupportedMethod(methodName)
  {
    if methodName !in METHOD_SCRIPTS then Err(UnsupportedMethod(methodName))
    else Ok(ComposeScript([wavefunction] + METHOD_SCRIPTS[methodName]))
  }

  /** Multiwfn reads the script back line by line: the path first, then
      exactly the method's keystrokes. */
  lemma BuildScriptLines(methodName: string, wavefunction: string)
    requires methodName in METHOD_SCRIPTS && '\n' !in wavefunction
    ensures SplitOn(BuildScript(methodName, wavefunction).value, '\n')
      == [wavefunction] + METHOD_SCRIPTS[methodName] + [""]
  {
    var lines := [wavefunction] + METHOD_SCRIPTS[methodName];
    assert NoNewlines(lines) by {
      forall i | 0 <= i < |lines| ensures '\n' !in lines[i] {
        if i > 0 {
          assert lines[i] in METHOD_SCRIPTS[methodName];
        }
      }
    }
    ComposeSplitRoundTrip(lines);
  }

  // ----- Number conversion -----

  /** `map(float, tokens)` consumed left to right: the values, or the error
      of the first token that is not a number. */
  function ToReals(tokens: seq<string>, num: string -> Option<real>): (r: Result<seq<real>, Failure>)
    ensures r.Ok? <==> forall i :: 0 <= i < |tokens| ==> num(tokens[i]).Some?
    ensures r.Ok? ==> (|r.value| == |tokens|
      && forall i :: 0 <= i < |tokens| ==> r.value[i] == num(tokens[i]).value)
    ensures r.Err? ==> r.error.NotANumber? && r.error.token in tokens && num(r.error.token).None?
    decreases |tokens|
  {
    if tokens == [] then Ok([])
    else
      match num(tokens[0])
      case None => Err(NotANumber(tokens[0]))
      case Some(v) =>
        match ToReals(tokens[1..], num)
        case Err(e) => Err(e)
        case Ok(rest) => Ok([v] + rest)
  }

  // ----- `_parse_chg` -----

  /** A `.chg` file: element symbols, Cartesian coordinates and charges. */
  datatype ChgData = ChgData(atoms: seq<string>, coords: seq<seq<real>>, charges: seq<real>)

  /** What `_parse_chg` sees in a line: nothing when the stripped line is
      blank, or else its whitespace-separated fields. */
  function ChgFields(raw: string): Option<seq<string>> {
    var line := Strip(raw);
    if line == [] then None else Some(SplitWs(line))
  }

  /** A line the loop keeps: not blank, and at least five fields. */
  predicate Accepts(f: Option<seq<string>>) {
    f.Some? && |f.value| >= 5
  }

  /** One accepted line: field 0 is the atom, fields 1-3 its coordinates
      and field 4 its charge. */
  function ChgAdd(d: ChgData, parts: seq<string>, num: string -> Option<real>): Result<ChgData, Failure>
    requires |parts| >= 5
  {
    match ToReals(parts[1..5], num)
    case Err(e) => Err(e)
    case Ok(v) => Ok(ChgData(d.atoms + [parts[0]], d.coords + [v[..3]], d.charges + [v[3]]))
  }

  /** Each line's fields, as `ChgFields` reads them. */
  function ChgRows(lines: seq<string>): (rows: seq<Option<seq<string>>>)
    ensures |rows| == |lines|
    ensures forall k :: 0 <= k < |lines| ==> rows[k] == ChgFields(lines[k])
  {
    seq(|lines|, k requires 0 <= k < |lines| => ChgFields(lines[k]))
  }

  /** The `.chg` loop over the lines read so far, given their fields. */
  function ChgScan(rows: seq<Option<seq<string>>>, num: string -> Option<real>): Result<ChgData, Failure> {
    if rows == [] then Ok(ChgData([], [], []))
    else
      match ChgScan(rows[..|rows| - 1], num)
      case Err(e) => Err(e)
      case Ok(d) =>
        var f := rows[|rows| - 1];
        if !Accepts(f) then Ok(d) else ChgAdd(d, f.value, num)
  }

  /** `_parse_chg` over the lines of the file. */
  function ParseChgSpec(lines: seq<string>, num: string -> Option<real>): Result<ChgData, Failure> {
    match ChgScan(ChgRows(lines), num)
    case Err(e) => Err(e)
    case Ok(d) => if d.atoms == [] then Err(NoChargeData) else Ok(d)
  }

  /** The fields of the accepted lines, in file order: the reference for
      what the parser keeps. */
  function Accepted(rows: seq<Option<seq<string>>>): (kept: seq<seq<string>>)
    ensures forall k :: 0 <= k < |kept| ==> |kept[k]| >= 5
  {
    if rows == [] then []
    else
      var f := rows[|rows| - 1];
      Accepted(rows[..|rows| - 1]) + (if Accepts(f) then [f.value] else [])
  }

  /** The first field of each row. */
  function FirstFields(rows: seq<seq<string>>): (r: seq<string>)
    requires forall k :: 0 <= k < |rows| ==> rows[k] != []
    ensures |r| == |rows|
  {
    seq(|rows|, k requires 0 <= k < |rows| => rows[k][0])
  }

  /** A row whose four numeric fields all convert. */
  predicate Converts(parts: seq<string>, num: string -> Option<real>) {
    |parts| >= 5 && forall j :: 1 <= j < 5 ==> num(parts[j]).Some?
  }

  predicate AllConvert(rows: seq<seq<string>>, num: string -> Option<real>) {
    forall k :: 0 <= k < |rows| ==> Converts(rows[k], num)
  }

  /** The parallel outputs of the `.chg` parser. */
  predicate Parallel(d: ChgData) {
    |d.coords| == |d.atoms| && |d.charges| == |d.atoms|
    && forall i :: 0 <= i < |d.coords| ==> |d.coords[i]| == 3
  }

  lemma ChgAddConverts(d: ChgData, parts: seq<string>, num: string -> Option<real>)
    requires |parts| >= 5
    ensures ChgAdd(d, parts, num).Ok? <==> Converts(parts, num)
    ensures ChgAdd(d, parts, num).Err? ==> ChgAdd(d, parts, num).error.NotANumber?
  {
    forall j | 0 <= j < 4 ensures parts[1..5][j] == parts[j + 1] { }
  }

  /** An accepted line adds its first field as the atom, one coordinate
      triple and one charge. */
  lemma ChgAddRow(d: ChgData, parts: seq<string>, num: string -> Option<real>)
    requires |parts| >= 5 && Parallel(d) && ChgAdd(d, parts, num).Ok?
    ensures ChgAdd(d, parts, num).value.atoms == d.atoms + [parts[0]]
    ensures Parallel(ChgAdd(d, parts, num).value)
  {
    var v := ToReals(parts[1..5], num).value;
    var d1 := ChgAdd(d, parts, num).value;
    assert |v| == 4;
    forall i | 0 <= i < |d1.coords| ensures |d1.coords[i]| == 3 {
      if i < |d.coords| {
        assert d1.coords[i] == d.coords[i];
      }
    }
  }

  lemma AllConvertSnoc(rows: seq<seq<string>>, last: seq<string>, num: string -> Option<real>)
    ensures AllConvert(rows + [last], num) <==> AllConvert(rows, num) && Converts(last, num)
  {
    var all := rows + [last];
    if AllConvert(rows, num) && Converts(last, num) {
      forall k | 0 <= k < |all| ensures Converts(all[k], num) {
        if k < |rows| {
          assert all[k] == rows[k];
        }
      }
    }
    if AllConvert(all, num) {
      assert all[|rows|] == last;
      forall k | 0 <= k < |rows| ensures Converts(rows[k], num) {
        assert all[k] == rows[k];
      }
    }
  }

  lemma FirstFieldsSnoc(rows: seq<seq<string>>, last: seq<string>)
    requires forall k :: 0 <= k < |rows| ==> rows[k] != []
    requires last != []
    ensures FirstFields(rows + [last]) == FirstFields(rows) + [last[0]]
  {
    var all := rows + [last];
    forall k | 0 <= k < |all| ensures FirstFields(all)[k] == (FirstFields(rows) + [last[0]])[k] {
      if k < |rows| {
        assert all[k] == rows[k];
      }
    }
  }

  /** The scan fails exactly when some accepted line has a numeric field
      that does not convert. */
  lemma {:induction false} ChgScanOk(rows: seq<Option<seq<string>>>, num: string -> Option<real>)
    ensures ChgScan(rows, num).Ok? <==> AllConvert(Accepted(rows), num)
    ensures ChgScan(rows, num).Err? ==> ChgScan(rows, num).error.NotANumber?
    decreases |rows|
  {
    if rows != [] {
      var prefix := rows[..|rows| - 1];
      var f := rows[|rows| - 1];
      ChgScanOk(prefix, num);
      if Accepts(f) {
        AllConvertSnoc(Accepted(prefix), f.value, num);
        if ChgScan(prefix, num).Ok? {
          ChgAddConverts(ChgScan(prefix, num).value, f.value, num);
        }
      } else {
        assert Accepted(rows) == Accepted(prefix) + [] == Accepted(prefix);
        assert ChgScan(rows, num) == ChgScan(prefix, num);
      }
    }
  }

  /** A successful scan keeps exactly the accepted lines, in order: one atom
      (the first field) per accepted line, with one coordinate triple and
      one charge beside it. */
  lemma {:induction false} ChgScanRows(rows: seq<Option<seq<string>>>, num: string -> Option<real>)
    ensures ChgScan(rows, num).Ok? ==>
      ChgScan(rows, num).value.atoms == FirstFields(Accepted(rows)) && Parallel(ChgScan(rows, num).value)
    decreases |rows|
  {
    if rows != [] && ChgScan(rows, num).Ok? {
      var prefix := rows[..|rows| - 1];
      ChgScanRows(prefix, num);
      ChgRowsStep(ChgScan(prefix, num).value, Accepted(prefix), rows[|rows| - 1], num);
    }
  }

  /** One line of the scan keeps the atoms equal to the first fields of
      the accepted rows, and the outputs parallel. */
  lemma ChgRowsStep(d: ChgData, kept: seq<seq<string>>, f: Option<seq<string>>, num: string -> Option<real>)
    requires forall k :: 0 <= k < |kept| ==> |kept[k]| >= 5
    requires d.atoms == FirstFields(kept) && Parallel(d)
    ensures var n := if !Accepts(f) then Ok(d) else ChgAdd(d, f.value, num);
      n.Ok? ==> n.value.atoms == FirstFields(kept + (if Accepts(f) then [f.value] else [])) && Parallel(n.value)
  {
    if Accepts(f) {
      if ChgAdd(d, f.value, num).Ok? {
        ChgAddRow(d, f.value, num);
        FirstFieldsSnoc(kept, f.value);
      }
    } else {
      assert kept + [] == kept;
    }
  }

  /** `_parse_chg` fails for want of data exactly when the scan succeeds
      and no line was accepted. */
  lemma ParseChgEmpty(lines: seq<string>, num: string -> Option<real>)
    ensures ParseChgSpec(lines, num) == Err(NoChargeData) <==>
      ChgScan(ChgRows(lines), num).Ok? && Accepted(ChgRows(lines)) == []
  {
    var rows := ChgRows(lines);
    ChgScanOk(rows, num);
    ChgScanRows(rows, num);
    if ChgScan(rows, num).Ok? {
      assert |ChgScan(rows, num).value.atoms| == |Accepted(rows)|;
    }
  }

  lemma {:induction false} ChgScanErrorSticks(rows: seq<Option<seq<string>>>, i: nat, num: string -> Option<real>, e: Failure)
    requires i <= |rows| && ChgScan(rows[..i], num) == Err(e)
    ensures ChgScan(rows, num) == Err(e)
    decreases |rows| - i
  {
    if i < |rows| {
      assert rows[..i + 1][..i] == rows[..i];
      ChgScanErrorSticks(rows, i + 1, num, e);
    } else {
      assert rows[..i] == rows;
    }
  }

  /** One more line of the scan: skipped lines leave it, accepted ones
      extend it by `ChgAdd`. */
  lemma ChgScanNext(rows: seq<Option<seq<string>>>, i: nat, num: string -> Option<real>)
    requires i < |rows|
    ensures ChgScan(rows[..i], num).Ok? && !Accepts(rows[i]) ==> ChgScan(rows[..i + 1], num) == ChgScan(rows[..i], num)
    ensures ChgScan(rows[..i], num).Ok? && Accepts(rows[i]) ==>
      ChgScan(rows[..i + 1], num) == ChgAdd(ChgScan(rows[..i], num).value, rows[i].value, num)
  {
    assert rows[..i + 1][..i] == rows[..i];
  }

  /** One pass of the `_parse_chg` loop: a blank or short line is skipped,
      any other appends its atom, coordinates and charge. */
  method ChgLine(d: ChgData, raw: string, num: string -> Option<real>) returns (r: Result<ChgData, Failure>)
    ensures r == (if !Accepts(ChgFields(raw)) then Ok(d) else ChgAdd(d, ChgFields(raw).value, num))
  {
    var fields := ChgFields(raw);
    if fields.None? {
      return Ok(d);
    }
    var parts := fields.value;
    if |parts| < 5 {
      return Ok(d);
    }
    var xyzq := ToReals(parts[1..5], num);
    if xyzq.Err? {
      return Err(xyzq.error);
    }
    var v := xyzq.value;
    assert |v| == 4;
    return Ok(ChgData(d.atoms + [parts[0]], d.coords + [v[..3]], d.charges + [v[3]]));
  }

  /** `_parse_chg`: the loop appending to `atoms`, `coords` and `charges`. */
  method ParseChg(lines: seq<string>, num: string -> Option<real>) returns (r: Result<ChgData, Failure>)
    ensures r == ParseChgSpec(lines, num)
  {
    ghost var rows := ChgRows(lines);
    var atoms: seq<string> := [];
    var coords: seq<seq<real>> := [];
    var charges: seq<real> := [];
    for i := 0 to |lines|
      invariant ChgScan(rows[..i], num) == Ok(ChgData(atoms, coords, charges))
    {
      ChgScanNext(rows, i, num);
      assert rows[i] == ChgFields(lines[i]);
      var next := ChgLine(ChgData(atoms, coords, charges), lines[i], num);
      if next.Err? {
        ChgScanErrorSticks(rows, i + 1, num, next.error);
        return Err(next.error);
      }
      atoms, coords, charges := next.value.atoms, next.value.coords, next.value.charges;
    }
    assert rows[..|lines|] == rows;
    if atoms == [] {
      return Err(NoChargeData);
    }
    return Ok(ChgData(atoms, coords, charges));
  }

  // ----- `_parse_mbis_multipoles` -----

  datatype Section = NoSection | ChargesSec | DipolesSec | CartesianSec | TracelessSec

  /** What a line is to the multipole loop. */
  datatype MbisLine = Blank | HeaderLine(opens: Section) | StopLine | DataLine(parts: seq<string>)

  /** The loop variables of `_parse_mbis_multipoles`; `stopped` is set by the
      `break`. */
  datatype MbisState = MbisState(section: Section, charges: seq<real>, dipoles: seq<seq<real>>,
                                 cartesian: seq<seq<real>>, traceless: seq<seq<real>>, stopped: bool)

  /** The parsed multipoles, one entry or row per atom. */
  datatype Multipoles = Multipoles(charges: seq<real>, dipoles: seq<seq<real>>,
                                   cartesian: seq<seq<real>>, traceless: seq<seq<real>>)

  const MBIS_START: MbisState := MbisState(NoSection, [], [], [], [], false)

  /** The tests of the loop body, in source order: blank, the four section
      headers, the stop line, and otherwise a data line. */
  function Classify(raw: string): (k: MbisLine)
    ensures k.HeaderLine? ==> k.opens != NoSection
  {
    var line := Strip(raw);
    if line == [] then Blank
    else if StartsWith(line, "Atomic charges") then HeaderLine(ChargesSec)
    else if StartsWith(line, "Atomic dipoles") then HeaderLine(DipolesSec)
    else if StartsWith(line, "Atomic quadrupoles, Cartesian") then HeaderLine(CartesianSec)
    else if StartsWith(line, "Atomic quadrupoles, Traceless") then HeaderLine(TracelessSec)
    else if StartsWith(line, "Atomic to molecular condensed") then StopLine
    else DataLine(SplitWs(line))
  }

  /** The fewest fields a data row of the section needs. */
  function MinFields(s: Section): nat {
    match s
    case NoSection => 0
    case ChargesSec => 2
    case DipolesSec => 4
    case CartesianSec => 7
    case TracelessSec => 7
  }

  /** Appends the converted fields to the open section's list: the charge
      itself, or the dipole or quadrupole tuple as one row. */
  function Append(st: MbisState, v: seq<real>): MbisState
    requires st.section == ChargesSec ==> |v| == 1
  {
    match st.section
    case NoSection => st
    case ChargesSec => st.(charges := st.charges + [v[0]])
    case DipolesSec => st.(dipoles := st.dipoles + [v])
    case CartesianSec => st.(cartesian := st.cartesian + [v])
    case TracelessSec => st.(traceless := st.traceless + [v])
  }

  /** A data line: rows outside a section, or with too few fields, are
      dropped; otherwise fields 1 up to the minimum are converted and
      appended. */
  function AddRow(st: MbisState, parts: seq<string>, num: string -> Option<real>): (r: Result<MbisState, Failure>)
    ensures r.Ok? ==> r.value.section == st.section && r.value.stopped == st.stopped
  {
    if st.section == NoSection || |parts| < MinFields(st.section) then Ok(st)
    else
      match ToReals(parts[1..MinFields(st.section)], num)
      case Err(e) => Err(e)
      case Ok(v) => Ok(Append(st, v))
  }

  /** One line of the multipole loop, before any `break`. */
  function MbisStep(st: MbisState, k: MbisLine, num: string -> Option<real>): Result<MbisState, Failure> {
    match k
    case Blank => Ok(st)
    case HeaderLine(s) => Ok(st.(section := s))
    case StopLine => Ok(st.(stopped := true))
    case DataLine(parts) => AddRow(st, parts, num)
  }

  /** Each line as the loop body classifies it. */
  function MbisKinds(lines: seq<string>): (ks: seq<MbisLine>)
    ensures |ks| == |lines|
    ensures forall i :: 0 <= i < |lines| ==> ks[i] == Classify(lines[i])
  {
    seq(|lines|, i requires 0 <= i < |lines| => Classify(lines[i]))
  }

  /** The multipole loop over the classified lines read so far; after the
      `break` the remaining lines are not looked at. */
  function MbisScan(ks: seq<MbisLine>, num: string -> Option<real>): Result<MbisState, Failure> {
    if ks == [] then Ok(MBIS_START)
    else
      match MbisScan(ks[..|ks| - 1], num)
      case Err(e) => Err(e)
      case Ok(st) => if st.stopped then Ok(st) else MbisStep(st, ks[|ks| - 1], num)
  }

  /** The count checks, in the order the source makes them. */
  function MbisFinish(st: MbisState, atomCount: int): Result<Multipoles, Failure> {
    if |st.charges| != atomCount then Err(CountMismatch(ChargesQ))
    else if |st.dipoles| != atomCount then Err(CountMismatch(DipolesQ))
    else if |st.cartesian| != atomCount then Err(CountMismatch(CartesianQ))
    else if |st.traceless| != atomCount then Err(CountMismatch(TracelessQ))
    else Ok(Multipoles(st.charges, st.dipoles, st.cartesian, st.traceless))
  }

  /** `_parse_mbis_multipoles` over the lines of the file. */
  function ParseMbisSpec(lines: seq<string>, atomCount: int, num: string -> Option<real>): Result<Multipoles, Failure> {
    match MbisScan(MbisKinds(lines), num)
    case Err(e) => Err(e)
    case Ok(st) => MbisFinish(st, atomCount)
  }

  /** Rows have the arity of their tuples: three dipole components and six
      quadrupole components. */
  predicate RowsShaped(st: MbisState) {
    (forall i :: 0 <= i < |st.dipoles| ==> |st.dipoles[i]| == 3)
    && (forall i :: 0 <= i < |st.cartesian| ==> |st.cartesian[i]| == 6)
    && (forall i :: 0 <= i < |st.traceless| ==> |st.traceless[i]| == 6)
  }

  /** The lists other than the open section's are equal. */
  predicate OthersKept(st: MbisState, st1: MbisState) {
    && (st.section != ChargesSec ==> st1.charges == st.charges)
    && (st.section != DipolesSec ==> st1.dipoles == st.dipoles)
    && (st.section != CartesianSec ==> st1.cartesian == st.cartesian)
    && (st.section != TracelessSec ==> st1.traceless == st.traceless)
  }

  /** How many entries the open section's list holds. */
  function OpenCount(st: MbisState): nat {
    match st.section
    case NoSection => 0
    case ChargesSec => |st.charges|
    case DipolesSec => |st.dipoles|
    case CartesianSec => |st.cartesian|
    case TracelessSec => |st.traceless|
  }

  /** A data line changes only the list of the open section, and grows it
      by one row exactly when the section is open and the line has the
      section's minimum number of fields (2 for charges, 4 for dipoles, 7
      for either quadrupole kind) whose values convert; it fails only on a
      field that does not convert. The row arities are kept. */
  lemma AddRowEffect(st: MbisState, parts: seq<string>, num: string -> Option<real>)
    requires RowsShaped(st)
    ensures var r := AddRow(st, parts, num);
      && (r.Err? ==> st.section != NoSection && |parts| >= MinFields(st.section) && r.error.NotANumber?)
      && (r.Ok? ==> (RowsShaped(r.value) && OthersKept(st, r.value)
            && r.value.section == st.section && r.value.stopped == st.stopped))
      && (r.Ok? ==> (OpenCount(r.value) == OpenCount(st) + 1
            <==> st.section != NoSection && |parts| >= MinFields(st.section)))
      && (r.Ok? && (st.section == NoSection || |parts| < MinFields(st.section)) ==> r.value == st)
  {
  }

  /** Header lines switch the section and change nothing else; the stop line
      only stops; blank lines change nothing. */
  lemma MbisStepControl(st: MbisState, raw: string, num: string -> Option<real>)
    ensures var k := Classify(raw);
      && (k.HeaderLine? ==> MbisStep(st, k, num) == Ok(st.(section := k.opens)))
      && (k.StopLine? ==> MbisStep(st, k, num) == Ok(st.(stopped := true)))
      && (k.Blank? ==> MbisStep(st, k, num) == Ok(st))
      && (k.HeaderLine? <==> var line := Strip(raw);
            line != [] && (StartsWith(line, "Atomic charges") || StartsWith(line, "Atomic dipoles")
              || StartsWith(line, "Atomic quadrupoles, Cartesian") || StartsWith(line, "Atomic quadrupoles, Traceless")))
  {
  }

  /** Data lines before the first section header contribute nothing. */
  lemma {:induction false} NoHeaderNoRows(ks: seq<MbisLine>, num: string -> Option<real>)
    requires forall i :: 0 <= i < |ks| ==> !ks[i].HeaderLine?
    ensures MbisScan(ks, num).Ok?
    ensures var st := MbisScan(ks, num).value;
      st.section == NoSection && st.charges == [] && st.dipoles == [] && st.cartesian == [] && st.traceless == []
    decreases |ks|
  {
    if ks != [] {
      NoHeaderNoRows(ks[..|ks| - 1], num);
    }
  }

  /** Once the stop line has been read, later lines change nothing. */
  lemma {:induction false} MbisStopIgnoresRest(ks: seq<MbisLine>, k: nat, num: string -> Option<real>)
    requires k < |ks| && ks[k].StopLine?
    ensures MbisScan(ks, num) == MbisScan(ks[..k + 1], num)
    ensures MbisScan(ks, num).Ok? ==> MbisScan(ks, num).value.stopped
    decreases |ks| - k
  {
    if k + 1 < |ks| {
      var prefix := ks[..|ks| - 1];
      assert prefix[k] == ks[k] && prefix[..k + 1] == ks[..k + 1];
      MbisStopIgnoresRest(prefix, k, num);
    } else {
      assert ks[..k + 1] == ks;
    }
  }

  /** Every state the scan reaches keeps the row arities. */
  lemma {:induction false} MbisScanShaped(ks: seq<MbisLine>, num: string -> Option<real>)
    ensures MbisScan(ks, num).Ok? ==> RowsShaped(MbisScan(ks, num).value)
    decreases |ks|
  {
    if ks != [] {
      var prefix := ks[..|ks| - 1];
      MbisScanShaped(prefix, num);
      var k := ks[|ks| - 1];
      if MbisScan(prefix, num).Ok? && !MbisScan(prefix, num).value.stopped && k.DataLine? {
        AddRowEffect(MbisScan(prefix, num).value, k.parts, num);
      }
    }
  }

  /** The result has `atom_count` entries of each quantity, with rows of the
      tuple arities; a failing count check names the first quantity, in
      the order charges, dipoles, Cartesian, traceless, whose count is
      off. */
  lemma MbisCounts(lines: seq<string>, atomCount: int, num: string -> Option<real>)
    requires MbisScan(MbisKinds(lines), num).Ok?
    ensures var st := MbisScan(MbisKinds(lines), num).value;
      var r := ParseMbisSpec(lines, atomCount, num);
      && (r.Ok? <==> (|st.charges| == atomCount && |st.dipoles| == atomCount
            && |st.cartesian| == atomCount && |st.traceless| == atomCount))
      && (r.Ok? ==> RowsShaped(st) && r.value == Multipoles(st.charges, st.dipoles, st.cartesian, st.traceless))
      && (r == Err(CountMismatch(ChargesQ)) <==> |st.charges| != atomCount)
      && (r == Err(CountMismatch(DipolesQ)) <==> (|st.charges| == atomCount && |st.dipoles| != atomCount))
      && (r == Err(CountMismatch(CartesianQ)) <==> (|st.charges| == atomCount && |st.dipoles| == atomCount
            && |st.cartesian| != atomCount))
      && (r == Err(CountMismatch(TracelessQ)) <==> (|st.charges| == atomCount && |st.dipoles| == atomCount
            && |st.cartesian| == atomCount && |st.traceless| != atomCount))
  {
    MbisScanShaped(MbisKinds(lines), num);
  }

  lemma {:induction false} MbisScanDone(ks: seq<MbisLine>, i: nat, num: string -> Option<real>)
    requires i <= |ks|
    requires MbisScan(ks[..i], num).Err? || MbisScan(ks[..i], num).value.stopped
    ensures MbisScan(ks, num) == MbisScan(ks[..i], num)
    decreases |ks| - i
  {
    if i < |ks| {
      assert ks[..i + 1][..i] == ks[..i];
      MbisScanDone(ks, i + 1, num);
    } else {
      assert ks[..i] == ks;
    }
  }

  lemma MbisScanNext(ks: seq<MbisLine>, i: nat, st: MbisState, num: string -> Option<real>)
    requires i < |ks| && MbisScan(ks[..i], num) == Ok(st) && !st.stopped
    ensures MbisScan(ks[..i + 1], num) == MbisStep(st, ks[i], num)
  {
    assert ks[..i + 1][..i] == ks[..i];
  }

  /** `_parse_mbis_multipoles`: the loop with its `section` variable and its
      `break`, then the four count checks. */
  method ParseMbisMultipoles(lines: seq<string>, atomCount: int, num: string -> Option<real>)
    returns (r: Result<Multipoles, Failure>)
    ensures r == ParseMbisSpec(lines, atomCount, num)
  {
    ghost var ks := MbisKinds(lines);
    var st := MBIS_START;
    var i := 0;
    while i < |lines|
      invariant i <= |lines|
      invariant MbisScan(ks[..i], num) == Ok(st) && !st.stopped
    {
      MbisScanNext(ks, i, st, num);
      var k := Classify(lines[i]);
      i := i + 1;
      match k {
        case Blank =>
        case HeaderLine(s) =>
          st := st.(section := s);
        case StopLine =>
          st := st.(stopped := true);
          break;
        case DataLine(parts) =>
          var row := AddRow(st, parts, num);
          if row.Err? {
            MbisScanDone(ks, i, num);
            return Err(row.error);
          }
          st := row.value;
      }
    }
    if st.stopped {
      MbisScanDone(ks, i, num);
    } else {
      assert ks[..i] == ks;
    }
    r := MbisFinish(st, atomCount);
  }

  // ----- `run_charges_to_npz` -----

  /** What one Multiwfn run leaves behind: its completed process, the
      `<stem>.chg` file's lines if it was written, and the
      `<stem>.mbis_mpl` file's lines if it was written. */
  datatype MethodOutput = MethodOutput(process: CompletedProcess, chg: Option<seq<string>>, mpl: Option<seq<string>>)

  /** The arrays of the `.npz` payload. */
  datatype ArrayValue = StrArray(strs: seq<string>) | RealArray(reals: seq<real>) | RealRows(rows: seq<seq<real>>)

  /** The variables the method loop updates: `atoms` and `coordinates` from
      the first method, `charges` per method, and the MBIS multipoles. */
  datatype RunState = RunState(atoms: Option<seq<string>>, coords: seq<seq<real>>,
                               charges: map<string, seq<real>>, mbis: Option<Multipoles>)

  const RUN_START: RunState := RunState(None, [], map[], None)

  const MBIS: string := "mbis"

  /** The selection loop over the methods read so far. */
  function SelectScan(methods: seq<string>): Result<seq<string>, Failure> {
    if methods == [] then Ok([])
    else
      match SelectScan(methods[..|methods| - 1])
      case Err(e) => Err(e)
      case Ok(sel) =>
        var m := methods[|methods| - 1];
        if m !in SUPPORTED_METHODS then Err(UnsupportedMethod(m)) else Ok(sel + [m])
  }

  /** `selected_methods`, or the error for an unsupported or empty
      selection. */
  function SelectSpec(methods: seq<string>): Result<seq<string>, Failure> {
    match SelectScan(methods)
    case Err(e) => Err(e)
    case Ok(sel) => if sel == [] then Err(NoMethods) else Ok(sel)
  }

  /** The charge file a run left behind, parsed. */
  function ChgOfOutput(m: string, out: MethodOutput, num: string -> Option<real>): Result<ChgData, Failure> {
    if out.chg.None? then Err(MissingChargeFile(m)) else ParseChgSpec(out.chg.value, num)
  }

  /** The charge file one method's run yields, parsed. */
  function ChgOf(m: string, wavefunction: string, run: string -> MethodOutput, num: string -> Option<real>): Result<ChgData, Failure> {
    match BuildScript(m, wavefunction)
    case Err(e) => Err(e)
    case Ok(script) => ChgOfOutput(m, run(script), num)
  }

  /** One pass of the method loop: build and run the script, then handle
      what the run left behind. */
  function MethodStep(st: RunState, m: string, wavefunction: string, run: string -> MethodOutput,
                      num: string -> Option<real>): Result<RunState, Failure>
  {
    match BuildScript(m, wavefunction)
    case Err(e) => Err(e)
    case Ok(script) => AfterRun(st, m, run(script), num)
  }

  /** Check the exit status, parse the charge file and record it. */
  function AfterRun(st: RunState, m: string, out: MethodOutput, num: string -> Option<real>): Result<RunState, Failure> {
    match CheckExitCode(out.process)
    case Err(e) => Err(ExecutionFailed(e))
    case Ok(_) =>
      match ChgOfOutput(m, out, num)
      case Err(e) => Err(e)
      case Ok(d) => Record(st, m, d, out.mpl, num)
  }

  /** Check the atom order against the first method, take the atoms and
      coordinates from the first method, record the charges, and for MBIS
      parse the multipole file. */
  function Record(st: RunState, m: string, d: ChgData, mpl: Option<seq<string>>, num: string -> Option<real>): Result<RunState, Failure> {
    if st.atoms.Some? && d.atoms != st.atoms.value then Err(OrderingMismatch)
    else
      var st1 := if st.atoms.None? then st.(atoms := Some(d.atoms), coords := d.coords) else st;
      var st2 := st1.(charges := st1.charges[m := d.charges]);
      if m != MBIS then Ok(st2) else RecordMbis(st2, mpl, num)
  }

  /** The MBIS pass: the multipole file, counted against the atoms. */
  function RecordMbis(st: RunState, mpl: Option<seq<string>>, num: string -> Option<real>): Result<RunState, Failure>
    requires st.atoms.Some?
  {
    if mpl.None? then Err(MissingMultipoleFile)
    else
      match ParseMbisSpec(mpl.value, |st.atoms.value|, num)
      case Err(e) => Err(e)
      case Ok(mp) => Ok(st.(mbis := Some(mp)))
  }

  /** The method loop over the selected methods run so far. */
  function RunAll(sel: seq<string>, wavefunction: string, run: string -> MethodOutput,
                  num: string -> Option<real>): Result<RunState, Failure>
  {
    if sel == [] then Ok(RUN_START)
    else
      match RunAll(sel[..|sel| - 1], wavefunction, run, num)
      case Err(e) => Err(e)
      case Ok(st) => MethodStep(st, sel[|sel| - 1], wavefunction, run, num)
  }

  /** `f"charges_{method}"`. */
  function ChargeKey(m: string): string {
    "charges_" + m
  }

  lemma ChargeKeyInjective()
    ensures forall a, b :: ChargeKey(a) == ChargeKey(b) ==> a == b
  {
    forall a, b | ChargeKey(a) == ChargeKey(b) ensures a == b {
      assert a == ChargeKey(a)[8..] && b == ChargeKey(b)[8..];
    }
  }

  /** One `charges_<method>` array per recorded method. */
  function ChargeArrays(charges: map<string, seq<real>>): map<string, ArrayValue> {
    ChargeKeyInjective();
    map m | m in charges :: ChargeKey(m) := RealArray(charges[m])
  }

  /** The four MBIS arrays. */
  function MbisArrays(mp: Multipoles): map<string, ArrayValue> {
    map["mbis_charges_raw" := RealArray(mp.charges), "mbis_dipoles" := RealRows(mp.dipoles),
        "mbis_quadrupole_cartesian" := RealRows(mp.cartesian), "mbis_quadrupole_traceless" := RealRows(mp.traceless)]
  }

  /** The `atoms` and `coordinates_angstrom` arrays. */
  function BaseArrays(st: RunState): map<string, ArrayValue>
    requires st.atoms.Some?
  {
    map["atoms" := StrArray(st.atoms.value), "coordinates_angstrom" := RealRows(st.coords)]
  }

  /** The payload written to the `.npz` archive. */
  function Payload(st: RunState): map<string, ArrayValue>
    requires st.atoms.Some?
  {
    var base := BaseArrays(st);
    match st.mbis
    case None => base + ChargeArrays(st.charges)
    case Some(mp) => base + ChargeArrays(st.charges) + MbisArrays(mp)
  }

  /** `run_charges_to_npz`, up to writing the archive: the payload, or the
      exception that ends the run. `wavefunctionIsFile` is whether the
      resolved wavefunction path names an existing file. */
  function RunChargesSpec(methods: seq<string>, wavefunctionIsFile: bool, wavefunction: string,
                          run: string -> MethodOutput, num: string -> Option<real>): Result<map<string, ArrayValue>, Failure>
  {
    if !wavefunctionIsFile then Err(WavefunctionNotFound)
    else
      match SelectSpec(methods)
      case Err(e) => Err(e)
      case Ok(sel) =>
        match RunAll(sel, wavefunction, run, num)
        case Err(e) => Err(e)
        case Ok(st) => if st.atoms.None? then Err(NoAtomicData) else Ok(Payload(st))
  }

  // ----- Properties of the run -----

  /** `methods[i]` is the first method outside `SUPPORTED_METHODS`. */
  predicate FirstUnsupported(methods: seq<string>, i: int) {
    0 <= i < |methods| && methods[i] !in SUPPORTED_METHODS
    && forall j :: 0 <= j < i ==> methods[j] in SUPPORTED_METHODS
  }

  lemma {:induction false} SelectScanAll(methods: seq<string>)
    ensures SelectScan(methods).Ok? <==> forall i :: 0 <= i < |methods| ==> methods[i] in SUPPORTED_METHODS
    ensures SelectScan(methods).Ok? ==> SelectScan(methods).value == methods
    decreases |methods|
  {
    if methods != [] {
      var prefix := methods[..|methods| - 1];
      SelectScanAll(prefix);
      var last := methods[|methods| - 1];
      assert methods == prefix + [last];
      SupportedSnoc(prefix, last);
    }
  }

  lemma SupportedSnoc(prefix: seq<string>, last: string)
    ensures (forall i :: 0 <= i < |prefix + [last]| ==> (prefix + [last])[i] in SUPPORTED_METHODS) <==>
      (forall i :: 0 <= i < |prefix| ==> prefix[i] in SUPPORTED_METHODS) && last in SUPPORTED_METHODS
  {
    var all := prefix + [last];
    assert all[|prefix|] == last;
    assert forall i :: 0 <= i < |prefix| ==> all[i] == prefix[i];
  }

  lemma {:induction false} SelectScanFirst(methods: seq<string>)
    ensures forall i :: FirstUnsupported(methods, i) ==> SelectScan(methods) == Err(UnsupportedMethod(methods[i]))
    ensures SelectScan(methods).Err? ==> SelectScan(methods).error.UnsupportedMethod?
    decreases |methods|
  {
    if methods != [] {
      var prefix := methods[..|methods| - 1];
      SelectScanFirst(prefix);
      forall i | FirstUnsupported(methods, i) ensures SelectScan(methods) == Err(UnsupportedMethod(methods[i])) {
        if i < |prefix| {
          assert FirstUnsupported(prefix, i);
        } else {
          SelectScanAll(prefix);
          assert forall j :: 0 <= j < |prefix| ==> prefix[j] == methods[j];
        }
      }
    }
  }

  /** The selection is the given methods when all are supported and there
      is at least one; otherwise the first unsupported method is reported,
      and an empty list raises "No charge analysis methods specified". */
  lemma SelectSpecResult(methods: seq<string>)
    ensures SelectSpec(methods).Ok? <==> methods != [] && forall i :: 0 <= i < |methods| ==> methods[i] in SUPPORTED_METHODS
    ensures SelectSpec(methods).Ok? ==> SelectSpec(methods).value == methods
    ensures methods == [] ==> SelectSpec(methods) == Err(NoMethods)
    ensures forall i :: FirstUnsupported(methods, i) ==> SelectSpec(methods) == Err(UnsupportedMethod(methods[i]))
    ensures SelectSpec(methods).Err? ==> SelectSpec(methods).error.UnsupportedMethod? || SelectSpec(methods).error == NoMethods
  {
    SelectScanAll(methods);
    SelectScanFirst(methods);
  }

  lemma {:induction false} MbisScanErr(ks: seq<MbisLine>, num: string -> Option<real>)
    ensures MbisScan(ks, num).Err? ==> MbisScan(ks, num).error.NotANumber?
    decreases |ks|
  {
    if ks != [] {
      MbisScanErr(ks[..|ks| - 1], num);
    }
  }

  /** The four MBIS quantities have exactly `atomCount` entries each. */
  predicate MbisCounted(mp: Multipoles, atomCount: int) {
    |mp.charges| == atomCount && |mp.dipoles| == atomCount
    && |mp.cartesian| == atomCount && |mp.traceless| == atomCount
  }

  /** The errors a method pass can raise. */
  predicate StepError(e: Failure) {
    e !in {NoMethods, NoAtomicData, WavefunctionNotFound}
  }

  lemma RecordMbisEffect(st: RunState, mpl: Option<seq<string>>, num: string -> Option<real>)
    requires st.atoms.Some?
    ensures var r := RecordMbis(st, mpl, num);
      && (r.Ok? ==>
            && r.value.(mbis := st.mbis) == st && r.value.mbis.Some?
            && MbisCounted(r.value.mbis.value, |st.atoms.value|))
      && (r.Err? ==> StepError(r.error))
  {
    if mpl.Some? {
      MbisScanErr(MbisKinds(mpl.value), num);
    }
  }

  lemma RecordEffect(st: RunState, m: string, d: ChgData, mpl: Option<seq<string>>, num: string -> Option<real>)
    ensures var r := Record(st, m, d, mpl, num);
      && (r.Ok? ==>
            && (st.atoms.Some? ==> d.atoms == st.atoms.value)
            && r.value.atoms == (if st.atoms.None? then Some(d.atoms) else st.atoms)
            && r.value.coords == (if st.atoms.None? then d.coords else st.coords)
            && r.value.charges == st.charges[m := d.charges]
            && (m != MBIS ==> r.value.mbis == st.mbis)
            && (m == MBIS ==> r.value.mbis.Some? && MbisCounted(r.value.mbis.value, |r.value.atoms.value|)))
      && (r.Err? ==> StepError(r.error))
  {
    if !(st.atoms.Some? && d.atoms != st.atoms.value) && m == MBIS {
      var st1 := if st.atoms.None? then st.(atoms := Some(d.atoms), coords := d.coords) else st;
      RecordMbisEffect(st1.(charges := st1.charges[m := d.charges]), mpl, num);
    }
  }

  lemma AfterRunEffect(st: RunState, m: string, out: MethodOutput, num: string -> Option<real>)
    ensures var r := AfterRun(st, m, out, num);
      && (r.Ok? ==> ChgOfOutput(m, out, num).Ok? && r == Record(st, m, ChgOfOutput(m, out, num).value, out.mpl, num))
      && (r.Err? ==> StepError(r.error))
  {
    if out.chg.Some? {
      ChgScanOk(ChgRows(out.chg.value), num);
    }
    if CheckExitCode(out.process).Ok? && ChgOfOutput(m, out, num).Ok? {
      RecordEffect(st, m, ChgOfOutput(m, out, num).value, out.mpl, num);
    }
  }

  /** What one pass of the method loop does when it succeeds: the method's
      charge file parsed, with the same atoms as the first method's; the
      first method also sets the atoms and coordinates; the method's
      charges are recorded; an MBIS pass records multipoles counted against
      the atoms. A failing pass raises one of the step errors. */
  lemma MethodStepEffect(st: RunState, m: string, wavefunction: string, run: string -> MethodOutput,
                         num: string -> Option<real>)
    ensures var r := MethodStep(st, m, wavefunction, run, num);
      var c := ChgOf(m, wavefunction, run, num);
      && (r.Ok? ==>
            && c.Ok? && m in SUPPORTED_METHODS
            && (st.atoms.Some? ==> c.value.atoms == st.atoms.value)
            && r.value.atoms == (if st.atoms.None? then Some(c.value.atoms) else st.atoms)
            && r.value.coords == (if st.atoms.None? then c.value.coords else st.coords)
            && r.value.charges == st.charges[m := c.value.charges]
            && (m != MBIS ==> r.value.mbis == st.mbis)
            && (m == MBIS ==> r.value.mbis.Some? && MbisCounted(r.value.mbis.value, |r.value.atoms.value|)))
      && (r.Err? ==> StepError(r.error))
  {
    SupportedHaveScripts();
    var b := BuildScript(m, wavefunction);
    if b.Ok? {
      var out := run(b.value);
      AfterRunEffect(st, m, out, num);
      if AfterRun(st, m, out, num).Ok? {
        RecordEffect(st, m, ChgOfOutput(m, out, num).value, out.mpl, num);
      }
    }
  }

  /** Every selected method's charge file parsed and lists the atoms `st`
      holds; the coordinates are the first method's. */
  predicate AllParsed(st: RunState, sel: seq<string>, wavefunction: string, run: string -> MethodOutput,
                      num: string -> Option<real>)
  {
    && (st.atoms.Some? <==> sel != [])
    && (sel != [] ==>
          && ChgOf(sel[0], wavefunction, run, num).Ok?
          && st.coords == ChgOf(sel[0], wavefunction, run, num).value.coords)
    && forall i :: 0 <= i < |sel| ==>
         && ChgOf(sel[i], wavefunction, run, num).Ok? && st.atoms.Some?
         && ChgOf(sel[i], wavefunction, run, num).value.atoms == st.atoms.value
  }

  /** The charges recorded are those of the selected methods, each from its
      own charge file. */
  ghost predicate AllRecorded(st: RunState, sel: seq<string>, wavefunction: string, run: string -> MethodOutput,
                        num: string -> Option<real>)
  {
    && (forall m :: m in st.charges <==> m in sel)
    && forall i :: 0 <= i < |sel| ==>
         && sel[i] in st.charges && ChgOf(sel[i], wavefunction, run, num).Ok?
         && st.charges[sel[i]] == ChgOf(sel[i], wavefunction, run, num).value.charges
  }

  /** After the loop every selected method has been run: the atoms are
      those of the first method and every method's charge file lists the
      same atoms in the same order; the coordinates are the first
      method's. */
  lemma ParsedSnoc(st: RunState, next: RunState, prefix: seq<string>, m: string, wavefunction: string,
                   run: string -> MethodOutput, num: string -> Option<real>)
    requires AllParsed(st, prefix, wavefunction, run, num) && prefix != []
    requires next.atoms == st.atoms && next.coords == st.coords
    requires ChgOf(m, wavefunction, run, num).Ok? && ChgOf(m, wavefunction, run, num).value.atoms == st.atoms.value
    ensures AllParsed(next, prefix + [m], wavefunction, run, num)
  {
    var sel := prefix + [m];
    assert sel[0] == prefix[0];
    forall i | 0 <= i < |sel|
      ensures ChgOf(sel[i], wavefunction, run, num).Ok?
      ensures ChgOf(sel[i], wavefunction, run, num).value.atoms == next.atoms.value
    {
      if i < |prefix| {
        assert sel[i] == prefix[i];
      } else {
        assert sel[i] == m;
      }
    }
  }

  lemma ParsedFirst(next: RunState, m: string, wavefunction: string, run: string -> MethodOutput,
                    num: string -> Option<real>)
    requires ChgOf(m, wavefunction, run, num).Ok?
    requires next.atoms == Some(ChgOf(m, wavefunction, run, num).value.atoms)
    requires next.coords == ChgOf(m, wavefunction, run, num).value.coords
    ensures AllParsed(next, [m], wavefunction, run, num)
  {
  }

  lemma {:induction false} RunAllParsed(sel: seq<string>, wavefunction: string, run: string -> MethodOutput,
                                        num: string -> Option<real>)
    ensures RunAll(sel, wavefunction, run, num).Ok? ==>
      AllParsed(RunAll(sel, wavefunction, run, num).value, sel, wavefunction, run, num)
    decreases |sel|
  {
    if sel != [] {
      var prefix := sel[..|sel| - 1];
      var m := sel[|sel| - 1];
      assert sel == prefix + [m];
      RunAllParsed(prefix, wavefunction, run, num);
      var prev := RunAll(prefix, wavefunction, run, num);
      var r := RunAll(sel, wavefunction, run, num);
      if prev.Ok? && r.Ok? {
        var st := prev.value;
        MethodStepEffect(st, m, wavefunction, run, num);
        if prefix == [] {
          ParsedFirst(r.value, m, wavefunction, run, num);
        } else {
          ParsedSnoc(st, r.value, prefix, m, wavefunction, run, num);
        }
      }
    }
  }

  /** After the loop each selected method's charges are recorded, from its
      own charge file, and no others. */
  lemma {:induction false} RunAllRecorded(sel: seq<string>, wavefunction: string, run: string -> MethodOutput,
                                          num: string -> Option<real>)
    ensures RunAll(sel, wavefunction, run, num).Ok? ==>
      AllRecorded(RunAll(sel, wavefunction, run, num).value, sel, wavefunction, run, num)
    decreases |sel|
  {
    if sel != [] {
      var prefix := sel[..|sel| - 1];
      var m := sel[|sel| - 1];
      assert sel == prefix + [m];
      RunAllRecorded(prefix, wavefunction, run, num);
      var prev := RunAll(prefix, wavefunction, run, num);
      if prev.Ok? {
        MethodStepEffect(prev.value, m, wavefunction, run, num);
        var r := RunAll(sel, wavefunction, run, num);
        if r.Ok? {
          RecordedSnoc(prev.value, r.value, prefix, m, wavefunction, run, num);
        }
      }
    }
  }

  lemma RecordedSnoc(st: RunState, next: RunState, prefix: seq<string>, m: string, wavefunction: string,
                     run: string -> MethodOutput, num: string -> Option<real>)
    requires AllRecorded(st, prefix, wavefunction, run, num)
    requires ChgOf(m, wavefunction, run, num).Ok?
    requires next.charges == st.charges[m := ChgOf(m, wavefunction, run, num).value.charges]
    ensures AllRecorded(next, prefix + [m], wavefunction, run, num)
  {
    var sel := prefix + [m];
    forall i | 0 <= i < |sel|
      ensures sel[i] in next.charges && ChgOf(sel[i], wavefunction, run, num).Ok?
      ensures next.charges[sel[i]] == ChgOf(sel[i], wavefunction, run, num).value.charges
    {
      if i < |prefix| {
        assert sel[i] == prefix[i];
      } else {
        assert sel[i] == m;
      }
    }
    forall k ensures k in next.charges <==> k in sel {
      assert k in sel <==> k in prefix || k == m;
    }
  }

  /** MBIS multipoles are recorded exactly when MBIS was selected, with one
      entry per atom for each of the four quantities. */
  lemma {:induction false} RunAllMbis(sel: seq<string>, wavefunction: string, run: string -> MethodOutput,
                                      num: string -> Option<real>)
    ensures var r := RunAll(sel, wavefunction, run, num);
      r.Ok? ==>
        && (r.value.mbis.Some? <==> MBIS in sel)
        && (r.value.mbis.Some? ==> r.value.atoms.Some? && MbisCounted(r.value.mbis.value, |r.value.atoms.value|))
    decreases |sel|
  {
    if sel != [] {
      var prefix := sel[..|sel| - 1];
      RunAllMbis(prefix, wavefunction, run, num);
      if RunAll(prefix, wavefunction, run, num).Ok? {
        MethodStepEffect(RunAll(prefix, wavefunction, run, num).value, sel[|sel| - 1], wavefunction, run, num);
      }
    }
  }

  lemma {:induction false} RunAllErrors(sel: seq<string>, wavefunction: string, run: string -> MethodOutput,
                                        num: string -> Option<real>)
    ensures RunAll(sel, wavefunction, run, num).Err? ==>
      StepError(RunAll(sel, wavefunction, run, num).error)
    decreases |sel|
  {
    if sel != [] {
      var prefix := sel[..|sel| - 1];
      RunAllErrors(prefix, wavefunction, run, num);
      if RunAll(prefix, wavefunction, run, num).Ok? {
        MethodStepEffect(RunAll(prefix, wavefunction, run, num).value, sel[|sel| - 1], wavefunction, run, num);
      }
    }
  }

  /** The fixed keys of the payload. */
  const MBIS_KEYS: set<string> := {"mbis_charges_raw", "mbis_dipoles", "mbis_quadrupole_cartesian", "mbis_quadrupole_traceless"}

  lemma ChargeKeyDistinct(m: string)
    ensures ChargeKey(m) != "atoms" && ChargeKey(m) != "coordinates_angstrom" && ChargeKey(m) !in MBIS_KEYS
  {
    assert ChargeKey(m)[1] == 'h';
    assert "atoms"[1] == 't' && "coordinates_angstrom"[1] == 'o';
    assert "mbis_charges_raw"[1] == 'b' && "mbis_dipoles"[1] == 'b';
    assert "mbis_quadrupole_cartesian"[1] == 'b' && "mbis_quadrupole_traceless"[1] == 'b';
  }

  lemma ChargeArraysEntries(charges: map<string, seq<real>>)
    ensures forall m :: m in charges ==>
      && ChargeKey(m) in ChargeArrays(charges)
      && ChargeArrays(charges)[ChargeKey(m)] == RealArray(charges[m])
    ensures forall k :: k in ChargeArrays(charges) ==> exists m :: m in charges && k == ChargeKey(m)
  {
    forall m | m in charges
      ensures ChargeKey(m) in ChargeArrays(charges) && ChargeArrays(charges)[ChargeKey(m)] == RealArray(charges[m])
    {
      ChargeKeyInjective();
    }
    forall k | k in ChargeArrays(charges) ensures exists m :: m in charges && k == ChargeKey(m) {
      assert k in ChargeArrays(charges).Keys;
    }
  }

  /** No `charges_<method>` key is one of the fixed keys. */
  lemma ChargeArraysApart(charges: map<string, seq<real>>)
    ensures "atoms" !in ChargeArrays(charges) && "coordinates_angstrom" !in ChargeArrays(charges)
  {
    ChargeArraysEntries(charges);
    if "atoms" in ChargeArrays(charges) || "coordinates_angstrom" in ChargeArrays(charges) {
      var k := if "atoms" in ChargeArrays(charges) then "atoms" else "coordinates_angstrom";
      var m :| m in charges && k == ChargeKey(m);
      ChargeKeyDistinct(m);
    }
  }

  lemma MbisArraysApart(mp: Multipoles)
    ensures MbisArrays(mp).Keys == MBIS_KEYS
    ensures "atoms" !in MBIS_KEYS && "coordinates_angstrom" !in MBIS_KEYS
  {
    assert "atoms"[1] == 't' && "coordinates_angstrom"[1] == 'o';
    assert "mbis_charges_raw"[1] == 'b' && "mbis_dipoles"[1] == 'b';
    assert "mbis_quadrupole_cartesian"[1] == 'b' && "mbis_quadrupole_traceless"[1] == 'b';
  }

  /** The payload holds `atoms`, `coordinates_angstrom`, one
      `charges_<method>` array per recorded method and, when MBIS ran, the
      four `mbis_*` arrays, and nothing else. */
  lemma PayloadKeys(st: RunState)
    requires st.atoms.Some?
    ensures var p := Payload(st);
      && (forall k :: k in p <==>
            (|| k == "atoms" || k == "coordinates_angstrom"
             || (exists m :: m in st.charges && k == ChargeKey(m))
             || (st.mbis.Some? && k in MBIS_KEYS)))
      && p["atoms"] == StrArray(st.atoms.value)
      && p["coordinates_angstrom"] == RealRows(st.coords)
      && (forall m :: m in st.charges ==> ChargeKey(m) in p && p[ChargeKey(m)] == RealArray(st.charges[m]))
      && (st.mbis.Some? ==> forall k :: k in MBIS_KEYS ==> k in p && p[k] == MbisArrays(st.mbis.value)[k])
  {
    var p := Payload(st);
    var ca := ChargeArrays(st.charges);
    ChargeArraysEntries(st.charges);
    ChargeArraysApart(st.charges);
    if st.mbis.Some? {
      MbisArraysApart(st.mbis.value);
    }
    forall m | m in st.charges ensures ChargeKey(m) in p && p[ChargeKey(m)] == RealArray(st.charges[m]) {
      ChargeKeyDistinct(m);
    }
    forall k | k in p
      ensures || k == "atoms" || k == "coordinates_angstrom"
              || (exists m :: m in st.charges && k == ChargeKey(m))
              || (st.mbis.Some? && k in MBIS_KEYS)
    {
      if k in ca {
      }
    }
  }

  /** The payload of a state that agrees with the selected methods. */
  lemma PayloadOfRun(st: RunState, sel: seq<string>, wavefunction: string, run: string -> MethodOutput,
                     num: string -> Option<real>)
    requires sel != [] && st.atoms.Some?
    requires AllParsed(st, sel, wavefunction, run, num) && AllRecorded(st, sel, wavefunction, run, num)
    requires st.mbis.Some? <==> MBIS in sel
    ensures var p := Payload(st);
      && (forall i :: 0 <= i < |sel| ==>
            && ChgOf(sel[i], wavefunction, run, num).Ok?
            && p["atoms"] == StrArray(ChgOf(sel[i], wavefunction, run, num).value.atoms)
            && ChargeKey(sel[i]) in p
            && p[ChargeKey(sel[i])] == RealArray(ChgOf(sel[i], wavefunction, run, num).value.charges))
      && ("mbis_charges_raw" in p <==> MBIS in sel)
  {
    PayloadKeys(st);
    var p := Payload(st);
    if "mbis_charges_raw" in p && st.mbis.None? {
      assert exists m :: m in st.charges && "mbis_charges_raw" == ChargeKey(m);
      var m :| m in st.charges && "mbis_charges_raw" == ChargeKey(m);
      ChargeKeyDistinct(m);
    }
  }

  /** A run that writes a payload was given a non-empty list of supported
      methods; every method's charge file lists the same atoms, which are
      the payload's `atoms`; each method has its own `charges_<method>`
      array; the MBIS arrays are present exactly when MBIS was selected.
      The "no atomic data collected" error cannot occur. */
  lemma RunChargesResult(methods: seq<string>, wavefunctionIsFile: bool, wavefunction: string,
                         run: string -> MethodOutput, num: string -> Option<real>)
    ensures var r := RunChargesSpec(methods, wavefunctionIsFile, wavefunction, run, num);
      && r != Err(NoAtomicData)
      && (r.Ok? ==>
            && wavefunctionIsFile && methods != []
            && (forall i :: 0 <= i < |methods| ==> methods[i] in SUPPORTED_METHODS)
            && (forall i :: 0 <= i < |methods| ==>
                  && ChgOf(methods[i], wavefunction, run, num).Ok?
                  && r.value["atoms"] == StrArray(ChgOf(methods[i], wavefunction, run, num).value.atoms)
                  && ChargeKey(methods[i]) in r.value
                  && r.value[ChargeKey(methods[i])] == RealArray(ChgOf(methods[i], wavefunction, run, num).value.charges))
            && ("mbis_charges_raw" in r.value <==> MBIS in methods))
  {
    if wavefunctionIsFile {
      SelectSpecResult(methods);
      if SelectSpec(methods).Ok? {
        assert SelectSpec(methods).value == methods;
        RunAllParsed(methods, wavefunction, run, num);
        RunAllRecorded(methods, wavefunction, run, num);
        RunAllMbis(methods, wavefunction, run, num);
        RunAllErrors(methods, wavefunction, run, num);
        var rs := RunAll(methods, wavefunction, run, num);
        if rs.Ok? {
          PayloadOfRun(rs.value, methods, wavefunction, run, num);
        }
      }
    }
  }

  // ----- `run_charges_to_npz`, step by step -----

  lemma {:induction false} RunAllSticks(sel: seq<string>, i: nat, wavefunction: string, run: string -> MethodOutput,
                                        num: string -> Option<real>)
    requires i <= |sel| && RunAll(sel[..i], wavefunction, run, num).Err?
    ensures RunAll(sel, wavefunction, run, num) == RunAll(sel[..i], wavefunction, run, num)
    decreases |sel|
  {
    if i < |sel| {
      var prefix := sel[..|sel| - 1];
      assert prefix[..i] == sel[..i];
      RunAllSticks(prefix, i, wavefunction, run, num);
    } else {
      assert sel[..i] == sel;
    }
  }

  /** The selection loop: every method must be supported; an empty
      selection is refused. */
  method SelectMethods(methods: seq<string>) returns (r: Result<seq<string>, Failure>)
    ensures r == SelectSpec(methods)
  {
    var selected: seq<string> := [];
    for i := 0 to |methods|
      invariant SelectScan(methods[..i]) == Ok(selected)
      invariant forall j :: 0 <= j < i ==> methods[j] in SUPPORTED_METHODS
    {
      assert methods[..i + 1][..i] == methods[..i];
      if methods[i] !in SUPPORTED_METHODS {
        assert FirstUnsupported(methods, i);
        SelectScanFirst(methods);
        return Err(UnsupportedMethod(methods[i]));
      }
      selected := selected + [methods[i]];
    }
    assert methods[..|methods|] == methods;
    if selected == [] {
      return Err(NoMethods);
    }
    return Ok(selected);
  }

  /** One pass of the method loop: build and run the script, check the exit
      status, parse the charge file, check the atom order, record the
      charges and, for MBIS, parse the multipole file. */
  method RunMethod(st: RunState, m: string, wavefunction: string, run: string -> MethodOutput,
                   num: string -> Option<real>) returns (r: Result<RunState, Failure>)
    ensures r == MethodStep(st, m, wavefunction, run, num)
  {
    var script := BuildScript(m, wavefunction);
    if script.Err? {
      return Err(script.error);
    }
    var out := run(script.value);
    var checked := CheckExitCode(out.process);
    if checked.Err? {
      return Err(ExecutionFailed(checked.error));
    }
    if out.chg.None? {
      return Err(MissingChargeFile(m));
    }
    var parsed := ParseChg(out.chg.value, num);
    if parsed.Err? {
      return Err(parsed.error);
    }
    var d := parsed.value;
    var next := st;
    if st.atoms.None? {
      next := next.(atoms := Some(d.atoms), coords := d.coords);
    } else if d.atoms != st.atoms.value {
      return Err(OrderingMismatch);
    }
    next := next.(charges := next.charges[m := d.charges]);
    if m == MBIS {
      if out.mpl.None? {
        return Err(MissingMultipoleFile);
      }
      var multipoles := ParseMbisMultipoles(out.mpl.value, |next.atoms.value|, num);
      if multipoles.Err? {
        return Err(multipoles.error);
      }
      next := next.(mbis := Some(multipoles.value));
    }
    return Ok(next);
  }

  /** The method loop over the selected methods; `st` holds the loop's
      `atoms`, `coordinates`, `charges` and `mbis_data`. */
  method RunMethods(sel: seq<string>, wavefunction: string, run: string -> MethodOutput,
                    num: string -> Option<real>) returns (r: Result<RunState, Failure>)
    ensures r == RunAll(sel, wavefunction, run, num)
  {
    var st := RUN_START;
    for i := 0 to |sel|
      invariant RunAll(sel[..i], wavefunction, run, num) == Ok(st)
    {
      assert sel[..i + 1][..i] == sel[..i];
      var step := RunMethod(st, sel[i], wavefunction, run, num);
      if step.Err? {
        RunAllSticks(sel, i + 1, wavefunction, run, num);
        return Err(step.error);
      }
      st := step.value;
    }
    assert sel[..|sel|] == sel;
    return Ok(st);
  }

  /** `run_charges_to_npz` up to writing the archive. */
  method RunChargesToNpz(methods: seq<string>, wavefunctionIsFile: bool, wavefunction: string,
                         run: string -> MethodOutput, num: string -> Option<real>)
    returns (r: Result<map<string, ArrayValue>, Failure>)
    ensures r == RunChargesSpec(methods, wavefunctionIsFile, wavefunction, run, num)
  {
    if !wavefunctionIsFile {
      return Err(WavefunctionNotFound);
    }
    var sel := SelectMethods(methods);
    if sel.Err? {
      return Err(sel.error);
    }
    var st := RunMethods(sel.value, wavefunction, run, num);
    if st.Err? {
      return Err(st.error);
    }
    if st.value.atoms.None? {
      return Err(NoAtomicData);
    }
    var payload := BuildPayload(st.value);
    return Ok(payload);
  }

  /** Recording one more method's charges adds its one entry. */
  lemma ChargeArraysAdd(charges: map<string, seq<real>>, rest: set<string>, m: string)
    requires m in rest && m in charges
    ensures ChargeArrays(charges - (rest - {m})) == ChargeArrays(charges - rest)[ChargeKey(m) := RealArray(charges[m])]
  {
    ChargeKeyInjective();
    var after := ChargeArrays(charges - (rest - {m}));
    var before := ChargeArrays(charges - rest)[ChargeKey(m) := RealArray(charges[m])];
    ChargeArraysEntries(charges - (rest - {m}));
    ChargeArraysEntries(charges - rest);
    forall k | k in after ensures k in before && after[k] == before[k] {
      var n :| n in charges - (rest - {m}) && k == ChargeKey(n);
    }
    forall k | k in before ensures k in after {
      if k != ChargeKey(m) {
        var n :| n in charges - rest && k == ChargeKey(n);
      }
    }
  }

  lemma UnionUpdate<K, V>(a: map<K, V>, b: map<K, V>, k: K, v: V)
    ensures (a + b)[k := v] == a + b[k := v]
  {
  }

  lemma ChargeArraysNone(charges: map<string, seq<real>>)
    ensures ChargeArrays(charges - charges.Keys) == map[]
  {
    assert charges - charges.Keys == map[];
  }

  lemma ChargeArraysAll(charges: map<string, seq<real>>)
    ensures ChargeArrays(charges - {}) == ChargeArrays(charges)
  {
    assert charges - {} == charges;
  }

  lemma MbisUpdates(a: map<string, ArrayValue>, mp: Multipoles)
    ensures a["mbis_charges_raw" := RealArray(mp.charges)]["mbis_dipoles" := RealRows(mp.dipoles)]
      ["mbis_quadrupole_cartesian" := RealRows(mp.cartesian)]["mbis_quadrupole_traceless" := RealRows(mp.traceless)]
      == a + MbisArrays(mp)
  {
  }

  /** The payload, built as the source does: the fixed arrays, one array per
      method in turn, then the MBIS arrays. */
  method BuildPayload(st: RunState) returns (p: map<string, ArrayValue>)
    requires st.atoms.Some?
    ensures p == Payload(st)
  {
    p := BaseArrays(st);
    var rest := st.charges.Keys;
    ChargeArraysNone(st.charges);
    assert p == p + map[];
    while rest != {}
      invariant rest <= st.charges.Keys
      invariant p == BaseArrays(st) + ChargeArrays(st.charges - rest)
      decreases |rest|
    {
      var m :| m in rest;
      ChargeArraysAdd(st.charges, rest, m);
      UnionUpdate(BaseArrays(st), ChargeArrays(st.charges - rest), ChargeKey(m), RealArray(st.charges[m]));
      p := p[ChargeKey(m) := RealArray(st.charges[m])];
      rest := rest - {m};
    }
    ChargeArraysAll(st.charges);
    if st.mbis.Some? {
      var mp := st.mbis.value;
      MbisUpdates(p, mp);
      p := p["mbis_charges_raw" := RealArray(mp.charges)]["mbis_dipoles" := RealRows(mp.dipoles)]
        ["mbis_quadrupole_cartesian" := RealRows(mp.cartesian)]["mbis_quadrupole_traceless" := RealRows(mp.traceless)];
    }
  }
}
