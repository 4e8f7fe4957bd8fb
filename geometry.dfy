/** Molecular geometry from Multiwfn: the PDB export script, the fixed-column
    PDB parser and the covalent-radius table lookup. */
module Geometry {
  import opened Wrappers
  import opened PyStr
  import opened Multiwfn

  /** One `ATOM`/`HETATM` record: the element symbol and the x, y, z
      coordinates in angstrom. */
  datatype AtomRecord = AtomRecord(element: string, coord: seq<real>)

  /** The exceptions of this module. */
  datatype Failure =
    | NotANumber(token: string)   // `float()` refused a coordinate field
    | NoAtomRecords               // "No atom records parsed from exported PDB."
    | MissingPdb                  // "Multiwfn did not emit the expected PDB ..."
    | ExecutionFailed(error: ExecutionError)

  // ----- `_parse_pdb` -----

  /** `line.startswith(("ATOM", "HETATM"))`. */
  predicate IsAtomLine(line: string) {
    StartsWith(line, "ATOM") || StartsWith(line, "HETATM")
  }

  /** A capitalised symbol: no lower-case first letter, no upper-case letter
      after it. */
  predicate IsCapitalized(e: string) {
    (e == [] || !('a' <= e[0] <= 'z')) && forall i :: 1 <= i < |e| ==> !('A' <= e[i] <= 'Z')
  }

  lemma CapitalizeCapitalizes(s: string)
    ensures IsCapitalized(Capitalize(s))
  {
    var e := Capitalize(s);
    if s != [] {
      forall i | 1 <= i < |e| ensures !('A' <= e[i] <= 'Z') {
        assert e[i] == e[1..][i - 1] == Lower(s[1..])[i - 1];
      }
    }
  }

  /** A capitalised symbol is its own capitalisation. */
  lemma CapitalizeFixed(e: string)
    requires IsCapitalized(e)
    ensures Capitalize(e) == e
  {
    if e != [] {
      assert Capitalize(e)[1..] == Lower(e[1..]);
      assert Lower(e[1..]) == e[1..] by {
        forall i | 0 <= i < |e| - 1 ensures Lower(e[1..])[i] == e[1..][i] {
          assert e[1..][i] == e[i + 1];
        }
      }
      assert Capitalize(e) == [Capitalize(e)[0]] + Capitalize(e)[1..];
      assert e == [e[0]] + e[1..];
    }
  }

  /** The columns of one line that `_parse_pdb` reads: an `ATOM`/`HETATM`
      record's element columns 77-78, atom-name columns 13-16 and the
      coordinate columns 31-38, 39-46 and 47-54, or any other line. */
  datatype PdbLine =
    | Other
    | Atom(element: string, x: string, y: string, z: string)

  /** The columns of a line; slices stop at the end of a short line. */
  function Columns(line: string): (k: PdbLine)
    ensures k.Atom? <==> IsAtomLine(line)
  {
    if !IsAtomLine(line) then Other
    else Atom(ElementOf(Slice(line, 76, 78), Slice(line, 12, 16)), Slice(line, 30, 38), Slice(line, 38, 46), Slice(line, 46, 54))
  }

  /** The element symbol: the element columns stripped, or the atom-name
      columns stripped when those are blank, then capitalised. */
  function ElementOf(symbol: string, name: string): (e: string)
    ensures |e| <= |symbol| || |e| <= |name|
    ensures e == [] <==> Strip(symbol) == [] && Strip(name) == []
  {
    var stripped := Strip(symbol);
    Capitalize(if stripped == [] then Strip(name) else stripped)
  }

  /** The symbol of a record line: at most four characters (so the `U4`
      array of `export_geometry` keeps it whole), capitalised, and empty only
      when both the element and the atom-name columns are blank. */
  lemma ElementShape(line: string)
    requires IsAtomLine(line)
    ensures var e := Columns(line).element;
      && |e| <= 4 && IsCapitalized(e)
      && (e == [] <==> Strip(Slice(line, 76, 78)) == [] && Strip(Slice(line, 12, 16)) == [])
  {
    var stripped := Strip(Slice(line, 76, 78));
    CapitalizeCapitalizes(if stripped == [] then Strip(Slice(line, 12, 16)) else stripped);
  }

  /** A record shorter than 77 characters has no element columns: the
      symbol comes from the atom-name columns 13-16. */
  lemma ShortLineUsesAtomName(line: string)
    requires IsAtomLine(line) && |line| <= 76
    ensures Columns(line).element == Capitalize(Strip(Slice(line, 12, 16)))
  {
    assert Slice(line, 76, 78) == [];
  }

  /** One coordinate field through `float()`. */
  function Coordinate(field: string, num: string -> Option<real>): (r: Result<real, Failure>)
    ensures r.Ok? <==> num(field).Some?
    ensures r.Ok? ==> r.value == num(field).value
    ensures r.Err? ==> r.error == NotANumber(field)
  {
    match num(field)
    case None => Err(NotANumber(field))
    case Some(v) => Ok(v)
  }

  /** The record of one `ATOM`/`HETATM` line: its element and x, y, z; the
      first coordinate field `float()` refuses raises. */
  function RecordOf(k: PdbLine, num: string -> Option<real>): (r: Result<AtomRecord, Failure>)
    requires k.Atom?
    ensures r.Ok? <==> num(k.x).Some? && num(k.y).Some? && num(k.z).Some?
    ensures r.Ok? ==> r.value == AtomRecord(k.element, [num(k.x).value, num(k.y).value, num(k.z).value])
    ensures r.Err? ==> r.error == NotANumber(if num(k.x).None? then k.x else if num(k.y).None? then k.y else k.z)
  {
    var x :- Coordinate(k.x, num);
    var y :- Coordinate(k.y, num);
    var z :- Coordinate(k.z, num);
    Ok(AtomRecord(k.element, [x, y, z]))
  }

  /** The columns of every line. */
  function PdbKinds(lines: seq<string>): (ks: seq<PdbLine>)
    ensures |ks| == |lines|
    ensures forall i :: 0 <= i < |lines| ==> ks[i] == Columns(lines[i])
  {
    seq(|lines|, i requires 0 <= i < |lines| => Columns(lines[i]))
  }

  /** The record lines, in order: the reference for which lines give
      atoms. */
  function AtomKinds(ks: seq<PdbLine>): (r: seq<PdbLine>)
    ensures |r| <= |ks|
    ensures forall i :: 0 <= i < |r| ==> r[i].Atom?
    decreases |ks|
  {
    if ks == [] then []
    else
      var prefix := AtomKinds(ks[..|ks| - 1]);
      if ks[|ks| - 1].Atom? then prefix + [ks[|ks| - 1]] else prefix
  }

  /** The loop of `_parse_pdb` over the lines read so far. */
  function PdbScan(ks: seq<PdbLine>, num: string -> Option<real>): Result<seq<AtomRecord>, Failure>
    decreases |ks|
  {
    if ks == [] then Ok([])
    else
      match PdbScan(ks[..|ks| - 1], num)
      case Err(e) => Err(e)
      case Ok(atoms) =>
        var k := ks[|ks| - 1];
        if k.Other? then Ok(atoms)
        else
          match RecordOf(k, num)
          case Err(e) => Err(e)
          case Ok(a) => Ok(atoms + [a])
  }

  /** `_parse_pdb`: the records, or the error when there are none. */
  function ParsePdbSpec(lines: seq<string>, num: string -> Option<real>): Result<seq<AtomRecord>, Failure> {
    match PdbScan(PdbKinds(lines), num)
    case Err(e) => Err(e)
    case Ok(atoms) => if atoms == [] then Err(NoAtomRecords) else Ok(atoms)
  }

  /** Every record line's coordinates convert. */
  predicate AllAtomsConvert(atoms: seq<PdbLine>, num: string -> Option<real>) {
    forall j :: 0 <= j < |atoms| ==> atoms[j].Atom? && RecordOf(atoms[j], num).Ok?
  }

  lemma AllAtomsConvertSnoc(atoms: seq<PdbLine>, k: PdbLine, num: string -> Option<real>)
    requires k.Atom?
    ensures AllAtomsConvert(atoms + [k], num) <==> AllAtomsConvert(atoms, num) && RecordOf(k, num).Ok?
  {
    var s := atoms + [k];
    assert forall j :: 0 <= j < |atoms| ==> s[j] == atoms[j];
    assert s[|atoms|] == k;
  }

  lemma RecordsSnoc(atoms: seq<PdbLine>, k: PdbLine, records: seq<AtomRecord>, a: AtomRecord, num: string -> Option<real>)
    requires AllAtomsConvert(atoms, num) && |records| == |atoms|
    requires forall j :: 0 <= j < |records| ==> records[j] == RecordOf(atoms[j], num).value
    requires k.Atom? && RecordOf(k, num) == Ok(a)
    ensures forall j :: 0 <= j < |records| + 1 ==> (records + [a])[j] == RecordOf((atoms + [k])[j], num).value
  {
    forall j | 0 <= j < |records| + 1 ensures (records + [a])[j] == RecordOf((atoms + [k])[j], num).value {
      if j < |records| {
        assert (atoms + [k])[j] == atoms[j];
      }
    }
  }

  /** The parser succeeds exactly when every `ATOM`/`HETATM` line has three
      convertible coordinate fields, and then returns one record per such
      line, in order; otherwise `float()`'s error propagates. */
  lemma {:induction false} PdbScanResult(ks: seq<PdbLine>, num: string -> Option<real>)
    ensures var r := PdbScan(ks, num);
      && (r.Ok? <==> AllAtomsConvert(AtomKinds(ks), num))
      && (r.Ok? ==>
            && |r.value| == |AtomKinds(ks)|
            && forall j :: 0 <= j < |r.value| ==> r.value[j] == RecordOf(AtomKinds(ks)[j], num).value)
      && (r.Err? ==> r.error.NotANumber?)
    decreases |ks|
  {
    if ks != [] {
      var prefix := ks[..|ks| - 1];
      var k := ks[|ks| - 1];
      PdbScanResult(prefix, num);
      if k.Atom? {
        AllAtomsConvertSnoc(AtomKinds(prefix), k, num);
        var p := PdbScan(prefix, num);
        if p.Ok? && RecordOf(k, num).Ok? {
          RecordsSnoc(AtomKinds(prefix), k, p.value, RecordOf(k, num).value, num);
        }
      }
    }
  }

  /** "No atom records" is raised exactly when every line parses and none
      is an `ATOM`/`HETATM` line. */
  lemma ParsePdbEmpty(lines: seq<string>, num: string -> Option<real>)
    ensures ParsePdbSpec(lines, num) == Err(NoAtomRecords) <==> PdbScan(PdbKinds(lines), num).Ok? && AtomKinds(PdbKinds(lines)) == []
  {
    PdbScanResult(PdbKinds(lines), num);
  }

  lemma {:induction false} PdbScanSticks(ks: seq<PdbLine>, i: nat, num: string -> Option<real>)
    requires i <= |ks| && PdbScan(ks[..i], num).Err?
    ensures PdbScan(ks, num) == PdbScan(ks[..i], num)
    decreases |ks|
  {
    if i < |ks| {
      var prefix := ks[..|ks| - 1];
      assert prefix[..i] == ks[..i];
      PdbScanSticks(prefix, i, num);
    } else {
      assert ks[..i] == ks;
    }
  }

  /** One more line through the loop. */
  lemma PdbScanStep(ks: seq<PdbLine>, i: nat, atoms: seq<AtomRecord>, num: string -> Option<real>)
    requires i < |ks| && PdbScan(ks[..i], num) == Ok(atoms)
    ensures ks[i].Other? ==> PdbScan(ks[..i + 1], num) == Ok(atoms)
    ensures ks[i].Atom? && RecordOf(ks[i], num).Ok? ==> PdbScan(ks[..i + 1], num) == Ok(atoms + [RecordOf(ks[i], num).value])
    ensures ks[i].Atom? && RecordOf(ks[i], num).Err? ==> PdbScan(ks, num) == Err(RecordOf(ks[i], num).error)
  {
    assert ks[..i + 1][..i] == ks[..i];
    if ks[i].Atom? && RecordOf(ks[i], num).Err? {
      PdbScanSticks(ks, i + 1, num);
    }
  }

  /** `_parse_pdb` over the lines of the file. */
  method ParsePdb(lines: seq<string>, num: string -> Option<real>) returns (r: Result<seq<AtomRecord>, Failure>)
    ensures r == ParsePdbSpec(lines, num)
  {
    ghost var ks := PdbKinds(lines);
    var atoms: seq<AtomRecord> := [];
    for i := 0 to |lines|
      invariant PdbScan(ks[..i], num) == Ok(atoms)
    {
      PdbScanStep(ks, i, atoms, num);
      var line := lines[i];
      if !IsAtomLine(line) {
        continue;
      }
      var element := Strip(Slice(line, 76, 78));
      if element == [] {
        element := Strip(Slice(line, 12, 16));
      }
      element := Capitalize(element);
      var x := num(Slice(line, 30, 38));
      if x.None? {
        return Err(NotANumber(Slice(line, 30, 38)));
      }
      var y := num(Slice(line, 38, 46));
      if y.None? {
        return Err(NotANumber(Slice(line, 38, 46)));
      }
      var z := num(Slice(line, 46, 54));
      if z.None? {
        return Err(NotANumber(Slice(line, 46, 54)));
      }
      atoms := atoms + [AtomRecord(element, [x.value, y.value, z.value])];
    }
    assert ks[..|lines|] == ks;
    if atoms == [] {
      return Err(NoAtomRecords);
    }
    return Ok(atoms);
  }

  // ----- `export_geometry` -----

  /** The keystrokes that load the wavefunction and write a PDB file. */
  function ExportLines(wavefunction: string): seq<string> {
    [wavefunction, "100", "2", "1", "", "0", "0", "q"]
  }

  /** Multiwfn reads back the eight commands, one per line, when the path
      holds no newline. */
  lemma ExportScriptLines(wavefunction: string)
    requires '\n' !in wavefunction
    ensures SplitOn(ComposeScript(ExportLines(wavefunction)), '\n') == ExportLines(wavefunction) + [""]
  {
    var lines := ExportLines(wavefunction);
    assert NoNewlines(lines) by {
      forall i | 0 <= i < |lines| ensures '\n' !in lines[i] {
      }
    }
    ComposeSplitRoundTrip(lines);
  }

  /** What the export run leaves behind: the completed process and the PDB
      file's lines if it was written. */
  datatype ExportOutput = ExportOutput(process: CompletedProcess, pdb: Option<seq<string>>)

  /** The symbols and the stacked coordinates of the records. */
  function Arrays(records: seq<AtomRecord>): (r: (seq<string>, seq<seq<real>>))
    ensures |r.0| == |r.1| == |records|
    ensures forall i :: 0 <= i < |records| ==> r.0[i] == records[i].element && r.1[i] == records[i].coord
  {
    (seq(|records|, i requires 0 <= i < |records| => records[i].element),
     seq(|records|, i requires 0 <= i < |records| => records[i].coord))
  }

  /** `export_geometry`: run the script, read the PDB, and return the symbols
      and coordinates. */
  function ExportGeometry(wavefunction: string, run: string -> ExportOutput, num: string -> Option<real>)
    : Result<(seq<string>, seq<seq<real>>), Failure>
  {
    var out := run(ComposeScript(ExportLines(wavefunction)));
    match CheckExitCode(out.process)
    case Err(e) => Err(ExecutionFailed(e))
    case Ok(_) =>
      if out.pdb.None? then Err(MissingPdb)
      else
        match ParsePdbSpec(out.pdb.value, num)
        case Err(e) => Err(e)
        case Ok(records) => Ok(Arrays(records))
  }

  /** An export that succeeds returns one symbol and one row of three
      coordinates per `ATOM`/`HETATM` line of the PDB, in order. */
  lemma ExportGeometryResult(wavefunction: string, run: string -> ExportOutput, num: string -> Option<real>)
    ensures var r := ExportGeometry(wavefunction, run, num);
      var out := run(ComposeScript(ExportLines(wavefunction)));
      r.Ok? ==>
        && out.pdb.Some?
        && var atoms := AtomKinds(PdbKinds(out.pdb.value));
        && 0 < |r.value.0| == |r.value.1| == |atoms|
        && forall i :: 0 <= i < |atoms| ==>
             && r.value.0[i] == atoms[i].element
             && |r.value.1[i]| == 3
  {
    var out := run(ComposeScript(ExportLines(wavefunction)));
    if out.pdb.Some? {
      PdbScanResult(PdbKinds(out.pdb.value), num);
    }
  }

  // ----- `lookup_covalent_radii` -----

  /** `_COVALENT_RADII`: covalent radii in angstrom, hydrogen to xenon. */
  const COVALENT_RADII: map<string, real> := map[
    "H" := 0.31, "He" := 0.28,
    "Li" := 1.28, "Be" := 0.96, "B" := 0.84, "C" := 0.76, "N" := 0.71, "O" := 0.66, "F" := 0.57, "Ne" := 0.58,
    "Na" := 1.66, "Mg" := 1.41, "Al" := 1.21, "Si" := 1.11, "P" := 1.07, "S" := 1.05, "Cl" := 1.02, "Ar" := 1.06,
    "K" := 2.03, "Ca" := 1.76, "Sc" := 1.70, "Ti" := 1.60, "V" := 1.53, "Cr" := 1.39, "Mn" := 1.39, "Fe" := 1.32,
    "Co" := 1.26, "Ni" := 1.24, "Cu" := 1.32, "Zn" := 1.22, "Ga" := 1.22, "Ge" := 1.20, "As" := 1.19, "Se" := 1.20,
    "Br" := 1.20, "Kr" := 1.16,
    "Rb" := 2.20, "Sr" := 1.95, "Y" := 1.90, "Zr" := 1.75, "Nb" := 1.64, "Mo" := 1.54, "Tc" := 1.47, "Ru" := 1.46,
    "Rh" := 1.42, "Pd" := 1.39, "Ag" := 1.45, "Cd" := 1.44, "In" := 1.42, "Sn" := 1.39, "Sb" := 1.39, "Te" := 1.38,
    "I" := 1.39, "Xe" := 1.40
  ]

  /** `lookup_covalent_radii`: one radius per symbol, in order, each the
      table's entry for that exact symbol or `fallback` when it has none. */
  method LookupCovalentRadii(elements: seq<string>, fallback: real) returns (radii: seq<real>)
    ensures |radii| == |elements|
    ensures forall i :: 0 <= i < |elements| ==>
      radii[i] == (if elements[i] in COVALENT_RADII then COVALENT_RADII[elements[i]] else fallback)
  {
    radii := [];
    for i := 0 to |elements|
      invariant |radii| == i
      invariant forall j :: 0 <= j < i ==>
        radii[j] == (if elements[j] in COVALENT_RADII then COVALENT_RADII[elements[j]] else fallback)
    {
      var symbol := elements[i];
      var radius := if symbol in COVALENT_RADII then COVALENT_RADII[symbol] else fallback;
      radii := radii + [radius];
    }
  }
}
