/** `parse_cp_file` of multiwfn_cli/cp_parser.py over the lines of an already
    read report: a single pass that cuts the text into critical-point records
    at divider headers and fills each record from its `label: value` lines,
    matrix rows, nucleus references and bare numeric lines.

    The specification is a step function over the parse state (`Step`,
    `RunFrom`, `ParseCpFileSpec`); the class `CpParser` holds the variables the
    source's loop and its `finalize_current` closure update, and its methods
    are proved to perform those steps. */
module CpParser {
  import opened Wrappers
  import opened PyStr
  import opened PyDict
  import opened CpNumbers
  import opened CpKeys

  /** A field value, by the Python type the source stores. */
  datatype Value =
    | IntV(i: int)                   // int
    | FloatV(token: string)          // float, given by the token it was parsed from
    | StrV(s: string)                // str
    | ListV(items: seq<Value>)       // list
    | ArrayV(rows: seq<seq<string>>) // 2-D float ndarray of a matrix block
    | MapV(m: Dict<string>)          // the record's key_map dict

  /** One critical point: the dict `parse_cp_file` appends to its result. */
  type Record = Dict<Value>

  /** The exceptions that end a parse. */
  datatype ParseError =
    | InhomogeneousMatrix(matrixLabel: string) // numpy refuses matrix rows of unequal length
    | ValuesNotAList                     // `.append` on a "values" field that is not a list

  /** The variables of the parse loop: the records so far, the open record,
      its provenance map and raw lines, and the pending matrix. */
  datatype ParseState = ParseState(
    cps: seq<Record>,
    current: Option<Record>,
    keyMap: Dict<string>,
    rawLines: seq<string>,
    matrixKey: Option<string>,
    matrixRows: seq<seq<string>>)

  const DIVIDER := "----------------"
  const VALUES_KEY := "values"
  const NUCLEUS_PREFIX := "Corresponding nucleus:"

  function Init(): ParseState {
    ParseState([], None, Empty(), [], None, [])
  }

  // ----- The regular expressions -----

  /** Length of the run of whitespace at `p`. */
  function SpaceRun(s: string, p: nat): (n: nat)
    requires p <= |s|
    ensures p + n <= |s|
    ensures forall i :: p <= i < p + n ==> IsSpace(s[i])
    ensures p + n < |s| ==> !IsSpace(s[p + n])
    decreases |s| - p
  {
    if p < |s| && IsSpace(s[p]) then 1 + SpaceRun(s, p + 1) else 0
  }

  /** Length of the run of characters other than `)` at `p`: `[^)]*`. */
  function LabelRun(s: string, p: nat): (n: nat)
    requires p <= |s|
    ensures p + n <= |s|
    ensures forall i :: p <= i < p + n ==> s[i] != ')'
    ensures p + n < |s| ==> s[p + n] == ')'
    decreases |s| - p
  {
    if p < |s| && s[p] != ')' then 1 + LabelRun(s, p + 1) else 0
  }

  /** `int()` of a string of ASCII digits. */
  function DigitsValue(ds: string): (n: nat)
  {
    if ds == [] then 0 else DigitsValue(ds[..|ds| - 1]) * 10 + (ds[|ds| - 1] as int - '0' as int) % 10
  }

  /** `(\d+)\(([^)]+)\)` at `b`: the number and the parenthesised label. */
  function IndexAndLabelAt(s: string, b: nat): Option<(nat, string)>
    requires b <= |s|
  {
    var d := DigitRun(s, b);
    var o := b + d;
    if d == 0 || !(o < |s| && s[o] == '(') then None
    else
      var l := LabelRun(s, o + 1);
      if l == 0 || o + 1 + l == |s| then None
      else Some((DigitsValue(s[b..o]), s[o + 1..o + 1 + l]))
  }

  /** `header_re = CP\s+(\d+),\s+Type\s+\(([^)]+)\)` matched exactly at `p`. */
  function HeaderAt(s: string, p: nat): Option<(nat, string)>
    requires p <= |s|
  {
    if !StartsWith(s[p..], "CP") then None
    else
      var w1 := SpaceRun(s, p + 2);
      var b := p + 2 + w1;
      var d := DigitRun(s, b);
      var c := b + d;
      if w1 == 0 || d == 0 || !(c < |s| && s[c] == ',') then None
      else
        var w2 := SpaceRun(s, c + 1);
        var t := c + 1 + w2;
        if w2 == 0 || !StartsWith(s[t..], "Type") then None
        else
          var w3 := SpaceRun(s, t + 4);
          var o := t + 4 + w3;
          if w3 == 0 || !(o < |s| && s[o] == '(') then None
          else
            var l := LabelRun(s, o + 1);
            if l == 0 || o + 1 + l == |s| then None
            else Some((DigitsValue(s[b..c]), s[o + 1..o + 1 + l]))
  }

  /** `header_re.search(s[p:])`: the leftmost match. */
  function SearchHeader(s: string, p: nat): Option<(nat, string)>
    requires p <= |s|
    decreases |s| - p
  {
    match HeaderAt(s, p)
    case Some(h) => Some(h)
    case None => if p == |s| then None else SearchHeader(s, p + 1)
  }

  /** `nucleus_re.match(s)` for `Corresponding nucleus:\s*(\d+)\(([^)]+)\)`. */
  function MatchNucleus(s: string): Option<(nat, string)> {
    if !StartsWith(s, NUCLEUS_PREFIX) then None
    else
      var a := |NUCLEUS_PREFIX|;
      IndexAndLabelAt(s, a + SpaceRun(s, a))
  }

  // ----- Line classes -----

  /** A stripped line the loop treats as a record divider. */
  predicate IsDivider(stripped: string) {
    StartsWith(stripped, DIVIDER) && Contains(stripped, "CP") && Contains(stripped, "Type")
  }

  /** A divider that also matches the header pattern: it opens a record. */
  predicate IsValidHeader(line: string) {
    IsDivider(Strip(line)) && SearchHeader(Strip(line), 0).Some?
  }

  /** A label that opens a pending matrix. */
  predicate IsMatrixLabel(key: string) {
    EndsWith(Lower(key), "matrix") || StartsWith(Lower(key), "eigenvectors")
  }

  /** Python truthiness of `matrix_key`. */
  predicate Pending(matrixKey: Option<string>) {
    matrixKey.Some? && matrixKey.value != []
  }

  /** Every row has the length of the first: numpy can build a 2-D array. */
  predicate Rectangular(rows: seq<seq<string>>) {
    forall i :: 0 <= i < |rows| ==> |rows[i]| == |rows[0]|
  }

  function FloatValues(numbers: seq<string>): (vs: seq<Value>)
    ensures |vs| == |numbers|
    ensures forall i :: 0 <= i < |numbers| ==> vs[i] == FloatV(numbers[i])
  {
    seq(|numbers|, i requires 0 <= i < |numbers| => FloatV(numbers[i]))
  }

  // ----- The steps -----

  /** `_finalize_matrix`: writes the pending rows under the sanitised label
      when there is a pending label and at least one row. */
  function FinalizeMatrix(current: Record, matrixKey: Option<string>, rows: seq<seq<string>>, keyMap: Dict<string>)
    : Result<(Record, Dict<string>), ParseError>
  {
    if Pending(matrixKey) && rows != [] then
      if Rectangular(rows) then
        var k := SanitizeKey(matrixKey.value);
        Ok((current.Set(k, ArrayV(rows)), keyMap.Set(k, matrixKey.value)))
      else Err(InhomogeneousMatrix(matrixKey.value))
    else Ok((current, keyMap))
  }

  /** `matrix_key, matrix_rows = _finalize_matrix(...)` on the open record. */
  function Flushed(st: ParseState): Result<ParseState, ParseError>
    requires st.current.Some?
  {
    match FinalizeMatrix(st.current.value, st.matrixKey, st.matrixRows, st.keyMap)
    case Err(e) => Err(e)
    case Ok((cur, km)) => Ok(st.(current := Some(cur), keyMap := km, matrixKey := None, matrixRows := []))
  }

  /** The record `finalize_current` appends. */
  function Completed(st: ParseState): Record
    requires st.current.Some?
  {
    st.current.value.Set("raw_block", StrV(Strip(Join(st.rawLines, "\n")))).Set("key_map", MapV(st.keyMap))
  }

  /** `finalize_current`: closes the open record, if any. */
  function Finalized(st: ParseState): Result<ParseState, ParseError> {
    if st.current.None? then Ok(st)
    else
      match Flushed(st)
      case Err(e) => Err(e)
      case Ok(st1) => Ok(ParseState(st.cps + [Completed(st1)], None, Empty(), [], None, []))
  }

  /** The record a header opens. */
  function NewRecord(index: int, kind: string): Record {
    Empty<Value>().Set("cp_index", IntV(index)).Set("cp_type", StrV(Strip(kind)))
  }

  function SeedKeyMap(): Dict<string> {
    Empty<string>().Set("cp_index", "CP index").Set("cp_type", "CP type")
  }

  function NucleusLine(st: ParseState, index: int, symbol: string): ParseState
    requires st.current.Some?
  {
    st.(current := Some(st.current.value.Set("corresponding_nucleus_index", IntV(index))
                                         .Set("corresponding_nucleus_label", StrV(Strip(symbol)))),
        keyMap := st.keyMap.Set("corresponding_nucleus_index", "Corresponding nucleus index")
                           .Set("corresponding_nucleus_label", "Corresponding nucleus label"))
  }

  /** The field a `label: value` line writes, if any. */
  function LabelValue(value: string): Option<Value> {
    var numbers := ParseNumbers(value);
    if |numbers| == 1 then Some(FloatV(numbers[0]))
    else if |numbers| > 1 then Some(ListV(FloatValues(numbers)))
    else if value != [] then Some(StrV(value))
    else None
  }

  /** The label and the value of a `label: value` line, after the pending
      matrix has been flushed. */
  function LabelFields(st: ParseState, key: string, value: string): ParseState
    requires st.current.Some?
  {
    var k := SanitizeKey(key);
    var st1 :=
      if IsMatrixLabel(key) then st.(matrixKey := Some(key), matrixRows := [], keyMap := st.keyMap.Set(k, key))
      else st;
    match LabelValue(value)
    case Some(v) => st1.(current := Some(st1.current.value.Set(k, v)), keyMap := st1.keyMap.Set(k, key))
    case None => st1
  }

  /** A `label: value` line: split at the first colon, both sides stripped. */
  function LabelLine(st: ParseState, stripped: string): ParseState
    requires st.current.Some? && ':' in stripped
  {
    var parts := SplitFirst(stripped, ':');
    LabelFields(st, Strip(parts.0), Strip(parts.1))
  }

  /** A line without `:` that holds numbers: a matrix row, or a row of the
      "values" field. */
  function NumericLine(st: ParseState, numbers: seq<string>): Result<ParseState, ParseError>
    requires st.current.Some?
  {
    if Pending(st.matrixKey) then Ok(st.(matrixRows := st.matrixRows + [numbers]))
    else
      var cur := st.current.value;
      var row := ListV(FloatValues(numbers));
      var km := st.keyMap.Set(VALUES_KEY, VALUES_KEY);
      if VALUES_KEY !in cur.items then Ok(st.(current := Some(cur.Set(VALUES_KEY, ListV([row]))), keyMap := km))
      else
        match cur.items[VALUES_KEY]
        case ListV(items) => Ok(st.(current := Some(cur.Set(VALUES_KEY, ListV(items + [row]))), keyMap := km))
        case _ => Err(ValuesNotAList)
  }

  /** A divider line: close the open record and open a new one when the
      header pattern matches. */
  function DividerLine(st: ParseState, stripped: string): Result<ParseState, ParseError> {
    match Finalized(st)
    case Err(e) => Err(e)
    case Ok(st1) => Ok(Opened(st1, stripped))
  }

  /** After the open record is closed: a divider that matches the header
      pattern opens a new record. */
  function Opened(st: ParseState, stripped: string): ParseState {
    OpenedWith(st, stripped, HeaderRecord(SearchHeader(stripped, 0)))
  }

  /** The record a header match opens, if there is a match. */
  function HeaderRecord(header: Option<(nat, string)>): Option<Record> {
    match header
    case None => None
    case Some(h) => Some(NewRecord(h.0, h.1))
  }

  function OpenedWith(st: ParseState, stripped: string, record: Option<Record>): ParseState {
    match record
    case None => st
    case Some(r) => st.(current := Some(r), keyMap := SeedKeyMap(), rawLines := [stripped])
  }

  /** A line inside an open record, once it has been added to the raw lines. */
  function ContentLine(st: ParseState, stripped: string): Result<ParseState, ParseError>
    requires st.current.Some?
  {
    if stripped == [] then Flushed(st)
    else
      match MatchNucleus(stripped)
      case Some(n) => Ok(NucleusLine(st, n.0, n.1))
      case None =>
        if ':' in stripped then
          match Flushed(st)
          case Err(e) => Err(e)
          case Ok(st1) => Ok(LabelLine(st1, stripped))
        else
          var numbers := ParseNumbers(stripped);
          if numbers != [] then NumericLine(st, numbers) else Ok(st)
  }

  /** One pass of the loop body of `parse_cp_file`. */
  function Step(st: ParseState, line: string): Result<ParseState, ParseError> {
    var stripped := Strip(line);
    if IsDivider(stripped) then DividerLine(st, stripped)
    else if st.current.None? then Ok(st)
    else ContentLine(st.(rawLines := st.rawLines + [RStripChar(line, '\n')]), stripped)
  }

  /** The loop over `lines`, from state `st`. */
  function RunFrom(st: ParseState, lines: seq<string>): Result<ParseState, ParseError>
  {
    if lines == [] then Ok(st)
    else
      match RunFrom(st, lines[..|lines| - 1])
      case Err(e) => Err(e)
      case Ok(st1) => Step(st1, lines[|lines| - 1])
  }

  /** `parse_cp_file` over the lines of the report. */
  function ParseCpFileSpec(lines: seq<string>): Result<seq<Record>, ParseError> {
    match RunFrom(Init(), lines)
    case Err(e) => Err(e)
    case Ok(st) =>
      match Finalized(st)
      case Err(e) => Err(e)
      case Ok(st1) => Ok(st1.cps)
  }

  function Outcome(failure: Option<ParseError>, st: ParseState): Result<ParseState, ParseError> {
    match failure
    case Some(e) => Err(e)
    case None => Ok(st)
  }

  // ----- The imperative parser -----

  class CpParser {
    var cps: seq<Record>
    var current: Option<Record>
    var keyMap: Dict<string>
    var rawLines: seq<string>
    var matrixKey: Option<string>
    var matrixRows: seq<seq<string>>

    function State(): ParseState
      reads this
    {
      ParseState(cps, current, keyMap, rawLines, matrixKey, matrixRows)
    }

    constructor ()
      ensures State() == Init()
    {
      cps, current, keyMap, rawLines, matrixKey, matrixRows := [], None, Empty(), [], None, [];
    }

    /** `_finalize_matrix` applied to the open record. */
    method FinalizeMatrix() returns (failure: Option<ParseError>)
      requires current.Some?
      modifies this
      ensures Outcome(failure, State()) == Flushed(old(State()))
    {
      if Pending(matrixKey) && matrixRows != [] {
        if !Rectangular(matrixRows) {
          return Some(InhomogeneousMatrix(matrixKey.value));
        }
        var sanitized := SanitizeKey(matrixKey.value);
        current := Some(current.value.Set(sanitized, ArrayV(matrixRows)));
        keyMap := keyMap.Set(sanitized, matrixKey.value);
      }
      matrixKey, matrixRows := None, [];
      return None;
    }

    /** `finalize_current`. */
    method FinalizeCurrent() returns (failure: Option<ParseError>)
      modifies this
      ensures Outcome(failure, State()) == Finalized(old(State()))
    {
      if current.None? {
        return None;
      }
      failure := FinalizeMatrix();
      if failure.Some? {
        return;
      }
      var record := current.value.Set("raw_block", StrV(Strip(Join(rawLines, "\n"))));
      record := record.Set("key_map", MapV(keyMap));
      cps := cps + [record];
      current, keyMap, rawLines, matrixKey, matrixRows := None, Empty(), [], None, [];
    }

    /** A divider line. */
    method Divider(stripped: string) returns (failure: Option<ParseError>)
      modifies this
      ensures Outcome(failure, State()) == DividerLine(old(State()), stripped)
    {
      failure := FinalizeCurrent();
      if failure.Some? {
        return;
      }
      var record := HeaderRecord(SearchHeader(stripped, 0));
      Open(stripped, record);
    }

    /** The header half of a divider line, given the record the header
        search opened. */
    method Open(stripped: string, record: Option<Record>)
      modifies this
      ensures State() == OpenedWith(old(State()), stripped, record)
    {
      if record.Some? {
        current, keyMap, rawLines := record, SeedKeyMap(), [stripped];
      }
    }

    /** A `label: value` line once the pending matrix is flushed. */
    method Label(key: string, value: string)
      requires current.Some?
      modifies this
      ensures State() == LabelFields(old(State()), key, value)
    {
      var sanitized := SanitizeKey(key);
      if IsMatrixLabel(key) {
        matrixKey := Some(key);
        matrixRows := [];
        keyMap := keyMap.Set(sanitized, key);
      }
      var field := LabelValue(value);
      if field.Some? {
        current := Some(current.value.Set(sanitized, field.value));
        keyMap := keyMap.Set(sanitized, key);
      }
    }

    /** A line of numbers outside a label line. */
    method Numbers(numbers: seq<string>) returns (failure: Option<ParseError>)
      requires current.Some?
      modifies this
      ensures Outcome(failure, State()) == NumericLine(old(State()), numbers)
    {
      if Pending(matrixKey) {
        matrixRows := matrixRows + [numbers];
        return None;
      }
      var record := current.value;
      var row := ListV(FloatValues(numbers));
      if VALUES_KEY !in record.items {
        current := Some(record.Set(VALUES_KEY, ListV([row])));
      } else if record.items[VALUES_KEY].ListV? {
        current := Some(record.Set(VALUES_KEY, ListV(record.items[VALUES_KEY].items + [row])));
      } else {
        return Some(ValuesNotAList);
      }
      keyMap := keyMap.Set(VALUES_KEY, VALUES_KEY);
      return None;
    }

    /** A line inside the open record, once added to the raw lines. */
    method Content(stripped: string) returns (failure: Option<ParseError>)
      requires current.Some?
      modifies this
      ensures Outcome(failure, State()) == ContentLine(old(State()), stripped)
    {
      if stripped == [] {
        failure := FinalizeMatrix();
        return;
      }
      var nucleus := MatchNucleus(stripped);
      if nucleus.Some? {
        var record := current.value.Set("corresponding_nucleus_index", IntV(nucleus.value.0));
        current := Some(record.Set("corresponding_nucleus_label", StrV(Strip(nucleus.value.1))));
        keyMap := keyMap.Set("corresponding_nucleus_index", "Corresponding nucleus index");
        keyMap := keyMap.Set("corresponding_nucleus_label", "Corresponding nucleus label");
        return None;
      }
      if ':' in stripped {
        failure := FinalizeMatrix();
        if failure.None? {
          var parts := SplitFirst(stripped, ':');
          Label(Strip(parts.0), Strip(parts.1));
        }
        return;
      }
      var numbers := ParseNumbers(stripped);
      if numbers != [] {
        failure := Numbers(numbers);
      } else {
        failure := None;
      }
    }

    /** The loop body of `parse_cp_file` for one line. */
    method FeedLine(line: string) returns (failure: Option<ParseError>)
      modifies this
      ensures Outcome(failure, State()) == Step(old(State()), line)
    {
      var stripped := Strip(line);
      if IsDivider(stripped) {
        failure := Divider(stripped);
        return;
      }
      if current.None? {
        return None;
      }
      rawLines := rawLines + [RStripChar(line, '\n')];
      failure := Content(stripped);
    }
  }

  lemma {:induction false} RunFromErrorSticks(st: ParseState, lines: seq<string>, i: nat, e: ParseError)
    requires i <= |lines| && RunFrom(st, lines[..i]) == Err(e)
    ensures RunFrom(st, lines) == Err(e)
    decreases |lines| - i
  {
    if i < |lines| {
      assert lines[..i + 1][..i] == lines[..i];
      RunFromErrorSticks(st, lines, i + 1, e);
    } else {
      assert lines[..i] == lines;
    }
  }

  /** `parse_cp_file`: the records of the report, or the exception that ends
      the parse. */
  method ParseCpFile(lines: seq<string>) returns (r: Result<seq<Record>, ParseError>)
    ensures r == ParseCpFileSpec(lines)
  {
    var parser := new CpParser();
    var i := 0;
    while i < |lines|
      invariant 0 <= i <= |lines|
      invariant RunFrom(Init(), lines[..i]) == Ok(parser.State())
    {
      var failure := parser.FeedLine(lines[i]);
      assert lines[..i + 1][..i] == lines[..i];
      if failure.Some? {
        RunFromErrorSticks(Init(), lines, i + 1, failure.value);
        return Err(failure.value);
      }
      i := i + 1;
    }
    assert lines[..i] == lines;
    var failure := parser.FinalizeCurrent();
    if failure.Some? {
      return Err(failure.value);
    }
    return Ok(parser.cps);
  }

  // ----- Records and headers -----

  /** How many lines are valid headers. */
  function ValidHeaderCount(lines: seq<string>): nat {
    if lines == [] then 0
    else ValidHeaderCount(lines[..|lines| - 1]) + (if IsValidHeader(lines[|lines| - 1]) then 1 else 0)
  }

  /** Records closed so far plus the open one. */
  function OpenCount(st: ParseState): nat {
    |st.cps| + (if st.current.Some? then 1 else 0)
  }

  lemma FlushedKeepsRecord(st: ParseState)
    requires st.current.Some? && Flushed(st).Ok?
    ensures Flushed(st).value.cps == st.cps && Flushed(st).value.current.Some?
    ensures Flushed(st).value.rawLines == st.rawLines
    ensures !Pending(Flushed(st).value.matrixKey) && Flushed(st).value.matrixRows == []
  {
  }

  lemma ContentKeepsRecord(st: ParseState, stripped: string)
    requires st.current.Some? && ContentLine(st, stripped).Ok?
    ensures ContentLine(st, stripped).value.cps == st.cps
    ensures ContentLine(st, stripped).value.current.Some?
    ensures ContentLine(st, stripped).value.rawLines == st.rawLines
  {
    if stripped != [] && MatchNucleus(stripped).None? && ':' in stripped {
      FlushedKeepsRecord(st);
    }
  }

  /** A line adds one to the records closed or open exactly when it is a
      valid header. */
  lemma StepCount(st: ParseState, line: string)
    requires Step(st, line).Ok?
    ensures OpenCount(Step(st, line).value) == OpenCount(st) + (if IsValidHeader(line) then 1 else 0)
  {
    var stripped := Strip(line);
    if IsDivider(stripped) {
      DividerCount(st, stripped);
    } else if st.current.Some? {
      ContentKeepsRecord(st.(rawLines := st.rawLines + [RStripChar(line, '\n')]), stripped);
    }
  }

  /** A divider line closes the open record and opens one exactly when the
      header pattern matches. */
  lemma DividerCount(st: ParseState, stripped: string)
    requires DividerLine(st, stripped).Ok?
    ensures OpenCount(DividerLine(st, stripped).value) == OpenCount(st) + (if SearchHeader(stripped, 0).Some? then 1 else 0)
  {
    FinalizedShape(st);
    var f := Finalized(st).value;
    assert OpenCount(f) == OpenCount(st);
    assert DividerLine(st, stripped).value == Opened(f, stripped);
  }

  lemma {:induction false} RunCount(lines: seq<string>)
    requires RunFrom(Init(), lines).Ok?
    ensures OpenCount(RunFrom(Init(), lines).value) == ValidHeaderCount(lines)
  {
    if lines != [] {
      var prefix := lines[..|lines| - 1];
      RunCount(prefix);
      StepCount(RunFrom(Init(), prefix).value, lines[|lines| - 1]);
    }
  }

  /** `parse_cp_file` returns one record per divider line that matches the
      header pattern. */
  lemma ParseCountsValidHeaders(lines: seq<string>)
    requires ParseCpFileSpec(lines).Ok?
    ensures |ParseCpFileSpec(lines).value| == ValidHeaderCount(lines)
  {
    RunCount(lines);
  }

  lemma {:induction false} RunFromAppend(st: ParseState, a: seq<string>, b: seq<string>)
    requires RunFrom(st, a).Ok?
    ensures RunFrom(st, a + b) == RunFrom(RunFrom(st, a).value, b)
    decreases |b|
  {
    if b == [] {
      assert a + b == a;
    } else {
      assert (a + b)[..|a + b| - 1] == a + b[..|b| - 1];
      RunFromAppend(st, a, b[..|b| - 1]);
    }
  }

  lemma {:induction false} NoHeaderStaysInit(prefix: seq<string>)
    requires forall i :: 0 <= i < |prefix| ==> !IsValidHeader(prefix[i])
    ensures RunFrom(Init(), prefix) == Ok(Init())
  {
    if prefix != [] {
      NoHeaderStaysInit(prefix[..|prefix| - 1]);
    }
  }

  /** Lines before the first valid header are dropped. */
  lemma LeadingLinesDropped(prefix: seq<string>, rest: seq<string>)
    requires forall i :: 0 <= i < |prefix| ==> !IsValidHeader(prefix[i])
    ensures ParseCpFileSpec(prefix + rest) == ParseCpFileSpec(rest)
  {
    NoHeaderStaysInit(prefix);
    RunFromAppend(Init(), prefix, rest);
  }

  lemma FinalizedShape(st: ParseState)
    requires Finalized(st).Ok?
    ensures var r := Finalized(st).value;
      && r.current.None?
      && (st.current.Some? ==> |r.cps| == |st.cps| + 1 && r.cps[..|st.cps|] == st.cps)
      && (st.current.None? ==> r.cps == st.cps)
  {
    if st.current.Some? {
      assert (st.cps + [Completed(Flushed(st).value)])[..|st.cps|] == st.cps;
    }
  }

  lemma NewRecordShape(index: int, kind: string)
    ensures NewRecord(index, kind).keys == ["cp_index", "cp_type"]
    ensures NewRecord(index, kind).items == map["cp_index" := IntV(index), "cp_type" := StrV(Strip(kind))]
  {
  }

  lemma SeedKeyMapShape()
    ensures SeedKeyMap().items == map["cp_index" := "CP index", "cp_type" := "CP type"]
  {
  }

  lemma DividerLineShape(st: ParseState, stripped: string)
    requires DividerLine(st, stripped).Ok?
    ensures Finalized(st).Ok?
    ensures var r := DividerLine(st, stripped).value;
      && r.cps == Finalized(st).value.cps
      && (SearchHeader(stripped, 0).None? ==> r.current.None?)
      && (SearchHeader(stripped, 0).Some? ==>
            var h := SearchHeader(stripped, 0).value;
            && r.current.Some?
            && r.current.value.keys == ["cp_index", "cp_type"]
            && r.current.value.items == map["cp_index" := IntV(h.0), "cp_type" := StrV(Strip(h.1))]
            && r.keyMap.items == map["cp_index" := "CP index", "cp_type" := "CP type"]
            && r.rawLines == [stripped])
  {
    var f := Finalized(st);
    assert f.Ok?;
    var search := SearchHeader(stripped, 0);
    if search.Some? {
      NewRecordShape(search.value.0, search.value.1);
      SeedKeyMapShape();
    }
  }

  /** A divider line closes the open record. When it matches the header
      pattern it opens a record holding only `cp_index` and the stripped
      `cp_type`, with the seeded provenance map and the divider as its first
      raw line; otherwise no record is left open. */
  lemma DividerStep(st: ParseState, line: string)
    requires IsDivider(Strip(line)) && Step(st, line).Ok?
    ensures var r := Step(st, line).value;
      && (st.current.Some? ==> |r.cps| == |st.cps| + 1 && r.cps[..|st.cps|] == st.cps)
      && (st.current.None? ==> r.cps == st.cps)
      && (!IsValidHeader(line) ==> r.current.None?)
      && (IsValidHeader(line) ==>
            var h := SearchHeader(Strip(line), 0).value;
            && r.current.Some?
            && r.current.value.keys == ["cp_index", "cp_type"]
            && r.current.value.items == map["cp_index" := IntV(h.0), "cp_type" := StrV(Strip(h.1))]
            && r.keyMap.items == map["cp_index" := "CP index", "cp_type" := "CP type"]
            && r.rawLines == [Strip(line)])
  {
    var stripped := Strip(line);
    assert Step(st, line) == DividerLine(st, stripped);
    DividerLineShape(st, stripped);
    FinalizedShape(st);
  }

  // ----- Well-formed records -----

  /** A record as `parse_cp_file` returns it: the header fields, the raw
      block, the provenance map, and a provenance entry for every other field. */
  ghost predicate WellFormedRecord(rec: Record) {
    && rec.Valid()
    && "cp_index" in rec.items && "cp_type" in rec.items
    && "raw_block" in rec.items && rec.items["raw_block"].StrV?
    && "key_map" in rec.items && rec.items["key_map"].MapV?
    && (forall k :: k in rec.items && k != "raw_block" && k != "key_map" ==> k in rec.items["key_map"].m.items)
  }

  /** The open record carries the header fields and every field it has so far
      has a provenance entry. */
  ghost predicate OpenRecordOk(rec: Record, keyMap: Dict<string>) {
    && rec.Valid() && keyMap.Valid()
    && "cp_index" in rec.items && "cp_type" in rec.items
    && (forall k :: k in rec.items ==> k in keyMap.items)
  }

  ghost predicate Inv(st: ParseState) {
    && (forall i :: 0 <= i < |st.cps| ==> WellFormedRecord(st.cps[i]))
    && (st.current.Some? ==> OpenRecordOk(st.current.value, st.keyMap))
  }

  lemma FlushedInv(st: ParseState)
    requires st.current.Some? && Inv(st) && Flushed(st).Ok?
    ensures Inv(Flushed(st).value)
  {
  }

  lemma CompletedWellFormed(st: ParseState)
    requires st.current.Some? && OpenRecordOk(st.current.value, st.keyMap)
    ensures WellFormedRecord(Completed(st))
  {
    var rec1 := st.current.value.Set("raw_block", StrV(Strip(Join(st.rawLines, "\n"))));
    var rec := rec1.Set("key_map", MapV(st.keyMap));
    assert rec == Completed(st);
    assert rec.items["key_map"] == MapV(st.keyMap);
    assert forall k :: k in rec.items && k != "raw_block" && k != "key_map" ==> k in st.current.value.items;
  }

  lemma AppendWellFormed(cps: seq<Record>, rec: Record)
    requires forall i :: 0 <= i < |cps| ==> WellFormedRecord(cps[i])
    requires WellFormedRecord(rec)
    ensures forall i :: 0 <= i < |cps + [rec]| ==> WellFormedRecord((cps + [rec])[i])
  {
    forall i | 0 <= i < |cps + [rec]|
      ensures WellFormedRecord((cps + [rec])[i])
    {
      if i < |cps| {
        assert (cps + [rec])[i] == cps[i];
      }
    }
  }

  lemma FinalizedInv(st: ParseState)
    requires Inv(st) && Finalized(st).Ok?
    ensures Inv(Finalized(st).value)
  {
    if st.current.Some? {
      FlushedInv(st);
      var st1 := Flushed(st).value;
      var rec := Completed(st1);
      CompletedWellFormed(st1);
      AppendWellFormed(st.cps, rec);
      assert Finalized(st).value == ParseState(st.cps + [rec], None, Empty(), [], None, []);
    }
  }

  lemma LabelFieldsInv(st: ParseState, key: string, value: string)
    requires st.current.Some? && Inv(st)
    ensures Inv(LabelFields(st, key, value))
  {
  }

  lemma NumericLineInv(st: ParseState, numbers: seq<string>)
    requires st.current.Some? && Inv(st) && NumericLine(st, numbers).Ok?
    ensures Inv(NumericLine(st, numbers).value)
  {
  }

  lemma ContentLineInv(st: ParseState, stripped: string)
    requires st.current.Some? && Inv(st) && ContentLine(st, stripped).Ok?
    ensures Inv(ContentLine(st, stripped).value)
  {
    if stripped == [] {
      FlushedInv(st);
    } else if MatchNucleus(stripped).None? {
      if ':' in stripped {
        FlushedInv(st);
        var parts := SplitFirst(stripped, ':');
        LabelFieldsInv(Flushed(st).value, Strip(parts.0), Strip(parts.1));
      } else if ParseNumbers(stripped) != [] {
        NumericLineInv(st, ParseNumbers(stripped));
      }
    }
  }

  lemma StepInv(st: ParseState, line: string)
    requires Inv(st) && Step(st, line).Ok?
    ensures Inv(Step(st, line).value)
  {
    var stripped := Strip(line);
    if IsDivider(stripped) {
      FinalizedInv(st);
      DividerLineShape(st, stripped);
    } else if st.current.Some? {
      ContentLineInv(st.(rawLines := st.rawLines + [RStripChar(line, '\n')]), stripped);
    }
  }

  lemma {:induction false} RunInv(lines: seq<string>)
    requires RunFrom(Init(), lines).Ok?
    ensures Inv(RunFrom(Init(), lines).value)
  {
    if lines != [] {
      var prefix := lines[..|lines| - 1];
      RunInv(prefix);
      StepInv(RunFrom(Init(), prefix).value, lines[|lines| - 1]);
    }
  }

  /** Every record `parse_cp_file` returns carries `cp_index`, `cp_type`,
      `raw_block` (a string) and `key_map` (a dict), and every other field
      has an entry in its `key_map`. */
  lemma ParsedRecordsWellFormed(lines: seq<string>)
    requires ParseCpFileSpec(lines).Ok?
    ensures forall i :: 0 <= i < |ParseCpFileSpec(lines).value| ==> WellFormedRecord(ParseCpFileSpec(lines).value[i])
  {
    RunInv(lines);
    FinalizedInv(RunFrom(Init(), lines).value);
  }

  // ----- Line classes inside a record -----

  /** A line the loop reads as content of the open record. */
  predicate IsContent(line: string) {
    !IsDivider(Strip(line))
  }

  predicate IsBlank(line: string) {
    Strip(line) == []
  }

  /** A `label: value` line. */
  predicate IsLabelLine(line: string) {
    var s := Strip(line);
    !IsDivider(s) && s != [] && MatchNucleus(s).None? && ':' in s
  }

  /** A line that holds numbers and nothing the loop reads first. */
  predicate IsRowLine(line: string) {
    var s := Strip(line);
    !IsDivider(s) && s != [] && MatchNucleus(s).None? && ':' !in s && ParseNumbers(s) != []
  }

  /** The trimmed label of a label line. */
  function LabelKey(line: string): string
    requires IsLabelLine(line)
  {
    Strip(SplitFirst(Strip(line), ':').0)
  }

  /** What each line adds to the raw lines. */
  function RawOf(lines: seq<string>): (r: seq<string>)
    ensures |r| == |lines|
  {
    if lines == [] then [] else RawOf(lines[..|lines| - 1]) + [RStripChar(lines[|lines| - 1], '\n')]
  }

  /** `rows` followed by the number tokens of each line. */
  function ExtendRows(rows: seq<seq<string>>, lines: seq<string>): (r: seq<seq<string>>)
    ensures |r| == |rows| + |lines|
  {
    if lines == [] then rows else ExtendRows(rows, lines[..|lines| - 1]) + [ParseNumbers(Strip(lines[|lines| - 1]))]
  }

  lemma StepIsContent(st: ParseState, line: string)
    requires st.current.Some? && IsContent(line)
    ensures Step(st, line) == ContentLine(st.(rawLines := st.rawLines + [RStripChar(line, '\n')]), Strip(line))
  {
  }

  lemma ContentIsRow(st: ParseState, stripped: string)
    requires st.current.Some? && stripped != [] && MatchNucleus(stripped).None? && ':' !in stripped
    requires ParseNumbers(stripped) != []
    ensures ContentLine(st, stripped) == NumericLine(st, ParseNumbers(stripped))
  {
  }

  lemma ContentIsNucleus(st: ParseState, stripped: string)
    requires st.current.Some? && stripped != [] && MatchNucleus(stripped).Some?
    ensures ContentLine(st, stripped) == Ok(NucleusLine(st, MatchNucleus(stripped).value.0, MatchNucleus(stripped).value.1))
  {
  }

  lemma ContentIsLabel(st: ParseState, stripped: string)
    requires st.current.Some? && stripped != [] && MatchNucleus(stripped).None? && ':' in stripped
    ensures ContentLine(st, stripped) ==
      match Flushed(st)
      case Err(e) => Err(e)
      case Ok(st1) => Ok(LabelLine(st1, stripped))
  {
  }

  /** A row line appends its numbers to a pending matrix. */
  lemma StepRowIntoMatrix(st: ParseState, line: string)
    requires st.current.Some? && Pending(st.matrixKey) && IsRowLine(line)
    ensures Step(st, line) == Ok(st.(rawLines := st.rawLines + [RStripChar(line, '\n')], matrixRows := st.matrixRows + [ParseNumbers(Strip(line))]))
  {
    StepIsContent(st, line);
    ContentIsRow(st.(rawLines := st.rawLines + [RStripChar(line, '\n')]), Strip(line));
  }

  /** A label line splits at its first colon only: the value keeps any later
      colon. */
  lemma LabelSplitsAtFirstColon(st: ParseState, before: string, after: string)
    requires st.current.Some? && ':' !in before
    ensures LabelLine(st, before + ":" + after) == LabelFields(st, Strip(before), Strip(after))
  {
    var s := before + ":" + after;
    assert s[|before|] == ':' && s[..|before|] == before;
    IndexOfIsFirst(s, ':', |before|);
    assert s[|before| + 1..] == after;
  }

  /** One number gives a scalar, several give a list, none gives the value
      text when it is not empty, and an empty value gives no field. */
  lemma LabelValueKinds(value: string)
    ensures LabelValue(value).None? <==> value == []
    ensures LabelValue(value) == Some(StrV(value)) <==> value != [] && !HasDigit(value)
    ensures forall t :: LabelValue(value) == Some(FloatV(t)) <==> ParseNumbers(value) == [t]
    ensures LabelValue(value).Some? && LabelValue(value).value.ListV? <==> |ParseNumbers(value)| >= 2
    ensures LabelValue(value).Some? && LabelValue(value).value.ListV? ==> LabelValue(value).value.items == FloatValues(ParseNumbers(value))
  {
    ParseNumbersSpec(value);
    if value == [] {
      assert !HasDigit(value);
    }
  }

  /** A label line writes its field under the sanitised label and records the
      trimmed label as its provenance, leaving every other field alone; an
      empty value writes no field; a matrix label opens an empty pending
      matrix. */
  lemma LabelFieldsEffect(st: ParseState, key: string, value: string)
    requires st.current.Some?
    ensures var r := LabelFields(st, key, value); var k := SanitizeKey(key);
      && r.current.Some? && r.cps == st.cps && r.rawLines == st.rawLines
      && (forall j :: j != k ==> (j in r.current.value.items <==> j in st.current.value.items))
      && (forall j :: j != k && j in st.current.value.items ==> r.current.value.items[j] == st.current.value.items[j])
      && (value != [] ==> k in r.current.value.items && r.current.value.items[k] == LabelValue(value).value)
      && (value == [] ==> r.current == st.current)
      && ((value != [] || IsMatrixLabel(key)) ==> k in r.keyMap.items && r.keyMap.items[k] == key)
      && (IsMatrixLabel(key) ==> r.matrixKey == Some(key) && Pending(r.matrixKey) && r.matrixRows == [])
      && (!IsMatrixLabel(key) ==> r.matrixKey == st.matrixKey && r.matrixRows == st.matrixRows)
  {
    LabelValueKinds(value);
  }

  /** A nucleus line sets the nucleus index and trimmed label, and leaves the
      pending matrix alone. */
  lemma NucleusKeepsMatrix(st: ParseState, line: string)
    requires st.current.Some? && IsContent(line) && !IsBlank(line) && MatchNucleus(Strip(line)).Some?
    ensures Step(st, line).Ok?
    ensures var r := Step(st, line).value; var n := MatchNucleus(Strip(line)).value;
      && r.matrixKey == st.matrixKey && r.matrixRows == st.matrixRows
      && r.current.Some?
      && r.current.value.items == st.current.value.items["corresponding_nucleus_index" := IntV(n.0)]["corresponding_nucleus_label" := StrV(Strip(n.1))]
      && r.keyMap.items == st.keyMap.items["corresponding_nucleus_index" := "Corresponding nucleus index"]["corresponding_nucleus_label" := "Corresponding nucleus label"]
      && r.rawLines == st.rawLines + [RStripChar(line, '\n')]
  {
    StepIsContent(st, line);
    ContentIsNucleus(st.(rawLines := st.rawLines + [RStripChar(line, '\n')]), Strip(line));
  }

  lemma RunFromLast(st: ParseState, lines: seq<string>)
    requires lines != [] && RunFrom(st, lines[..|lines| - 1]).Ok?
    ensures RunFrom(st, lines) == Step(RunFrom(st, lines[..|lines| - 1]).value, lines[|lines| - 1])
  {
  }

  lemma StepKeepsRecord(st: ParseState, line: string)
    requires st.current.Some? && IsContent(line) && Step(st, line).Ok?
    ensures Step(st, line).value.current.Some?
    ensures Step(st, line).value.cps == st.cps
    ensures Step(st, line).value.rawLines == st.rawLines + [RStripChar(line, '\n')]
  {
    StepIsContent(st, line);
    ContentKeepsRecord(st.(rawLines := st.rawLines + [RStripChar(line, '\n')]), Strip(line));
  }

  /** No line is a divider. */
  predicate AllContent(lines: seq<string>) {
    lines == [] || (AllContent(lines[..|lines| - 1]) && IsContent(lines[|lines| - 1]))
  }

  /** The loop over one more content line of an open record. */
  lemma RunFromContentLast(st: ParseState, lines: seq<string>)
    requires lines != [] && RunFrom(st, lines).Ok? && IsContent(lines[|lines| - 1])
    requires RunFrom(st, lines[..|lines| - 1]).Ok? && RunFrom(st, lines[..|lines| - 1]).value.current.Some?
    ensures var mid := RunFrom(st, lines[..|lines| - 1]).value;
      var r := RunFrom(st, lines).value;
      && r.current.Some? && r.cps == mid.cps
      && r.rawLines == mid.rawLines + [RStripChar(lines[|lines| - 1], '\n')]
  {
    RunFromLast(st, lines);
    StepKeepsRecord(RunFrom(st, lines[..|lines| - 1]).value, lines[|lines| - 1]);
  }

  lemma ConcatSnoc(a: seq<string>, b: seq<string>, x: string)
    ensures (a + b) + [x] == a + (b + [x])
  {
  }

  /** Content lines are collected, in order and without their trailing
      newlines, into the raw lines of the open record. */
  lemma {:induction false} RawLinesCollect(st: ParseState, lines: seq<string>)
    requires st.current.Some? && RunFrom(st, lines).Ok? && AllContent(lines)
    ensures RunFrom(st, lines).value.current.Some?
    ensures RunFrom(st, lines).value.cps == st.cps
    ensures RunFrom(st, lines).value.rawLines == st.rawLines + RawOf(lines)
  {
    if lines != [] {
      var prefix := lines[..|lines| - 1];
      var line := lines[|lines| - 1];
      assert RunFrom(st, prefix).Ok?;
      RawLinesCollect(st, prefix);
      RunFromContentLast(st, lines);
      ConcatSnoc(st.rawLines, RawOf(prefix), RStripChar(line, '\n'));
    }
  }

  /** Every line is a row line. */
  predicate AllRowLines(lines: seq<string>) {
    lines == [] || (AllRowLines(lines[..|lines| - 1]) && IsRowLine(lines[|lines| - 1]))
  }

  /** Row lines under a pending matrix append their numbers as rows. */
  lemma {:induction false} MatrixRowsAccumulate(st: ParseState, lines: seq<string>)
    requires st.current.Some? && Pending(st.matrixKey) && AllRowLines(lines)
    ensures RunFrom(st, lines).Ok?
    ensures var r := RunFrom(st, lines).value;
      && r.matrixRows == ExtendRows(st.matrixRows, lines)
      && r.cps == st.cps && r.current == st.current && r.keyMap == st.keyMap && r.matrixKey == st.matrixKey
  {
    if lines != [] {
      var prefix := lines[..|lines| - 1];
      MatrixRowsAccumulate(st, prefix);
      RunFromLast(st, lines);
      StepRowIntoMatrix(RunFrom(st, prefix).value, lines[|lines| - 1]);
    }
  }

  lemma StepLabelLine(st: ParseState, line: string)
    requires st.current.Some? && IsLabelLine(line) && Step(st, line).Ok?
    ensures var st0 := st.(rawLines := st.rawLines + [RStripChar(line, '\n')]);
      && Flushed(st0).Ok?
      && Step(st, line) == Ok(LabelLine(Flushed(st0).value, Strip(line)))
  {
    StepIsContent(st, line);
    ContentIsLabel(st.(rawLines := st.rawLines + [RStripChar(line, '\n')]), Strip(line));
  }

  lemma StepBlankLine(st: ParseState, line: string)
    requires st.current.Some? && IsBlank(line)
    ensures Step(st, line) == Flushed(st.(rawLines := st.rawLines + [RStripChar(line, '\n')]))
  {
    assert !IsDivider(Strip(line));
    StepIsContent(st, line);
  }

  lemma RunFromSingle(st: ParseState, line: string)
    ensures RunFrom(st, [line]) == Step(st, line)
  {
    assert [line][..0] == [];
  }

  /** Flushing a pending matrix writes its rows under the sanitised label
      with the label as provenance when there is at least one row and the
      rows have equal length, raises when they do not, and always clears the
      pending state. */
  lemma FlushWritesMatrix(st: ParseState)
    requires st.current.Some? && Pending(st.matrixKey)
    ensures st.matrixRows != [] && !Rectangular(st.matrixRows) ==> Flushed(st) == Err(InhomogeneousMatrix(st.matrixKey.value))
    ensures st.matrixRows == [] ==> Flushed(st) == Ok(st.(matrixKey := None))
    ensures st.matrixRows != [] && Rectangular(st.matrixRows) ==>
      var k := SanitizeKey(st.matrixKey.value);
      && Flushed(st).Ok?
      && Flushed(st).value.current.Some?
      && Flushed(st).value.current.value.items == st.current.value.items[k := ArrayV(st.matrixRows)]
      && Flushed(st).value.keyMap.items == st.keyMap.items[k := st.matrixKey.value]
      && Flushed(st).value.matrixKey.None? && Flushed(st).value.matrixRows == []
  {
  }

  /** A matrix label line opens an empty pending matrix under its label. */
  lemma MatrixLabelOpens(st: ParseState, labelLine: string)
    requires st.current.Some? && Step(st, labelLine).Ok?
    requires IsLabelLine(labelLine) && IsMatrixLabel(LabelKey(labelLine))
    ensures var r := Step(st, labelLine).value;
      r.current.Some? && r.matrixKey == Some(LabelKey(labelLine)) && r.matrixRows == []
  {
    var key := LabelKey(labelLine);
    var st0 := st.(rawLines := st.rawLines + [RStripChar(labelLine, '\n')]);
    StepLabelLine(st, labelLine);
    FlushedKeepsRecord(st0);
    var parts := SplitFirst(Strip(labelLine), ':');
    assert Step(st, labelLine).value == LabelFields(Flushed(st0).value, key, Strip(parts.1));
    LabelFieldsEffect(Flushed(st0).value, key, Strip(parts.1));
  }

  /** A matrix label, row lines of equal length and a blank line leave the
      rows as a 2-D array under the sanitised label, overwriting any inline
      value the label line wrote, with the label as provenance and no
      pending matrix left. */
  lemma MatrixBlockOverwrites(st: ParseState, labelLine: string, rows: seq<string>, blank: string)
    requires st.current.Some? && Step(st, labelLine).Ok?
    requires IsLabelLine(labelLine) && IsMatrixLabel(LabelKey(labelLine))
    requires rows != [] && AllRowLines(rows) && Rectangular(ExtendRows([], rows))
    requires IsBlank(blank)
    ensures RunFrom(st, [labelLine] + rows + [blank]).Ok?
    ensures var r := RunFrom(st, [labelLine] + rows + [blank]).value; var k := SanitizeKey(LabelKey(labelLine));
      && r.current.Some?
      && k in r.current.value.items && r.current.value.items[k] == ArrayV(ExtendRows([], rows))
      && k in r.keyMap.items && r.keyMap.items[k] == LabelKey(labelLine)
      && !Pending(r.matrixKey)
  {
    var st1 := Step(st, labelLine).value;
    MatrixLabelOpens(st, labelLine);
    RunFromSingle(st, labelLine);
    RunFromAppend(st, [labelLine], rows);
    MatrixRowsAccumulate(st1, rows);
    var st2 := RunFrom(st1, rows).value;
    RunFromAppend(st, [labelLine] + rows, [blank]);
    RunFromSingle(st2, blank);
    StepBlankLine(st2, blank);
    FlushWritesMatrix(st2.(rawLines := st2.rawLines + [RStripChar(blank, '\n')]));
  }

  /** The rows collected so far under "values", when the field is absent or
      a list. */
  function ValuesOf(rec: Record): Option<seq<Value>> {
    if VALUES_KEY !in rec.items then Some([])
    else if rec.items[VALUES_KEY].ListV? then Some(rec.items[VALUES_KEY].items)
    else None
  }

  /** The list row a row line adds to "values". */
  function ValueRow(line: string): Value {
    ListV(FloatValues(ParseNumbers(Strip(line))))
  }

  /** `items` followed by one list row per line. */
  function ExtendValues(items: seq<Value>, lines: seq<string>): (r: seq<Value>)
    ensures |r| == |items| + |lines|
  {
    if lines == [] then items else ExtendValues(items, lines[..|lines| - 1]) + [ValueRow(lines[|lines| - 1])]
  }

  lemma NumericLineValues(st: ParseState, numbers: seq<string>)
    requires st.current.Some? && !Pending(st.matrixKey)
    ensures ValuesOf(st.current.value).None? ==> NumericLine(st, numbers) == Err(ValuesNotAList)
    ensures ValuesOf(st.current.value).Some? ==>
      NumericLine(st, numbers) == Ok(st.(current := Some(st.current.value.Set(VALUES_KEY, ListV(ValuesOf(st.current.value).value + [ListV(FloatValues(numbers))]))),
                                         keyMap := st.keyMap.Set(VALUES_KEY, VALUES_KEY)))
  {
    var row := ListV(FloatValues(numbers));
    assert [] + [row] == [row];
  }

  lemma StepRowIntoValues(st: ParseState, line: string)
    requires st.current.Some? && !Pending(st.matrixKey) && IsRowLine(line)
    ensures ValuesOf(st.current.value).None? ==> Step(st, line) == Err(ValuesNotAList)
    ensures ValuesOf(st.current.value).Some? ==>
      var r := Step(st, line);
      && r.Ok? && r.value.current.Some?
      && r.value.current.value.items == st.current.value.items[VALUES_KEY := ListV(ValuesOf(st.current.value).value + [ValueRow(line)])]
      && r.value.keyMap.items == st.keyMap.items[VALUES_KEY := VALUES_KEY]
      && r.value.matrixKey == st.matrixKey
  {
    var st0 := st.(rawLines := st.rawLines + [RStripChar(line, '\n')]);
    StepIsContent(st, line);
    ContentIsRow(st0, Strip(line));
    NumericLineValues(st0, ParseNumbers(Strip(line)));
  }

  /** The rows already under "values" and the provenance of "values" after
      row lines. */
  ghost predicate ValuesExtended(st: ParseState, r: ParseState, lines: seq<string>)
    requires st.current.Some? && ValuesOf(st.current.value).Some?
  {
    && r.current.Some?
    && r.current.value.items == st.current.value.items[VALUES_KEY := ListV(ExtendValues(ValuesOf(st.current.value).value, lines))]
    && r.keyMap.items == st.keyMap.items[VALUES_KEY := VALUES_KEY]
    && !Pending(r.matrixKey)
  }

  lemma UpdateTwice<V>(m: map<string, V>, k: string, a: V, b: V)
    ensures m[k := a][k := b] == m[k := b]
  {
  }

  /** Row lines with no pending matrix append one list row each to the
      "values" field, and record "values" as its own provenance. */
  lemma {:induction false} ValuesAccumulate(st: ParseState, lines: seq<string>)
    requires st.current.Some? && !Pending(st.matrixKey) && AllRowLines(lines) && lines != []
    requires ValuesOf(st.current.value).Some?
    ensures RunFrom(st, lines).Ok? && ValuesExtended(st, RunFrom(st, lines).value, lines)
  {
    var prefix := lines[..|lines| - 1];
    var line := lines[|lines| - 1];
    var v := ValuesOf(st.current.value).value;
    var all := ExtendValues(v, lines);
    assert all == ExtendValues(v, prefix) + [ValueRow(line)];
    if prefix == [] {
      RunFromLast(st, lines);
      StepRowIntoValues(st, line);
      assert all == v + [ValueRow(line)];
    } else {
      ValuesAccumulate(st, prefix);
      RunFromLast(st, lines);
      var r1 := RunFrom(st, prefix).value;
      assert ValuesOf(r1.current.value) == Some(ExtendValues(v, prefix));
      StepRowIntoValues(r1, line);
      var r := RunFrom(st, lines).value;
      assert r.current.value.items == r1.current.value.items[VALUES_KEY := ListV(all)];
      UpdateTwice(st.current.value.items, VALUES_KEY, ListV(ExtendValues(v, prefix)), ListV(all));
      UpdateTwice(st.keyMap.items, VALUES_KEY, VALUES_KEY, VALUES_KEY);
    }
  }

  /** Row lines with no pending matrix raise when the "values" field holds
      something other than a list. */
  lemma {:induction false} ValuesNotListRaises(st: ParseState, lines: seq<string>)
    requires st.current.Some? && !Pending(st.matrixKey) && AllRowLines(lines) && lines != []
    requires ValuesOf(st.current.value).None?
    ensures RunFrom(st, lines) == Err(ValuesNotAList)
  {
    var prefix := lines[..|lines| - 1];
    if prefix == [] {
      RunFromLast(st, lines);
      StepRowIntoValues(st, lines[|lines| - 1]);
    } else {
      ValuesNotListRaises(st, prefix);
    }
  }
}
