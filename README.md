# Multiwfn CLI core, modelled in Dafny

Multiwfn CLI is a Python front end to the Multiwfn wavefunction analysis
program. It writes keystroke scripts for Multiwfn's menus, runs Multiwfn,
and turns the text files Multiwfn writes into NumPy arrays. This project
models the parts of that front end that decide what the arrays contain:

- `Multiwfn` (`_multiwfn.py`): composes the keystroke script and accepts
  exit codes 0 and 24.
- `CpKeys`, `CpNumbers`, `CpParser`, `CpAggregate` (`cp_parser.py`):
  - the critical-point report parser, whose state is the class
    `CpParser.CpParser` and whose step function is `CpParser.Step`;
  - key sanitising;
  - the Fortran-aware float scanner;
  - the aggregation of the records into named columns.
- `Charges` (`charges.py`):
  - the per-method charge scripts;
  - the `.chg` and MBIS multipole parsers;
  - the method loop with its atom-order check;
  - the `.npz` payload.
- `Geometry` (`_geometry.py`): the PDB export and parser, and the
  covalent-radius lookup.
- `Scripts` (`scripts.py`): executor detection, script discovery and its
  case-insensitive sort, and the priority-ordered script lookup.
- Helper modules:
  - `Wrappers`: `Option` and `Result`;
  - `PyStr`: the Python `str` operations the core uses: `strip`,
    `lstrip`, `rstrip` (also of one character), `split()`, `split(sep)`,
    `split(sep, 1)`, `lower`, `capitalize`, `startswith`, `endswith`, the
    `in` test, `join`, slicing, `str.isspace`/`isdigit`/`isalnum` on one
    character, and string ordering;
  - `PyDict`: an insertion-ordered `dict` kept as a key sequence plus a map.

Each loop of the source is a `method` proved equal to a recursive
specification function, for example `ensures r == ParsePdbSpec(lines, num)`.
The properties are proved about those functions as lemmas. The
critical-point parser keeps the closure's variables (`cps`, `current`,
`key_map`, `raw_lines`, `matrix_key`, `matrix_rows`) as fields of a class.
Its methods update those fields, and each method's contract ties the new
state to the step function.

Files are given to the model as sequences of lines. Multiwfn itself is a
parameter `run` that maps a script to what the run leaves behind (the
completed process and the files written). `float()` is a parameter `num`
that maps a token to its value, or to `None` where Python raises
`ValueError`.

## Model

| member | source | states |
|---|---|---|
| Multiwfn.ComposeScript | build/lib/multiwfn_cli/_multiwfn.py:14-17 | the script is never empty and always ends in a newline |
| Multiwfn.ComposeNewlineCount | build/lib/multiwfn_cli/_multiwfn.py:14-17 | a script of n newline-free lines holds exactly n newlines |
| Multiwfn.ComposeLength | build/lib/multiwfn_cli/_multiwfn.py:14-17 | the script's length is the total line length plus one newline per line |
| Multiwfn.ComposeSplitRoundTrip | build/lib/multiwfn_cli/_multiwfn.py:14-17 | splitting the script at newlines gives back the lines plus one trailing empty piece, so Multiwfn reads exactly the keystrokes given |
| Multiwfn.EmptyAndBlankCollide | build/lib/multiwfn_cli/_multiwfn.py:14-17 | no lines and one blank line compose to the same script `"\n"` |
| Multiwfn.CheckExitCode | build/lib/multiwfn_cli/_multiwfn.py:37-43 | the run succeeds exactly when the return code is 0 or 24 and then returns the process unchanged; otherwise the error carries the code, stdout and stderr |
| CpKeys.NonAlnumRun | multiwfn_cli/cp_parser.py:16-21 | the run of characters outside `[a-z0-9]` that `re.sub` replaces is maximal |
| CpKeys.SanitizeKeyIsKey | multiwfn_cli/cp_parser.py:16-21 | every sanitised key is non-empty, uses only `[a-z0-9_]`, has no doubled underscore and no leading or trailing underscore |
| CpKeys.SanitizeNoAlnum | multiwfn_cli/cp_parser.py:16-21 | a label with no ASCII letter or digit sanitises to `"field"` |
| CpKeys.SanitizeKeyFixesKeys | multiwfn_cli/cp_parser.py:16-21 | a string already in key form is its own sanitised key |
| CpKeys.SanitizeKeyIdempotent | multiwfn_cli/cp_parser.py:16-21 | sanitising twice gives the same key as sanitising once |
| CpNumbers.FortranToE | multiwfn_cli/cp_parser.py:24-27 | each `D` exponent marker becomes `E` and every other character is kept in place |
| CpNumbers.MatchIsFloatToken | multiwfn_cli/cp_parser.py:13 | each match of the float pattern is an optional sign, a mantissa with a digit, and an optional exponent |
| CpNumbers.LongestMatch | multiwfn_cli/cp_parser.py:13 | whenever some text starting at a position is in the float pattern's language, the scanner finds a match there reaching at least as far |
| CpNumbers.MatchAtLongest | multiwfn_cli/cp_parser.py:13 | the scanner's match at a position is the longest text there in the pattern's language, and it reports none exactly when no text there is in it |
| CpNumbers.FindAllNone | multiwfn_cli/cp_parser.py:24-27 | `findall` returns nothing when no token starts at or after the scan position |
| CpNumbers.FindAllLeftmost | multiwfn_cli/cp_parser.py:24-27 | `findall` returns first the longest token at the leftmost position where one starts, then continues from its end |
| CpNumbers.FindAllTokens | multiwfn_cli/cp_parser.py:24-27 | every token `findall` returns is a float token holding a digit |
| CpNumbers.DigitGivesMatch | multiwfn_cli/cp_parser.py:24-27 | a digit anywhere at or after the scan position yields at least one match |
| CpNumbers.NoDigitNoMatch | multiwfn_cli/cp_parser.py:24-27 | a tail without digits yields no match |
| CpNumbers.ParseNumbersSpec | multiwfn_cli/cp_parser.py:24-27 | `_parse_numbers` returns only float tokens, and returns none exactly when the text has no digit (which tokens, and in what order, is `CpNumbers.FindAllLeftmost`) |
| CpParser.CpParser.constructor | multiwfn_cli/cp_parser.py:69-74 | a fresh parser has no records, no open record and no pending matrix |
| CpParser.CpParser.FinalizeMatrix | multiwfn_cli/cp_parser.py:52-62 | the new state or the raised error is the flush of the pending matrix applied to the old state |
| CpParser.CpParser.FinalizeCurrent | multiwfn_cli/cp_parser.py:79-91 | the new state or the raised error is the completion of the open record applied to the old state |
| CpParser.CpParser.Divider | multiwfn_cli/cp_parser.py:94-106 | a divider line finalises the open record, then opens a record only if the header pattern matches |
| CpParser.CpParser.Open | multiwfn_cli/cp_parser.py:100-106 | an opened record gets the header fields, the seeded key map and the divider as its first raw line |
| CpParser.CpParser.Label | multiwfn_cli/cp_parser.py:125-145 | a label line updates the record, the key map and the matrix state as the label rule says |
| CpParser.CpParser.Numbers | multiwfn_cli/cp_parser.py:147-157 | a numeric line is either a matrix row or is appended to `values`, and raises when `values` is not a list |
| CpParser.CpParser.Content | multiwfn_cli/cp_parser.py:113-157 | a content line is dispatched as blank, nucleus, label or numeric line, in the source's order |
| CpParser.CpParser.FeedLine | multiwfn_cli/cp_parser.py:93-157 | one loop iteration on the fields equals the step function on the old state |
| CpParser.ParseCpFile | multiwfn_cli/cp_parser.py:65-160 | the parser's result equals the fold of the step function over the lines, followed by the final flush |
| CpParser.ParseCountsValidHeaders | multiwfn_cli/cp_parser.py:94-106 | a successful parse returns exactly one record per divider line that carries a valid `CP n, Type` header |
| CpParser.LeadingLinesDropped | multiwfn_cli/cp_parser.py:108-109 | lines before the first valid header do not change the result |
| CpParser.RunFromErrorSticks | multiwfn_cli/cp_parser.py:65-160 | once a line raises, the parse ends with that error |
| CpParser.ParsedRecordsWellFormed | multiwfn_cli/cp_parser.py:79-91 | every parsed record has `cp_index`, `cp_type`, a string `raw_block` and a `key_map` naming every other field |
| CpParser.DividerStep | multiwfn_cli/cp_parser.py:94-106 | a divider appends the open record to `cps` and opens a new record with exactly the header fields and the seeded key map |
| CpParser.FinalizedShape | multiwfn_cli/cp_parser.py:79-91 | finalising appends exactly one record when one is open, keeps the earlier records, and closes the open record |
| CpParser.RawLinesCollect | multiwfn_cli/cp_parser.py:111 | while a record is open, every line is appended to its raw lines without its trailing newline |
| CpParser.StepBlankLine | multiwfn_cli/cp_parser.py:113-115 | a blank line flushes the pending matrix and does nothing else |
| CpParser.NucleusKeepsMatrix | multiwfn_cli/cp_parser.py:117-123 | a nucleus line sets the two nucleus fields and their key-map names and leaves the matrix state alone |
| CpParser.LabelSplitsAtFirstColon | multiwfn_cli/cp_parser.py:127-129 | a label is split at its first colon, and both halves are stripped |
| CpParser.LabelValueKinds | multiwfn_cli/cp_parser.py:130-144 | an empty value stores nothing; a value without digits is stored as text; one number is stored as a scalar; two or more are stored as a list |
| CpParser.LabelFieldsEffect | multiwfn_cli/cp_parser.py:125-145 | a label sets only its sanitised key, records the original label in the key map, and opens a matrix exactly for `...matrix` or `eigenvectors...` labels |
| CpParser.MatrixRowsAccumulate | multiwfn_cli/cp_parser.py:147-150 | while a matrix is pending, numeric lines are collected as its rows, in order, and nothing else changes |
| CpParser.FlushWritesMatrix | multiwfn_cli/cp_parser.py:52-62 | flushing stores the rows under the sanitised key when they form a rectangle, raises on ragged rows, and drops an empty matrix |
| CpParser.MatrixBlockOverwrites | multiwfn_cli/cp_parser.py:125-150 | a matrix label, its rows and a blank line store the rows as the label's array |
| CpParser.ValuesAccumulate | multiwfn_cli/cp_parser.py:152-157 | numeric lines outside a matrix are appended, one list per line, to `values` |
| CpParser.ValuesNotListRaises | multiwfn_cli/cp_parser.py:152-157 | when `values` already holds a non-list, the next numeric line raises |
| CpAggregate.StackValues | multiwfn_cli/cp_parser.py:30-49 | the loop computes the stacking specification |
| CpAggregate.StackValuesKeepsValues | multiwfn_cli/cp_parser.py:30-49 | stacking fails exactly on an empty list, or on values neither all numbers nor all text that have a ragged value or whose object array raises; otherwise it keeps every value in order, and a stacked column has one common shape |
| CpAggregate.ConvertAll | multiwfn_cli/cp_parser.py:38-43 | conversion fails exactly when some value is ragged, and otherwise collects the set of shapes |
| CpAggregate.OneShapeIffSame | multiwfn_cli/cp_parser.py:44-49 | one shape in the set exactly when all values have the same shape |
| CpAggregate.ColumnKinds | multiwfn_cli/cp_parser.py:30-49 | each column keeps its values, and its kind is fixed by them: integer, float, string, stacked or object; `raw_block` is always an object column; the column raises exactly when it would be an object array of values NumPy cannot place |
| CpAggregate.MismatchedMatricesRaise | multiwfn_cli/cp_parser.py:44-49 | two matrices with the same row count and different column counts make the column raise |
| CpAggregate.GatherRecords | multiwfn_cli/cp_parser.py:168-173 | the loop gathers, for every key except `key_map`, the values of the records that have it |
| CpAggregate.GatherColumns | multiwfn_cli/cp_parser.py:168-173 | a key is gathered exactly when some record has it, and its list holds those records' values in record order |
| CpAggregate.AddFieldsEffect | multiwfn_cli/cp_parser.py:170-173 | one record appends its value to each of its keys' lists and to nothing else |
| CpAggregate.ConvertColumns | multiwfn_cli/cp_parser.py:175-183 | each gathered key becomes the column `_stack_values` (or the object array for `raw_block`, or the object array of the fallback) makes of its list, in key order, and the loop raises as soon as one of them does |
| CpAggregate.ColumnOf | multiwfn_cli/cp_parser.py:176-183 | one key's column, including the fallback object array raising again after `_stack_values` raised |
| CpAggregate.ConvertEffect | multiwfn_cli/cp_parser.py:175-183 | the loop raises exactly when some key's column does; otherwise each key gets its column, in key order |
| CpAggregate.AggregateCpRecords | multiwfn_cli/cp_parser.py:163-185 | the function's result equals the aggregation specification |
| CpAggregate.AggregateColumns | multiwfn_cli/cp_parser.py:163-185 | no records give an empty payload; otherwise the function raises exactly when some key's column or the key-map column does, and when it does not, every key some record has gets the column of its values, in record order, and `key_map` is the object column of the records' key maps |
| CpAggregate.AggregateRaisesOnlyOnMatrices | multiwfn_cli/cp_parser.py:163-185 | the function raises only when some record holds a matrix |
| CpAggregate.AggregateWellFormed | multiwfn_cli/cp_parser.py:163-185 | on parsed records, the function raises exactly when the column of a key other than `raw_block` and `key_map` does; otherwise `cp_index`, `cp_type` and `raw_block` have one entry per record, and `raw_block` and `key_map` are the records' own, in order |
| CpAggregate.EveryRecordColumn | multiwfn_cli/cp_parser.py:168-184 | a key that every record has gets one value per record, and when the function does not raise its column holds them |
| Charges.SupportedHaveScripts | build/lib/multiwfn_cli/charges.py:14-35 | the supported methods are exactly those with a keystroke script |
| Charges.BuildScript | build/lib/multiwfn_cli/charges.py:46-51 | a script is built exactly for a method with a script; otherwise the error names the method |
| Charges.BuildScriptLines | build/lib/multiwfn_cli/charges.py:46-51 | the built script is the wavefunction path followed by the method's keystrokes, one per line |
| Charges.ToReals | build/lib/multiwfn_cli/charges.py:67 | the conversion succeeds exactly when every token converts, keeps the order, and otherwise names a token that fails |
| Charges.ChgLine | build/lib/multiwfn_cli/charges.py:59-69 | one line is skipped when blank or shorter than five fields; otherwise it adds an atom, its coordinates and its charge, or raises |
| Charges.ParseChg | build/lib/multiwfn_cli/charges.py:54-72 | the loop computes the `.chg` specification |
| Charges.ChgScanOk | build/lib/multiwfn_cli/charges.py:59-69 | the scan succeeds exactly when every accepted line's four numeric fields convert, and otherwise fails with a number error |
| Charges.ChgScanRows | build/lib/multiwfn_cli/charges.py:59-69 | a successful scan lists the first field of each accepted line, in order, with one coordinate triple and one charge per atom |
| Charges.ParseChgEmpty | build/lib/multiwfn_cli/charges.py:70-71 | "no charge data" is raised exactly when every line converts but none is accepted |
| Charges.MbisStepControl | build/lib/multiwfn_cli/charges.py:84-100 | a header line switches section; the summary line stops the scan; a blank line changes nothing; header lines are exactly those starting with the four section titles |
| Charges.AddRowEffect | build/lib/multiwfn_cli/charges.py:101-116 | a data line adds one row to the current section when it has enough fields, is skipped otherwise, and fails only on a number error |
| Charges.MbisStopIgnoresRest | build/lib/multiwfn_cli/charges.py:99-100 | lines after the summary line do not change the result |
| Charges.NoHeaderNoRows | build/lib/multiwfn_cli/charges.py:81-116 | without a section header no row is collected |
| Charges.MbisScanShaped | build/lib/multiwfn_cli/charges.py:101-116 | dipole rows have three components and quadrupole rows have the section's width |
| Charges.MbisCounts | build/lib/multiwfn_cli/charges.py:118-132 | parsing succeeds exactly when all four quantities have one entry per atom, and otherwise the error names the first quantity that differs, in the source's check order |
| Charges.ParseMbisMultipoles | build/lib/multiwfn_cli/charges.py:75-132 | the loop computes the MBIS specification |
| Charges.ChargeKeyInjective | build/lib/multiwfn_cli/charges.py:209-210 | different methods get different payload keys |
| Charges.SelectScanFirst | build/lib/multiwfn_cli/charges.py:150-157 | the first unsupported method is the one reported |
| Charges.SelectSpecResult | build/lib/multiwfn_cli/charges.py:150-157 | selection succeeds exactly for a non-empty list of supported methods and keeps it as given; otherwise it reports an empty selection or the first unsupported method |
| Charges.SelectMethods | build/lib/multiwfn_cli/charges.py:150-157 | the loop computes the selection specification |
| Charges.MethodStepEffect | build/lib/multiwfn_cli/charges.py:167-199 | one method pass requires a matching atom list after the first method, keeps the first method's atoms and coordinates, records this method's charges, and for MBIS stores multipoles with one entry per atom |
| Charges.RecordEffect | build/lib/multiwfn_cli/charges.py:180-199 | recording checks the atom order against the first method and stores the charges under the method's name |
| Charges.RunAllRecorded | build/lib/multiwfn_cli/charges.py:167-199 | after the loop, the charges recorded are exactly the selected methods', each from its own charge file |
| Charges.RunAllParsed | build/lib/multiwfn_cli/charges.py:167-199 | after the loop, every selected method's file parsed and lists the same atoms, and the coordinates are the first method's |
| Charges.RunAllMbis | build/lib/multiwfn_cli/charges.py:191-199 | multipoles are present exactly when MBIS was selected, with one entry per atom |
| Charges.RunAllErrors | build/lib/multiwfn_cli/charges.py:167-199 | the loop raises only per-method errors |
| Charges.RunMethods | build/lib/multiwfn_cli/charges.py:167-199 | the loop computes the method-loop specification |
| Charges.PayloadKeys | build/lib/multiwfn_cli/charges.py:204-216 | the payload holds exactly `atoms`, `coordinates_angstrom`, one charge key per method and the MBIS keys when present, each with its array |
| Charges.BuildPayload | build/lib/multiwfn_cli/charges.py:204-216 | the payload built entry by entry equals the payload specification |
| Charges.RunChargesResult | build/lib/multiwfn_cli/charges.py:135-220 | a successful run needs an existing wavefunction file and supported methods, and holds every method's charges under its own key with the shared atom list; the MBIS arrays are present exactly when MBIS was selected |
| Charges.RunChargesToNpz | build/lib/multiwfn_cli/charges.py:135-220 | the method computes the whole-run specification |
| Geometry.CapitalizeCapitalizes | multiwfn_cli/_geometry.py:120-123 | `capitalize` makes the first letter upper case and the rest lower case |
| Geometry.ElementShape | multiwfn_cli/_geometry.py:120-123 | the element is capitalised, at most four characters, and empty only when both the element columns and the atom-name columns are blank |
| Geometry.ShortLineUsesAtomName | multiwfn_cli/_geometry.py:120-123 | a line too short for the element columns takes the element from the atom name |
| Geometry.RecordOf | multiwfn_cli/_geometry.py:124-126 | a record is built exactly when all three coordinates convert, and the error names the first that does not |
| Geometry.PdbScanResult | multiwfn_cli/_geometry.py:114-130 | the scan succeeds exactly when every `ATOM`/`HETATM` line converts, and then gives one record per such line, in order |
| Geometry.ParsePdbEmpty | multiwfn_cli/_geometry.py:128-129 | "no atom records" is raised exactly when the file has no `ATOM`/`HETATM` line |
| Geometry.ParsePdb | multiwfn_cli/_geometry.py:114-130 | the loop computes the PDB specification |
| Geometry.ExportScriptLines | multiwfn_cli/_geometry.py:87-99 | Multiwfn receives the export keystrokes, one per line |
| Geometry.ExportGeometryResult | multiwfn_cli/_geometry.py:79-111 | a successful export returns one symbol and one three-coordinate row per atom line of the PDB, in order |
| Geometry.LookupCovalentRadii | multiwfn_cli/_geometry.py:133-137 | each symbol gets its table radius, or the fallback when the table has none |
| Scripts.StemSuffix | build/lib/multiwfn_cli/scripts.py:37-38 | stem and suffix put back together give the file name |
| Scripts.DetectBySuffix | build/lib/multiwfn_cli/scripts.py:44-69 | the executor is fixed by the lower-cased suffix; `.txt` files are classified by content; any other suffix is unknown |
| Scripts.NoSuffixUnknown | build/lib/multiwfn_cli/scripts.py:69 | a name without a suffix is unknown |
| Scripts.BlankLineIgnored | build/lib/multiwfn_cli/scripts.py:58-59 | a whitespace-only line does not change the classification of a `.txt` file |
| Scripts.AllOrNoneSimple | build/lib/multiwfn_cli/scripts.py:56-68 | a file of only simple tokens is a Multiwfn script, and a file of none is data |
| Scripts.OneMoreLine | build/lib/multiwfn_cli/scripts.py:61-68 | one more simple token keeps a Multiwfn script one; one more non-simple token keeps data data |
| Scripts.CountAllOrNone | build/lib/multiwfn_cli/scripts.py:61-66 | the count of simple tokens is all of them or none of them in those cases |
| Scripts.AddDirectory | build/lib/multiwfn_cli/scripts.py:76-94 | one directory appends one definition per file, in walk order, named `<base name>:<relative path>` and with the file's path under the resolved directory |
| Scripts.JoinPathParts | build/lib/multiwfn_cli/scripts.py:79-86 | a file's path starts with the resolved directory, ends with its relative path, and has that path's file name |
| Scripts.DiscoverScripts | build/lib/multiwfn_cli/scripts.py:72-96 | discovery returns the collected definitions sorted by lower-cased identifier |
| Scripts.SortDefinitionsSorted | build/lib/multiwfn_cli/scripts.py:95 | the sort orders by lower-cased identifier and is a permutation |
| Scripts.CollectedIdentifiers | build/lib/multiwfn_cli/scripts.py:76-94 | every definition comes from an existing directory's file; its identifier is `name:relative-path` and its path is the file's path under the resolved directory |
| Scripts.CollectMatches | build/lib/multiwfn_cli/scripts.py:122-133 | the loop splits the scripts into exact and suffix-only matches, in order |
| Scripts.ExactMatchesMembers | build/lib/multiwfn_cli/scripts.py:122-133 | exact matches are exactly the scripts whose lower-cased identifier, relative path, file name or stem equals the query |
| Scripts.SuffixMatchesMembers | build/lib/multiwfn_cli/scripts.py:122-133 | suffix matches are exactly the non-exact scripts whose lower-cased identifier, relative path or file name ends with the query |
| Scripts.FirstLeastIsFirstOfLeast | build/lib/multiwfn_cli/scripts.py:135-140 | the chosen index holds a least (priority, identifier) key, and every earlier entry has a larger key, which is what a stable sort followed by taking the head returns |
| Scripts.FindScript | build/lib/multiwfn_cli/scripts.py:99-147 | the method computes the lookup specification |
| Scripts.EmptyQueryFindsNothing | build/lib/multiwfn_cli/scripts.py:104-106 | a blank query finds nothing |
| Scripts.FindExact | build/lib/multiwfn_cli/scripts.py:138-140 | with an exact match, the result is an exact match whose priority key no other exact match beats |
| Scripts.FindSuffix | build/lib/multiwfn_cli/scripts.py:142-147 | without an exact match, a script is returned exactly when there is a single suffix match, and it is that one |
| Scripts.KeyLessTransitive | build/lib/multiwfn_cli/scripts.py:135-136 | the priority order is transitive |
| Scripts.KeyLessTotal | build/lib/multiwfn_cli/scripts.py:135-136 | any two scripts have equal keys or one is less |

## Left out

- File reading, `splitlines` and text decoding: every file is given as its sequence of lines. `_parse_chg`, `_parse_pdb` and the MBIS parser read files, and the model starts from their lines.
- Multiwfn itself and `subprocess.run`: the result of a run is the parameter `run`. Temporary directories, the working directory and the check that an output file was written become `Option` values in what `run` returns.
- `Path.is_file` on the wavefunction is a boolean parameter of `Charges.RunChargesToNpz`. `Path.exists`, `Path.resolve` and `os.walk` in `discover_scripts` become the flag, the absolute path and the walked files given in each `ScriptDir`. Reading a `.txt` script for executor detection becomes an `Option` of its lines, where `None` stands for a read error.
- `float()`: in charges and geometry it is the parameter `num`. In `cp_parser.py` a number is carried as the token the float pattern matched, so the model does not compute its value, and `int()` of a header index is the digits' decimal value.
- `np.savez_compressed`, the temporary-file rename, `output_path.parent.mkdir` and the `.npz` file format are not modelled. `Charges.RunChargesToNpz` returns the payload dict that would be written.
- Charges.PayloadKeys: NumPy dtypes are not modelled, so atom symbols are not truncated to ten characters (`U10`). Element symbols are not truncated to four (`U4`) either; `Geometry.ElementShape` proves they never exceed four.
- Geometry.ExportGeometryResult: states the count, order and element of each row and the row width, not the coordinate values; `Geometry.PdbScanResult` gives those values.
- Scripts.DetectBySuffix: the `>= 0.7` ratio of simple tokens is exact rational arithmetic (`10 * simple >= 7 * total`). Python's float comparison can differ from it only when a file has more than 10^15 non-blank lines.
- Python's `str.lower`, `str.capitalize`, `str.isspace` and the `\d`/`\s` classes are modelled on ASCII, plus Python's whitespace set for `strip` and `split`. Unicode case mapping is not modelled.
- NumPy array construction in `_stack_values` and `_finalize_matrix` is modelled as its shape check: rectangular or ragged, integer, float, string or object. A ragged nested list raises, as NumPy 1.24 and later do. Numeric dtype promotion is not modelled.
- CpAggregate.ObjectArrayRaises: `np.array(values, dtype=object)` is modelled by the rule NumPy applies to ndarrays among the values (an ndarray whose shape does not fit the place the common nesting depth leaves it raises). ndarrays nested inside lists and ndarrays without rows, which the parser never produces, are treated as plain sequences.
- Exception message texts are not modelled, only which error is raised and what it names.
- `cli.py`, `config.py`, `executors.py`, `convert.py`, `grids.py` and `grid_filter.py` are not part of this model.
