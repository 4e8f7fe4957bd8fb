/** build/lib/multiwfn_cli/scripts.py: how a helper script is classified
    (`_detect_executor`), how discovered scripts are named and ordered
    (`discover_scripts`), and how a query picks one (`find_script`).
    A path is its posix text; resolving a directory and walking it touch the
    file system, so the resolved path and the walk are given as their
    results. */
module Scripts {
  import opened Wrappers
  import opened PyStr

  /** `ExecutorType`. */
  datatype ExecutorType = Multiwfn | Shell | Batch | Vmd | Tcl | Gnuplot | Data | Unknown

  /** The enum's string value. */
  function ExecutorName(e: ExecutorType): string {
    match e
    case Multiwfn => "multiwfn"
    case Shell => "shell"
    case Batch => "batch"
    case Vmd => "vmd"
    case Tcl => "tcl"
    case Gnuplot => "gnuplot"
    case Data => "data"
    case Unknown => "unknown"
  }

  /** `priority_order` in `find_script`; every member has an entry, so the
      default 99 is never used. */
  function Priority(e: ExecutorType): nat {
    match e
    case Multiwfn => 0
    case Shell => 1
    case Batch => 2
    case Vmd => 3
    case Tcl => 4
    case Gnuplot => 5
    case Data => 6
    case Unknown => 7
  }

  /** `ScriptDefinition`; `path` is the file's posix path. */
  datatype ScriptDefinition = ScriptDefinition(
    identifier: string,
    path: string,
    executor: ExecutorType,
    category: string,
    description: string)

  // ----- pathlib -----

  /** Position of the last occurrence of `c`. */
  function LastIndexOf(s: string, c: char): (i: nat)
    requires c in s
    ensures i < |s| && s[i] == c
    ensures forall j :: i < j < |s| ==> s[j] != c
  {
    if s[|s| - 1] == c then |s| - 1
    else
      assert c in s[..|s| - 1] by {
        var k :| 0 <= k < |s| && s[k] == c;
        assert s[..|s| - 1][k] == c;
      }
      LastIndexOf(s[..|s| - 1], c)
  }

  /** `PurePosixPath(p).name`: the text after the last `/`. */
  function FileName(p: string): string {
    if '/' in p then p[LastIndexOf(p, '/') + 1..] else p
  }

  /** Whether `name` has a suffix: a last dot that is neither the first nor
      the last character. */
  predicate HasSuffix(name: string) {
    '.' in name && 0 < LastIndexOf(name, '.') < |name| - 1
  }

  /** `Path.suffix` of a file name. */
  function Suffix(name: string): string {
    if HasSuffix(name) then name[LastIndexOf(name, '.')..] else ""
  }

  /** `Path.stem` of a file name. */
  function Stem(name: string): string {
    if HasSuffix(name) then name[..LastIndexOf(name, '.')] else name
  }

  /** A file name is its stem followed by its suffix. */
  lemma StemSuffix(name: string)
    ensures Stem(name) + Suffix(name) == name
  {
  }

  /** A non-empty stem followed by a dot and a dot-free non-empty extension
      has that dot and extension as its suffix. */
  lemma SuffixOf(stem: string, ext: string)
    requires stem != [] && ext != [] && '.' !in ext
    ensures Suffix(stem + "." + ext) == "." + ext
    ensures Stem(stem + "." + ext) == stem
  {
    var name := stem + "." + ext;
    assert name[|stem|] == '.';
    forall j | |stem| < j < |name| ensures name[j] != '.' {
      assert name[j] == ext[j - |stem| - 1];
    }
    LastIndexAt(name, '.', |stem|);
    assert name[|stem|..] == "." + ext;
    assert name[..|stem|] == stem;
  }

  lemma {:induction false} LastIndexAt(s: string, c: char, i: nat)
    requires i < |s| && s[i] == c
    requires forall j :: i < j < |s| ==> s[j] != c
    ensures c in s && LastIndexOf(s, c) == i
    decreases |s|
  {
    if i < |s| - 1 {
      var p := s[..|s| - 1];
      assert p[i] == c;
      forall j | i < j < |p| ensures p[j] != c {
        assert p[j] == s[j];
      }
      LastIndexAt(p, c, i);
    }
  }

  // ----- `_detect_executor` -----

  /** A character of `_ALNUM_TOKEN`'s class `[A-Za-z0-9+\-_.]`. */
  predicate TokenChar(c: char) {
    IsAsciiAlnum(c) || c == '+' || c == '-' || c == '_' || c == '.'
  }

  /** `_ALNUM_TOKEN.match(token)`. */
  predicate IsSimpleToken(t: string) {
    t != [] && forall i :: 0 <= i < |t| ==> TokenChar(t[i])
  }

  /** `[line.strip() for line in lines if line.strip()]`. */
  function Tokens(lines: seq<string>): (ts: seq<string>)
    ensures |ts| <= |lines|
  {
    if lines == [] then []
    else
      var t := Strip(lines[|lines| - 1]);
      Tokens(lines[..|lines| - 1]) + (if t != [] then [t] else [])
  }

  /** `sum(1 for token in tokens if _ALNUM_TOKEN.match(token))`. */
  function SimpleCount(tokens: seq<string>): (n: nat)
    ensures n <= |tokens|
  {
    if tokens == [] then 0
    else SimpleCount(tokens[..|tokens| - 1]) + (if IsSimpleToken(tokens[|tokens| - 1]) then 1 else 0)
  }

  /** The `.txt` rule: no non-blank line gives UNKNOWN; otherwise MULTIWFN
      when at least 70% of the stripped non-blank lines are simple tokens,
      DATA when not. */
  function DetectText(lines: seq<string>): ExecutorType {
    var tokens := Tokens(lines);
    if tokens == [] then Unknown
    else if 10 * SimpleCount(tokens) >= 7 * |tokens| then Multiwfn
    else Data
  }

  /** `_detect_executor` for a file called `name`. `contents` is what
      `read_text().splitlines()` gives, or None when reading raises OSError;
      it is read only for a `.txt` suffix. */
  function DetectExecutor(name: string, contents: Option<seq<string>>): ExecutorType {
    var suffix := Lower(Suffix(name));
    if suffix == ".sh" || suffix == ".bash" then Shell
    else if suffix == ".bat" then Batch
    else if suffix == ".vmd" then Vmd
    else if suffix == ".tcl" then Tcl
    else if suffix == ".gnu" then Gnuplot
    else if suffix == ".txt" then
      match contents
      case None => Unknown
      case Some(lines) => DetectText(lines)
    else Unknown
  }

  /** Only the suffix, case-insensitively, and for `.txt` the contents,
      decide the executor; a name without a suffix is UNKNOWN. */
  lemma DetectBySuffix(stem: string, ext: string, contents: Option<seq<string>>)
    requires stem != [] && ext != [] && '.' !in ext
    ensures var e := DetectExecutor(stem + "." + ext, contents);
      var x := "." + Lower(ext);
      && (x == ".sh" || x == ".bash" <==> e == Shell)
      && (x == ".bat" <==> e == Batch)
      && (x == ".vmd" <==> e == Vmd)
      && (x == ".tcl" <==> e == Tcl)
      && (x == ".gnu" <==> e == Gnuplot)
      && (x == ".txt" ==> e == (if contents.None? then Unknown else DetectText(contents.value)))
      && (x !in {".sh", ".bash", ".bat", ".vmd", ".tcl", ".gnu", ".txt"} ==> e == Unknown)
  {
    SuffixOf(stem, ext);
    assert Lower("." + ext) == "." + Lower(ext);
  }

  lemma NoSuffixUnknown(name: string, contents: Option<seq<string>>)
    requires '.' !in name
    ensures DetectExecutor(name, contents) == Unknown
  {
  }

  /** A blank line never changes how a `.txt` file is classified. */
  lemma BlankLineIgnored(lines: seq<string>, blank: string)
    requires AllSpace(blank)
    ensures DetectText(lines + [blank]) == DetectText(lines)
  {
    assert (lines + [blank])[..|lines|] == lines;
    StripAllSpace(blank);
    assert Tokens(lines + [blank]) == Tokens(lines) + [];
    assert Tokens(lines) + [] == Tokens(lines);
  }

  /** One more simple line keeps a MULTIWFN file MULTIWFN, one more line
      that is not simple keeps a DATA file DATA. */
  lemma OneMoreLine(lines: seq<string>, line: string)
    ensures IsSimpleToken(Strip(line)) && DetectText(lines) == Multiwfn ==> DetectText(lines + [line]) == Multiwfn
    ensures Strip(line) != [] && !IsSimpleToken(Strip(line)) && DetectText(lines) == Data ==>
      DetectText(lines + [line]) == Data
  {
    assert (lines + [line])[..|lines|] == lines;
    var ts := Tokens(lines + [line]);
    if Strip(line) != [] {
      assert ts == Tokens(lines) + [Strip(line)];
      assert ts[..|ts| - 1] == Tokens(lines);
    }
  }

  lemma {:induction false} CountAllOrNone(ts: seq<string>)
    ensures (forall i :: 0 <= i < |ts| ==> IsSimpleToken(ts[i])) ==> SimpleCount(ts) == |ts|
    ensures (forall i :: 0 <= i < |ts| ==> !IsSimpleToken(ts[i])) ==> SimpleCount(ts) == 0
  {
    if ts != [] {
      var prefix := ts[..|ts| - 1];
      CountAllOrNone(prefix);
      assert forall i :: 0 <= i < |prefix| ==> prefix[i] == ts[i];
    }
  }

  /** A file whose non-blank lines are all simple is MULTIWFN; one with no
      simple line but some non-blank line is DATA. */
  lemma AllOrNoneSimple(lines: seq<string>)
    ensures var ts := Tokens(lines);
      && (ts != [] && (forall i :: 0 <= i < |ts| ==> IsSimpleToken(ts[i])) ==> DetectText(lines) == Multiwfn)
      && (ts != [] && (forall i :: 0 <= i < |ts| ==> !IsSimpleToken(ts[i])) ==> DetectText(lines) == Data)
  {
    CountAllOrNone(Tokens(lines));
  }

  // ----- `discover_scripts` -----

  /** One file `os.walk` reported under a base directory: its posix path
      relative to the base, and its lines when readable. */
  datatype WalkedFile = WalkedFile(relative: string, contents: Option<seq<string>>)

  /** One directory of `script_dirs`: whether it exists, the absolute path
      `base.resolve()` gives for it, and the files the walk of that path
      yields, in walk order with each directory's files sorted. */
  datatype ScriptDir = ScriptDir(exists_: bool, resolved: string, files: seq<WalkedFile>)
  {
    /** `base.name` after resolving. */
    function Name(): string {
      FileName(resolved)
    }
  }

  /** `base / relative` as posix text: one `/` between the two, none added
      after the root `/`. */
  function JoinPath(base: string, relative: string): string {
    if base != [] && base[|base| - 1] == '/' then base + relative else base + "/" + relative
  }

  /** The joined path starts with the base, ends with the relative path, and
      has the relative path's file name, so the name, suffix and stem the
      source reads off the full path are those of the walked file. */
  lemma JoinPathParts(base: string, relative: string)
    ensures var p := JoinPath(base, relative);
      && p[..|base|] == base
      && |p| >= |base| + |relative|
      && p[|p| - |relative|..] == relative
      && FileName(p) == FileName(relative)
  {
    var p := JoinPath(base, relative);
    var k := |p| - |relative|;
    assert p[k..] == relative;
    assert p[k - 1] == '/';
    if '/' in relative {
      var i := LastIndexOf(relative, '/');
      assert p[k + i] == '/';
      forall j | k + i < j < |p| ensures p[j] != '/' {
        assert p[j] == relative[j - k];
      }
      LastIndexAt(p, '/', k + i);
      assert p[k + i + 1..] == relative[i + 1..];
    } else {
      forall j | k - 1 < j < |p| ensures p[j] != '/' {
        assert p[j] == relative[j - k];
      }
      LastIndexAt(p, '/', k - 1);
    }
  }

  /** `root_path.relative_to(base).as_posix() or "."`. */
  function Category(relative: string): string {
    if '/' in relative then relative[..LastIndexOf(relative, '/')] else "."
  }

  /** `f"{base.name}:{relative_id}"`. */
  function Identifier(base: string, relative: string): string {
    base + ":" + relative
  }

  /** The definition the walk appends for one file: identifier
      `<base name>:<relative path>`, path under the resolved directory,
      executor from `_detect_executor`, category from the file's directory. */
  function Definition(base: ScriptDir, f: WalkedFile): ScriptDefinition {
    var path := JoinPath(base.resolved, f.relative);
    ScriptDefinition(Identifier(base.Name(), f.relative), path,
                     DetectExecutor(FileName(path), f.contents), Category(f.relative), "")
  }

  /** The definitions of one directory, in walk order. */
  function DirDefinitions(base: ScriptDir, files: seq<WalkedFile>): (ds: seq<ScriptDefinition>)
    ensures |ds| == |files|
  {
    if files == [] then [] else DirDefinitions(base, files[..|files| - 1]) + [Definition(base, files[|files| - 1])]
  }

  lemma {:induction false} DirDefinitionsAt(base: ScriptDir, files: seq<WalkedFile>, i: nat)
    requires i < |files|
    ensures DirDefinitions(base, files)[i] == Definition(base, files[i])
  {
    var prefix := files[..|files| - 1];
    assert DirDefinitions(base, files) == DirDefinitions(base, prefix) + [Definition(base, files[|files| - 1])];
    if i < |files| - 1 {
      DirDefinitionsAt(base, prefix, i);
      assert prefix[i] == files[i];
    }
  }

  lemma DirDefinitionsStep(base: ScriptDir, files: seq<WalkedFile>, m: nat)
    requires m < |files|
    ensures DirDefinitions(base, files[..m + 1]) == DirDefinitions(base, files[..m]) + [Definition(base, files[m])]
  {
    assert files[..m + 1][..m] == files[..m];
  }

  lemma AppendOne<T>(a: seq<T>, b: seq<T>, x: T)
    ensures a + b + [x] == a + (b + [x])
  {
  }

  /** `definitions` before sorting: the existing directories in order. */
  function Collected(dirs: seq<ScriptDir>): seq<ScriptDefinition> {
    if dirs == [] then []
    else
      var d := dirs[|dirs| - 1];
      Collected(dirs[..|dirs| - 1]) + (if d.exists_ then DirDefinitions(d, d.files) else [])
  }

  /** The sort key of `discover_scripts`. */
  function SortKey(d: ScriptDefinition): string {
    Lower(d.identifier)
  }

  predicate SortedByKey(s: seq<ScriptDefinition>) {
    forall i, j :: 0 <= i < j < |s| ==> !LexLess(SortKey(s[j]), SortKey(s[i]))
  }

  /** Inserts `x` after every element whose key is not greater than its own. */
  function Insert(x: ScriptDefinition, s: seq<ScriptDefinition>): (r: seq<ScriptDefinition>)
    ensures multiset(r) == multiset(s) + multiset{x}
  {
    if s == [] then [x]
    else if LexLess(SortKey(x), SortKey(s[0])) then [x] + s
    else
      assert s == [s[0]] + s[1..];
      [s[0]] + Insert(x, s[1..])
  }

  /** `definitions.sort(key=lambda item: item.identifier.lower())`, a stable
      sort, as insertion in list order. */
  function SortDefinitions(s: seq<ScriptDefinition>): (r: seq<ScriptDefinition>)
    ensures multiset(r) == multiset(s)
  {
    if s == [] then []
    else
      assert s == s[..|s| - 1] + [s[|s| - 1]];
      Insert(s[|s| - 1], SortDefinitions(s[..|s| - 1]))
  }

  lemma InsertElements(x: ScriptDefinition, s: seq<ScriptDefinition>)
    ensures forall y :: y in Insert(x, s) ==> y == x || y in s
  {
    var r := Insert(x, s);
    forall y | y in r ensures y == x || y in s {
      assert y in multiset(r);
    }
  }

  /** An element whose key is below the first key of a sorted list is below
      every key of it. */
  lemma BelowFirst(x: ScriptDefinition, s: seq<ScriptDefinition>, j: nat)
    requires SortedByKey(s) && j < |s| && LexLess(SortKey(x), SortKey(s[0]))
    ensures !LexLess(SortKey(s[j]), SortKey(x))
  {
    if LexLess(SortKey(s[j]), SortKey(x)) {
      LexLessTransitive(SortKey(s[j]), SortKey(x), SortKey(s[0]));
      if j == 0 {
        LexLessIrreflexive(SortKey(s[0]));
      }
    }
  }

  lemma TailSorted(s: seq<ScriptDefinition>)
    requires s != [] && SortedByKey(s)
    ensures SortedByKey(s[1..])
  {
    forall i, j | 0 <= i < j < |s| - 1 ensures !LexLess(SortKey(s[1..][j]), SortKey(s[1..][i])) {
      assert s[1..][i] == s[i + 1] && s[1..][j] == s[j + 1];
    }
  }

  /** Putting `x` in front of a sorted list whose first key is above it. */
  lemma InsertFrontSorted(x: ScriptDefinition, s: seq<ScriptDefinition>)
    requires s != [] && SortedByKey(s) && LexLess(SortKey(x), SortKey(s[0]))
    ensures SortedByKey([x] + s)
  {
    var r := [x] + s;
    forall i, j | 0 <= i < j < |r| ensures !LexLess(SortKey(r[j]), SortKey(r[i])) {
      if i == 0 {
        BelowFirst(x, s, j - 1);
      } else {
        assert r[i] == s[i - 1] && r[j] == s[j - 1];
      }
    }
  }

  /** Keeping the head of a sorted list when `x` is inserted behind it. */
  lemma InsertBehindSorted(x: ScriptDefinition, s: seq<ScriptDefinition>, rest: seq<ScriptDefinition>)
    requires s != [] && SortedByKey(s) && !LexLess(SortKey(x), SortKey(s[0]))
    requires SortedByKey(rest) && forall y :: y in rest ==> y == x || y in s[1..]
    ensures SortedByKey([s[0]] + rest)
  {
    var r := [s[0]] + rest;
    forall i, j | 0 <= i < j < |r| ensures !LexLess(SortKey(r[j]), SortKey(r[i])) {
      assert r[j] == rest[j - 1];
      if i > 0 {
        assert r[i] == rest[i - 1];
      } else if r[j] != x {
        assert r[j] in s[1..];
        var m :| 0 <= m < |s| - 1 && s[1..][m] == r[j];
        assert s[m + 1] == r[j];
      }
    }
  }

  lemma {:induction false} InsertSorted(x: ScriptDefinition, s: seq<ScriptDefinition>)
    requires SortedByKey(s)
    ensures SortedByKey(Insert(x, s))
  {
    if s != [] {
      if LexLess(SortKey(x), SortKey(s[0])) {
        InsertFrontSorted(x, s);
      } else {
        TailSorted(s);
        InsertSorted(x, s[1..]);
        InsertElements(x, s[1..]);
        InsertBehindSorted(x, s, Insert(x, s[1..]));
      }
    }
  }

  /** The sorted definitions are ordered by lower-cased identifier and are a
      permutation of the collected ones. */
  lemma {:induction false} SortDefinitionsSorted(s: seq<ScriptDefinition>)
    ensures SortedByKey(SortDefinitions(s))
    ensures multiset(SortDefinitions(s)) == multiset(s)
  {
    if s != [] {
      SortDefinitionsSorted(s[..|s| - 1]);
      InsertSorted(s[|s| - 1], SortDefinitions(s[..|s| - 1]));
    }
  }

  /** Every collected definition comes from an existing directory and one of
      its files: it is named `<base name>:<relative path>` and its path is the
      file's path under the resolved directory. */
  lemma {:induction false} CollectedIdentifiers(dirs: seq<ScriptDir>)
    ensures forall d :: d in Collected(dirs) ==>
      exists i, j :: (0 <= i < |dirs| && dirs[i].exists_ && 0 <= j < |dirs[i].files|
        && d == Definition(dirs[i], dirs[i].files[j])
        && d.identifier == dirs[i].Name() + ":" + dirs[i].files[j].relative
        && d.path == JoinPath(dirs[i].resolved, dirs[i].files[j].relative))
  {
    if dirs != [] {
      var prefix := dirs[..|dirs| - 1];
      CollectedIdentifiers(prefix);
      var last := dirs[|dirs| - 1];
      forall d | d in Collected(dirs)
        ensures exists i, j :: (0 <= i < |dirs| && dirs[i].exists_ && 0 <= j < |dirs[i].files|
          && d == Definition(dirs[i], dirs[i].files[j])
          && d.identifier == dirs[i].Name() + ":" + dirs[i].files[j].relative
          && d.path == JoinPath(dirs[i].resolved, dirs[i].files[j].relative))
      {
        if d in Collected(prefix) {
          var i, j :| (0 <= i < |prefix| && prefix[i].exists_ && 0 <= j < |prefix[i].files|
            && d == Definition(prefix[i], prefix[i].files[j]));
          assert dirs[i] == prefix[i];
        } else {
          var ds := DirDefinitions(last, last.files);
          var j :| 0 <= j < |ds| && ds[j] == d;
          DirDefinitionsAt(last, last.files, j);
          assert dirs[|dirs| - 1] == last;
        }
      }
    }
  }

  /** The loop of `discover_scripts` over the files of one directory. */
  method AddDirectory(definitions: seq<ScriptDefinition>, base: ScriptDir) returns (r: seq<ScriptDefinition>)
    ensures r == definitions + DirDefinitions(base, base.files)
    ensures |r| == |definitions| + |base.files|
    ensures forall j :: 0 <= j < |base.files| ==>
      && r[|definitions| + j].identifier == base.Name() + ":" + base.files[j].relative
      && r[|definitions| + j].path == JoinPath(base.resolved, base.files[j].relative)
  {
    r := definitions;
    for m := 0 to |base.files|
      invariant r == definitions + DirDefinitions(base, base.files[..m])
    {
      DirDefinitionsStep(base, base.files, m);
      AppendOne(definitions, DirDefinitions(base, base.files[..m]), Definition(base, base.files[m]));
      r := r + [Definition(base, base.files[m])];
    }
    assert base.files[..|base.files|] == base.files;
    forall j | 0 <= j < |base.files|
      ensures r[|definitions| + j] == Definition(base, base.files[j])
    {
      DirDefinitionsAt(base, base.files, j);
    }
  }

  /** `discover_scripts`: the loop over the directories, then the sort. */
  method DiscoverScripts(dirs: seq<ScriptDir>) returns (definitions: seq<ScriptDefinition>)
    ensures definitions == SortDefinitions(Collected(dirs))
  {
    definitions := [];
    for n := 0 to |dirs|
      invariant definitions == Collected(dirs[..n])
    {
      assert dirs[..n + 1][..n] == dirs[..n];
      var base := dirs[n];
      if base.exists_ {
        definitions := AddDirectory(definitions, base);
      }
    }
    assert dirs[..|dirs|] == dirs;
    definitions := SortDefinitions(definitions);
  }

  // ----- `find_script` -----

  /** `script.identifier.lower().split(":", 1)[-1]`. */
  function RelativePart(identifier: string): string {
    if ':' in identifier then SplitFirst(identifier, ':').1 else identifier
  }

  /** `normalized in {identifier, relative, name, stem}`. */
  predicate IsExact(s: ScriptDefinition, q: string) {
    var identifier := Lower(s.identifier);
    q == identifier || q == RelativePart(identifier) || q == Lower(FileName(s.path))
    || q == Lower(Stem(FileName(s.path)))
  }

  /** The suffix test of `find_script`. */
  predicate IsSuffixMatch(s: ScriptDefinition, q: string) {
    var identifier := Lower(s.identifier);
    EndsWith(identifier, q) || EndsWith(RelativePart(identifier), q) || EndsWith(Lower(FileName(s.path)), q)
  }

  /** `_sort_key` order: priority, then identifier as written. */
  predicate KeyLess(a: ScriptDefinition, b: ScriptDefinition) {
    Priority(a.executor) < Priority(b.executor)
    || (Priority(a.executor) == Priority(b.executor) && LexLess(a.identifier, b.identifier))
  }

  predicate SameKey(a: ScriptDefinition, b: ScriptDefinition) {
    Priority(a.executor) == Priority(b.executor) && a.identifier == b.identifier
  }

  /** `exact_matches`. */
  function ExactMatches(scripts: seq<ScriptDefinition>, q: string): seq<ScriptDefinition>
  {
    if scripts == [] then []
    else
      var s := scripts[|scripts| - 1];
      ExactMatches(scripts[..|scripts| - 1], q) + (if IsExact(s, q) then [s] else [])
  }

  /** `suffix_matches`: suffix matches that are not exact. */
  function SuffixMatches(scripts: seq<ScriptDefinition>, q: string): seq<ScriptDefinition>
  {
    if scripts == [] then []
    else
      var s := scripts[|scripts| - 1];
      SuffixMatches(scripts[..|scripts| - 1], q) + (if !IsExact(s, q) && IsSuffixMatch(s, q) then [s] else [])
  }

  /** `exact_matches` holds exactly the scripts that match exactly. */
  lemma {:induction false} ExactMatchesMembers(scripts: seq<ScriptDefinition>, q: string)
    ensures forall s :: s in ExactMatches(scripts, q) <==> s in scripts && IsExact(s, q)
  {
    if scripts != [] {
      var prefix := scripts[..|scripts| - 1];
      ExactMatchesMembers(prefix, q);
      assert scripts == prefix + [scripts[|scripts| - 1]];
    }
  }

  /** `suffix_matches` holds exactly the scripts that match by suffix and
      not exactly. */
  lemma {:induction false} SuffixMatchesMembers(scripts: seq<ScriptDefinition>, q: string)
    ensures forall s :: s in SuffixMatches(scripts, q) <==> s in scripts && !IsExact(s, q) && IsSuffixMatch(s, q)
  {
    if scripts != [] {
      var prefix := scripts[..|scripts| - 1];
      SuffixMatchesMembers(prefix, q);
      assert scripts == prefix + [scripts[|scripts| - 1]];
    }
  }

  /** Where `sorted(...)[0]` of a stable sort comes from: the first
      element of least key. */
  function FirstLeastIndex(s: seq<ScriptDefinition>): (k: nat)
    requires s != []
    ensures k < |s|
  {
    if |s| == 1 then 0
    else
      var k := FirstLeastIndex(s[..|s| - 1]);
      if KeyLess(s[|s| - 1], s[k]) then |s| - 1 else k
  }

  /** What `find_script` returns for a normalised, non-empty query. */
  function Pick(scripts: seq<ScriptDefinition>, q: string): Option<ScriptDefinition> {
    var exact := ExactMatches(scripts, q);
    if exact != [] then Some(exact[FirstLeastIndex(exact)])
    else
      var suffix := SuffixMatches(scripts, q);
      if |suffix| == 1 then Some(suffix[0]) else None
  }

  /** What `find_script` returns. */
  function FindScriptSpec(scripts: seq<ScriptDefinition>, query: string): Option<ScriptDefinition> {
    var q := Lower(Strip(query));
    if q == [] then None else Pick(scripts, q)
  }

  /** The loop of `find_script`. */
  method CollectMatches(scripts: seq<ScriptDefinition>, normalized: string)
    returns (exact: seq<ScriptDefinition>, suffix: seq<ScriptDefinition>)
    ensures exact == ExactMatches(scripts, normalized)
    ensures suffix == SuffixMatches(scripts, normalized)
  {
    exact, suffix := [], [];
    for i := 0 to |scripts|
      invariant exact == ExactMatches(scripts[..i], normalized)
      invariant suffix == SuffixMatches(scripts[..i], normalized)
    {
      assert scripts[..i + 1][..i] == scripts[..i];
      var script := scripts[i];
      if IsExact(script, normalized) {
        exact := exact + [script];
        continue;
      }
      if IsSuffixMatch(script, normalized) {
        suffix := suffix + [script];
      }
    }
    assert scripts[..|scripts|] == scripts;
  }

  /** `exact_matches.sort(key=_sort_key)` followed by `[0]`. */
  method FirstOfLeast(exact: seq<ScriptDefinition>) returns (k: nat)
    requires exact != []
    ensures k == FirstLeastIndex(exact)
  {
    k := 0;
    for i := 1 to |exact|
      invariant k == FirstLeastIndex(exact[..i])
    {
      assert exact[..i + 1][..i] == exact[..i];
      if KeyLess(exact[i], exact[k]) {
        k := i;
      }
    }
    assert exact[..|exact|] == exact;
  }

  /** `find_script`. */
  method FindScript(scripts: seq<ScriptDefinition>, query: string) returns (r: Option<ScriptDefinition>)
    ensures r == FindScriptSpec(scripts, query)
  {
    var normalized := Lower(Strip(query));
    if |normalized| == 0 {
      return None;
    }
    var exact, suffix := CollectMatches(scripts, normalized);
    if |exact| > 0 {
      var k := FirstOfLeast(exact);
      return Some(exact[k]);
    }
    if |suffix| == 1 {
      return Some(suffix[0]);
    }
    return None;
  }

  // ----- Properties of `find_script` -----

  lemma KeyLessIrreflexive(a: ScriptDefinition)
    ensures !KeyLess(a, a)
  {
    LexLessIrreflexive(a.identifier);
  }

  lemma KeyLessTransitive(a: ScriptDefinition, b: ScriptDefinition, c: ScriptDefinition)
    requires KeyLess(a, b) && KeyLess(b, c)
    ensures KeyLess(a, c)
  {
    if Priority(a.executor) == Priority(b.executor) == Priority(c.executor) {
      LexLessTransitive(a.identifier, b.identifier, c.identifier);
    }
  }

  /** Two keys are equal or ordered one way or the other. */
  lemma KeyLessTotal(a: ScriptDefinition, b: ScriptDefinition)
    ensures SameKey(a, b) || KeyLess(a, b) || KeyLess(b, a)
  {
    if Priority(a.executor) == Priority(b.executor) && a.identifier != b.identifier {
      LexLessTotal(a.identifier, b.identifier);
    }
  }

  /** No element has a key below the chosen one, and every element before
      it has a strictly greater key: it is the first of the least. */
  lemma {:induction false} FirstLeastIsFirstOfLeast(s: seq<ScriptDefinition>)
    requires s != []
    ensures forall j :: 0 <= j < |s| ==> !KeyLess(s[j], s[FirstLeastIndex(s)])
    ensures forall j :: 0 <= j < FirstLeastIndex(s) ==> KeyLess(s[FirstLeastIndex(s)], s[j])
  {
    if |s| > 1 {
      var prefix := s[..|s| - 1];
      var last := s[|s| - 1];
      FirstLeastIsFirstOfLeast(prefix);
      var k := FirstLeastIndex(prefix);
      var m := prefix[k];
      assert s[k] == m;
      if KeyLess(last, m) {
        assert FirstLeastIndex(s) == |s| - 1;
        forall j | 0 <= j < |s| - 1 ensures KeyLess(last, s[j]) {
          assert s[j] == prefix[j];
          KeyLessTotal(m, s[j]);
          if KeyLess(m, s[j]) {
            KeyLessTransitive(last, m, s[j]);
          }
        }
        forall j | 0 <= j < |s| ensures !KeyLess(s[j], last) {
          if j < |s| - 1 {
            NotBothLess(s[j], last);
          } else {
            KeyLessIrreflexive(last);
          }
        }
      } else {
        assert FirstLeastIndex(s) == k;
        forall j | 0 <= j < |s| ensures !KeyLess(s[j], m) {
          if j < |s| - 1 {
            assert s[j] == prefix[j];
          }
        }
        forall j | 0 <= j < k ensures KeyLess(m, s[j]) {
          assert s[j] == prefix[j];
        }
      }
    } else {
      KeyLessIrreflexive(s[0]);
    }
  }

  lemma NotBothLess(a: ScriptDefinition, b: ScriptDefinition)
    requires KeyLess(b, a)
    ensures !KeyLess(a, b)
  {
    if KeyLess(a, b) {
      KeyLessTransitive(a, b, a);
      KeyLessIrreflexive(a);
    }
  }

  /** An empty query, once stripped, finds nothing. */
  lemma EmptyQueryFindsNothing(scripts: seq<ScriptDefinition>, query: string)
    requires AllSpace(query)
    ensures FindScriptSpec(scripts, query) == None
  {
    StripAllSpace(query);
  }

  /** When some script matches the query exactly, the result is an exact
      match whose (priority, identifier) is least among all exact matches,
      and every exact match before it has a greater key. */
  lemma FindExact(scripts: seq<ScriptDefinition>, q: string)
    requires exists s :: s in scripts && IsExact(s, q)
    ensures Pick(scripts, q).Some?
    ensures Pick(scripts, q).value in scripts && IsExact(Pick(scripts, q).value, q)
    ensures forall s :: s in scripts && IsExact(s, q) ==> !KeyLess(s, Pick(scripts, q).value)
    ensures exists k :: 0 <= k < |ExactMatches(scripts, q)| && ExactIsFirstOfLeast(scripts, q, k)
  {
    var exact := ExactMatches(scripts, q);
    ExactMatchesMembers(scripts, q);
    var s :| s in scripts && IsExact(s, q);
    assert s in exact;
    FirstLeastIsFirstOfLeast(exact);
    var k := FirstLeastIndex(exact);
    var r := exact[k];
    assert r in exact;
    assert Pick(scripts, q) == Some(r);
    forall t | t in scripts && IsExact(t, q) ensures !KeyLess(t, r) {
      var j :| 0 <= j < |exact| && exact[j] == t;
    }
    assert ExactIsFirstOfLeast(scripts, q, k);
  }

  /** The `k`-th exact match is the result and every exact match before it
      has a greater key. */
  ghost predicate ExactIsFirstOfLeast(scripts: seq<ScriptDefinition>, q: string, k: nat)
    requires k < |ExactMatches(scripts, q)|
  {
    var exact := ExactMatches(scripts, q);
    Pick(scripts, q) == Some(exact[k]) && forall j :: 0 <= j < k ==> KeyLess(exact[k], exact[j])
  }

  /** When nothing matches the query exactly, a script is returned only
      when it is the one and only suffix match (`SuffixMatchesMembers` says
      which scripts those are). */
  lemma FindSuffix(scripts: seq<ScriptDefinition>, q: string)
    requires ExactMatches(scripts, q) == []
    ensures Pick(scripts, q).Some? <==> |SuffixMatches(scripts, q)| == 1
    ensures Pick(scripts, q).Some? ==> SuffixMatches(scripts, q) == [Pick(scripts, q).value]
  {
    var suffix := SuffixMatches(scripts, q);
    if |suffix| == 1 {
      assert suffix == [suffix[0]];
    }
  }
}
