/** `_sanitize_key` of multiwfn_cli/cp_parser.py: turns a human-readable label
    into a field key made of lower-case letters, digits and single inner
    underscores. */
module CpKeys {
  import opened PyStr

  /** `s.replace(pat, rep)`: every occurrence, left to right, without overlap. */
  function ReplaceAll(s: string, pat: string, rep: string): string
    requires pat != []
    decreases |s|
  {
    if |s| < |pat| then s
    else if s[..|pat|] == pat then rep + ReplaceAll(s[|pat|..], pat, rep)
    else [s[0]] + ReplaceAll(s[1..], pat, rep)
  }

  /** Length of the leading run of characters outside `[a-z0-9]`. */
  function NonAlnumRun(s: string): (n: nat)
    ensures n <= |s|
    ensures forall i :: 0 <= i < n ==> !IsLowerAlnum(s[i])
    ensures n < |s| ==> IsLowerAlnum(s[n])
  {
    if s == [] || IsLowerAlnum(s[0]) then 0 else 1 + NonAlnumRun(s[1..])
  }

  /** `re.sub(r"[^a-z0-9]+", "_", s)`: every maximal run outside `[a-z0-9]`
      becomes one underscore. */
  function SubNonAlnum(s: string): string
    decreases |s|
  {
    if s == [] then []
    else if IsLowerAlnum(s[0]) then [s[0]] + SubNonAlnum(s[1..])
    else "_" + SubNonAlnum(s[NonAlnumRun(s)..])
  }

  /** Length of the leading run of underscores. */
  function UnderscoreRun(s: string): (n: nat)
    ensures n <= |s|
    ensures forall i :: 0 <= i < n ==> s[i] == '_'
    ensures n < |s| ==> s[n] != '_'
  {
    if s == [] || s[0] != '_' then 0 else 1 + UnderscoreRun(s[1..])
  }

  /** `re.sub(r"_+", "_", s)`. */
  function CollapseUnderscores(s: string): string
    decreases |s|
  {
    if s == [] then []
    else if s[0] != '_' then [s[0]] + CollapseUnderscores(s[1..])
    else "_" + CollapseUnderscores(s[UnderscoreRun(s)..])
  }

  /** `_sanitize_key`. */
  function SanitizeKey(text: string): string {
    var lowered := ReplaceAll(Lower(text), "(columns)", "columns");
    var cleaned := StripChar(CollapseUnderscores(SubNonAlnum(lowered)), '_');
    if cleaned == [] then "field" else cleaned
  }

  // ----- What a key looks like -----

  predicate KeyChar(c: char) {
    IsLowerAlnum(c) || c == '_'
  }

  predicate KeyChars(s: string) {
    forall i :: 0 <= i < |s| ==> KeyChar(s[i])
  }

  predicate NoDoubleUnderscore(s: string) {
    forall i :: 0 <= i < |s| - 1 ==> !(s[i] == '_' && s[i + 1] == '_')
  }

  /** The shape every sanitised key has. */
  predicate IsKey(s: string) {
    && s != []
    && KeyChars(s)
    && NoDoubleUnderscore(s)
    && s[0] != '_'
    && s[|s| - 1] != '_'
  }

  // ----- Step lemmas -----

  lemma {:induction false} SubNonAlnumShape(s: string)
    ensures KeyChars(SubNonAlnum(s)) && NoDoubleUnderscore(SubNonAlnum(s))
    ensures SubNonAlnum(s) != [] && s != [] ==> (SubNonAlnum(s)[0] == '_' <==> !IsLowerAlnum(s[0]))
    decreases |s|
  {
    if s != [] {
      var rest := if IsLowerAlnum(s[0]) then s[1..] else s[NonAlnumRun(s)..];
      SubNonAlnumShape(rest);
      var r := SubNonAlnum(rest);
      if !IsLowerAlnum(s[0]) && r != [] {
        assert IsLowerAlnum(rest[0]);
        assert r[0] != '_';
      }
      var out := SubNonAlnum(s);
      assert out[1..] == r;
      forall i | 0 <= i < |out| - 1 ensures !(out[i] == '_' && out[i + 1] == '_') {
        if i > 0 {
          assert out[i] == r[i - 1] && out[i + 1] == r[i];
        }
      }
      forall i | 0 <= i < |out| ensures KeyChar(out[i]) {
        if i > 0 {
          assert out[i] == r[i - 1];
        }
      }
    }
  }

  lemma {:induction false} CollapseKeepsShape(s: string)
    requires KeyChars(s)
    ensures KeyChars(CollapseUnderscores(s)) && NoDoubleUnderscore(CollapseUnderscores(s))
    ensures CollapseUnderscores(s) != [] && s != [] ==> (CollapseUnderscores(s)[0] == '_' <==> s[0] == '_')
    decreases |s|
  {
    if s != [] {
      var rest := if s[0] != '_' then s[1..] else s[UnderscoreRun(s)..];
      assert KeyChars(rest) by {
        forall i | 0 <= i < |rest| ensures KeyChar(rest[i]) {
          assert rest[i] == s[|s| - |rest| + i];
        }
      }
      CollapseKeepsShape(rest);
      var r := CollapseUnderscores(rest);
      var out := CollapseUnderscores(s);
      assert out[1..] == r;
      forall i | 0 <= i < |out| - 1 ensures !(out[i] == '_' && out[i + 1] == '_') {
        if i > 0 {
          assert out[i] == r[i - 1] && out[i + 1] == r[i];
        }
      }
      forall i | 0 <= i < |out| ensures KeyChar(out[i]) {
        if i > 0 {
          assert out[i] == r[i - 1];
        }
      }
    }
  }

  lemma {:induction false} StripKeepsShape(s: string)
    requires KeyChars(s) && NoDoubleUnderscore(s)
    ensures KeyChars(StripChar(s, '_')) && NoDoubleUnderscore(StripChar(s, '_'))
    decreases |s|
  {
    if s != [] && s[0] == '_' {
      assert forall i :: 0 <= i < |s| - 1 ==> s[1..][i] == s[i + 1];
      StripKeepsShape(s[1..]);
    } else if s != [] && s[|s| - 1] == '_' {
      assert forall i :: 0 <= i < |s| - 1 ==> s[..|s| - 1][i] == s[i];
      StripKeepsShape(s[..|s| - 1]);
    }
  }

  /** Every key `_sanitize_key` produces is non-empty, uses only `[a-z0-9_]`,
      and has no leading, trailing or doubled underscore. */
  lemma SanitizeKeyIsKey(text: string)
    ensures IsKey(SanitizeKey(text))
  {
    var lowered := ReplaceAll(Lower(text), "(columns)", "columns");
    var sub := SubNonAlnum(lowered);
    SubNonAlnumShape(lowered);
    CollapseKeepsShape(sub);
    StripKeepsShape(CollapseUnderscores(sub));
    var cleaned := StripChar(CollapseUnderscores(sub), '_');
    if cleaned == [] {
      FieldIsKey();
    } else {
      assert SanitizeKey(text) == cleaned;
    }
  }

  /** The fallback key is itself a key. */
  lemma FieldIsKey()
    ensures IsKey("field")
  {
    var f := "field";
    assert f[0] == 'f' && f[1] == 'i' && f[2] == 'e' && f[3] == 'l' && f[4] == 'd';
  }

  // ----- Labels without letters or digits -----

  predicate NoAsciiAlnum(s: string) {
    forall i :: 0 <= i < |s| ==> !IsAsciiAlnum(s[i])
  }

  lemma {:induction false} ReplaceWithoutMatch(s: string)
    requires forall i :: 0 <= i < |s| ==> !IsLowerAlnum(s[i])
    ensures ReplaceAll(s, "(columns)", "columns") == s
    decreases |s|
  {
    if |s| >= 9 {
      assert s[..9][1] == s[1];
      assert s[..9] != "(columns)";
      ReplaceWithoutMatch(s[1..]);
    }
  }

  /** A label with no letter or digit becomes "field". */
  lemma SanitizeNoAlnum(text: string)
    requires NoAsciiAlnum(text)
    ensures SanitizeKey(text) == "field"
  {
    var low := Lower(text);
    assert forall i :: 0 <= i < |low| ==> !IsLowerAlnum(low[i]);
    ReplaceWithoutMatch(low);
    if low != [] {
      assert NonAlnumRun(low) == |low|;
      assert SubNonAlnum(low) == "_" + SubNonAlnum([]);
      assert CollapseUnderscores("_") == "_" + CollapseUnderscores([]);
      assert StripChar("_", '_') == StripChar([], '_');
    }
  }

  // ----- Idempotence -----

  lemma {:induction false} SubNonAlnumOfKey(s: string)
    requires KeyChars(s) && NoDoubleUnderscore(s)
    ensures SubNonAlnum(s) == s
    decreases |s|
  {
    if s != [] {
      var rest := if IsLowerAlnum(s[0]) then s[1..] else s[NonAlnumRun(s)..];
      if !IsLowerAlnum(s[0]) {
        assert s[0] == '_';
        assert NonAlnumRun(s) == 1;
      }
      assert rest == s[1..];
      assert forall i :: 0 <= i < |s| - 1 ==> s[1..][i] == s[i + 1];
      SubNonAlnumOfKey(rest);
    }
  }

  lemma {:induction false} CollapseOfKey(s: string)
    requires NoDoubleUnderscore(s)
    ensures CollapseUnderscores(s) == s
    decreases |s|
  {
    if s != [] {
      if s[0] == '_' {
        assert UnderscoreRun(s) == 1;
      }
      assert forall i :: 0 <= i < |s| - 1 ==> s[1..][i] == s[i + 1];
      CollapseOfKey(s[1..]);
    }
  }

  lemma {:induction false} ReplaceWithoutParen(s: string)
    requires '(' !in s
    ensures ReplaceAll(s, "(columns)", "columns") == s
    decreases |s|
  {
    if |s| >= 9 {
      assert s[..9][0] == s[0];
      ReplaceWithoutParen(s[1..]);
    }
  }

  /** A key is its own sanitised form. */
  lemma SanitizeKeyFixesKeys(s: string)
    requires IsKey(s)
    ensures SanitizeKey(s) == s
  {
    assert Lower(s) == s;
    assert forall i :: 0 <= i < |s| ==> KeyChar(s[i]) && s[i] != '(';
    ReplaceWithoutParen(s);
    SubNonAlnumOfKey(s);
    CollapseOfKey(s);
  }

  /** `_sanitize_key` is idempotent. */
  lemma SanitizeKeyIdempotent(text: string)
    ensures SanitizeKey(SanitizeKey(text)) == SanitizeKey(text)
  {
    SanitizeKeyIsKey(text);
    SanitizeKeyFixesKeys(SanitizeKey(text));
  }
}
