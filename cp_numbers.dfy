/** `FLOAT_RE` and `_parse_numbers` of multiwfn_cli/cp_parser.py, as an explicit
    scanner. The pattern `[-+]?\d*\.?\d+(?:[Ee][-+]?\d+)?` is matched the way a
    backtracking matcher does it: the sign is taken when present, the digits
    and the dot greedily, and the exponent only when at least one digit
    follows it. A number stays the token text it was matched from; converting
    that text with `float()` is not part of the model. */
module CpNumbers {
  import opened Wrappers
  import opened PyStr

  predicate IsSign(c: char) {
    c == '+' || c == '-'
  }

  predicate AllDigits(s: string) {
    forall i :: 0 <= i < |s| ==> IsDigit(s[i])
  }

  predicate DigitsAndDots(s: string) {
    forall i :: 0 <= i < |s| ==> IsDigit(s[i]) || s[i] == '.'
  }

  predicate HasDigit(s: string) {
    exists i :: 0 <= i < |s| && IsDigit(s[i])
  }

  // ----- The regular language of FLOAT_RE, stated declaratively -----

  /** `\d*\.?\d+`: digits, or digits, a dot and at least one digit. */
  predicate IsMantissa(m: string) {
    if '.' in m then
      var i := IndexOf(m, '.');
      AllDigits(m[..i]) && i + 1 < |m| && AllDigits(m[i + 1..])
    else
      m != [] && AllDigits(m)
  }

  /** `(?:[Ee][-+]?\d+)?`. */
  predicate IsExponent(x: string) {
    x == [] ||
    (x[0] in "Ee" &&
     var y := if |x| > 1 && IsSign(x[1]) then x[2..] else x[1..];
     y != [] && AllDigits(y))
  }

  /** Position of the first `E` or `e`, or the length. */
  function ExponentStart(u: string): (k: nat)
    ensures k <= |u|
    ensures forall i :: 0 <= i < k ==> u[i] !in "Ee"
    ensures k < |u| ==> u[k] in "Ee"
  {
    if u == [] || u[0] in "Ee" then 0 else 1 + ExponentStart(u[1..])
  }

  /** `t` belongs to the language of FLOAT_RE. */
  predicate IsFloatToken(t: string) {
    var u := if t != [] && IsSign(t[0]) then t[1..] else t;
    var k := ExponentStart(u);
    IsMantissa(u[..k]) && IsExponent(u[k..])
  }

  // ----- The scanner -----

  /** Length of the run of digits at `p`. */
  function DigitRun(s: string, p: nat): (n: nat)
    requires p <= |s|
    ensures p + n <= |s|
    ensures forall i :: p <= i < p + n ==> IsDigit(s[i])
    ensures p + n < |s| ==> !IsDigit(s[p + n])
    decreases |s| - p
  {
    if p < |s| && IsDigit(s[p]) then 1 + DigitRun(s, p + 1) else 0
  }

  /** Where `\d*\.?\d+` ends when matched at `q`, after an optional sign. */
  function MantissaEnd(s: string, q: nat): (e: Option<nat>)
    requires q <= |s|
    ensures e.Some? ==> q < e.value <= |s|
  {
    var d1 := DigitRun(s, q);
    var e := q + d1;
    if e + 1 < |s| && s[e] == '.' && IsDigit(s[e + 1]) then Some(e + 1 + DigitRun(s, e + 1))
    else if d1 > 0 then Some(e)
    else None
  }

  /** Where the optional exponent that may follow position `e` ends. */
  function ExponentEnd(s: string, e: nat): (f: nat)
    requires e <= |s|
    ensures e <= f <= |s|
  {
    if e < |s| && s[e] in "Ee" then
      var q := if e + 1 < |s| && IsSign(s[e + 1]) then e + 2 else e + 1;
      var d := DigitRun(s, q);
      if d > 0 then q + d else e
    else e
  }

  /** End of the match of FLOAT_RE that starts exactly at `p`, if any. */
  function MatchAt(s: string, p: nat): (e: Option<nat>)
    requires p <= |s|
    ensures e.Some? ==> p < e.value <= |s|
  {
    var q := if p < |s| && IsSign(s[p]) then p + 1 else p;
    match MantissaEnd(s, q)
    case None => None
    case Some(m) => Some(ExponentEnd(s, m))
  }

  /** `FLOAT_RE.findall(s[p:])`: the leftmost non-overlapping matches. */
  function FindAll(s: string, p: nat): seq<string>
    requires p <= |s|
    decreases |s| - p
  {
    if p == |s| then []
    else
      match MatchAt(s, p)
      case Some(e) => [s[p..e]] + FindAll(s, e)
      case None => FindAll(s, p + 1)
  }

  /** `text.replace("D", "E")`: Fortran double-precision exponents. */
  function FortranToE(text: string): (r: string)
    ensures |r| == |text|
    ensures forall i :: 0 <= i < |text| ==> r[i] == (if text[i] == 'D' then 'E' else text[i])
  {
    seq(|text|, i requires 0 <= i < |text| => if text[i] == 'D' then 'E' else text[i])
  }

  /** `_parse_numbers`: the number tokens of `text`, in order. */
  function ParseNumbers(text: string): seq<string> {
    var cleaned := FortranToE(text);
    FindAll(cleaned, 0)
  }

  // ----- Properties -----

  lemma IndexOfIsFirst(s: string, c: char, i: nat)
    requires i < |s| && s[i] == c && c !in s[..i]
    ensures c in s && IndexOf(s, c) == i
  {
    if i > 0 {
      assert s[0] == s[..i][0];
      assert s[1..][..i - 1] == s[1..i];
      assert s[1..i] == s[..i][1..];
      IndexOfIsFirst(s[1..], c, i - 1);
    }
  }

  lemma ExponentStartAt(u: string, k: nat)
    requires k <= |u|
    requires DigitsAndDots(u[..k])
    requires k < |u| ==> u[k] in "Ee"
    ensures ExponentStart(u) == k
  {
    if k > 0 {
      assert u[0] !in "Ee" by { assert u[..k][0] == u[0]; }
      assert u[1..][..k - 1] == u[..k][1..];
      ExponentStartAt(u[1..], k - 1);
    }
  }

  /** The text `MantissaEnd` consumes is a mantissa made of digits and a dot. */
  lemma MantissaMatch(s: string, q: nat)
    requires q <= |s| && MantissaEnd(s, q).Some?
    ensures IsMantissa(s[q..MantissaEnd(s, q).value])
    ensures HasDigit(s[q..MantissaEnd(s, q).value])
    ensures DigitsAndDots(s[q..MantissaEnd(s, q).value])
  {
    var m := MantissaEnd(s, q).value;
    var d1 := DigitRun(s, q);
    var e0 := q + d1;
    if e0 + 1 < |s| && s[e0] == '.' && IsDigit(s[e0 + 1]) {
      assert m == e0 + 1 + DigitRun(s, e0 + 1);
      MantissaWithDot(s, q, e0, m);
    } else {
      assert m == e0 && d1 > 0;
      MantissaOfDigits(s, q, m);
    }
  }

  lemma MantissaWithDot(s: string, q: nat, e0: nat, m: nat)
    requires q <= e0 && e0 + 1 < m <= |s| && s[e0] == '.'
    requires forall i :: q <= i < e0 ==> IsDigit(s[i])
    requires forall i :: e0 < i < m ==> IsDigit(s[i])
    ensures IsMantissa(s[q..m]) && HasDigit(s[q..m]) && DigitsAndDots(s[q..m])
  {
    var mm := s[q..m];
    var d1 := e0 - q;
    assert mm[d1] == '.';
    assert mm[..d1] == s[q..e0];
    assert '.' !in mm[..d1] by {
      forall i | 0 <= i < d1 ensures mm[..d1][i] != '.' {
        assert mm[..d1][i] == s[q + i];
      }
    }
    IndexOfIsFirst(mm, '.', d1);
    assert AllDigits(mm[..d1]) by {
      forall i | 0 <= i < d1 ensures IsDigit(mm[..d1][i]) {
        assert mm[..d1][i] == s[q + i];
      }
    }
    var rest := mm[d1 + 1..];
    assert AllDigits(rest) by {
      forall i | 0 <= i < |rest| ensures IsDigit(rest[i]) {
        assert rest[i] == s[e0 + 1 + i];
      }
    }
    assert mm[d1 + 1] == s[e0 + 1];
    assert DigitsAndDots(mm) by {
      forall i | 0 <= i < |mm| ensures IsDigit(mm[i]) || mm[i] == '.' {
        assert mm[i] == s[q + i];
      }
    }
  }

  lemma MantissaOfDigits(s: string, q: nat, m: nat)
    requires q < m <= |s|
    requires forall i :: q <= i < m ==> IsDigit(s[i])
    ensures IsMantissa(s[q..m]) && HasDigit(s[q..m]) && DigitsAndDots(s[q..m])
  {
    var mm := s[q..m];
    assert forall i :: 0 <= i < |mm| ==> mm[i] == s[q + i];
    assert '.' !in mm;
    assert mm[0] == s[q];
  }


  /** The text `ExponentEnd` consumes is an exponent, and a non-empty one
      starts with `E` or `e`. */
  lemma ExponentMatch(s: string, m: nat)
    requires m <= |s|
    ensures IsExponent(s[m..ExponentEnd(s, m)])
    ensures ExponentEnd(s, m) > m ==> s[m] in "Ee"
  {
    var f := ExponentEnd(s, m);
    var x := s[m..f];
    if f > m {
      var q := if m + 1 < |s| && IsSign(s[m + 1]) then m + 2 else m + 1;
      assert x[0] == s[m];
      if m + 1 < |s| && IsSign(s[m + 1]) {
        assert |x| > 1 && x[1] == s[m + 1];
        assert x[2..] == s[q..f];
      } else {
        assert !(|x| > 1 && IsSign(x[1]));
        assert x[1..] == s[q..f];
      }
    }
  }

  lemma NotSign(c: char)
    requires IsDigit(c) || c == '.'
    ensures !IsSign(c)
  {
  }

  lemma MatchIsFloatToken(s: string, p: nat)
    requires p <= |s| && MatchAt(s, p).Some?
    ensures IsFloatToken(s[p..MatchAt(s, p).value]) && HasDigit(s[p..MatchAt(s, p).value])
  {
    var e := MatchAt(s, p).value;
    var q := if p < |s| && IsSign(s[p]) then p + 1 else p;
    var m := MantissaEnd(s, q).value;
    assert e == ExponentEnd(s, m);
    MantissaMatch(s, q);
    ExponentMatch(s, m);
    FloatTokenOfSlices(s, p, q, m, e);
  }

  /** A sign (or nothing), a mantissa and an exponent, side by side in `s`,
      make a token in FLOAT_RE's language. */
  lemma FloatTokenOfSlices(s: string, p: nat, q: nat, m: nat, e: nat)
    requires p <= q <= m <= e <= |s|
    requires q == p || (q == p + 1 && IsSign(s[p]))
    requires IsMantissa(s[q..m]) && HasDigit(s[q..m]) && DigitsAndDots(s[q..m])
    requires IsExponent(s[m..e]) && (e > m ==> s[m] in "Ee")
    ensures IsFloatToken(s[p..e]) && HasDigit(s[p..e])
  {
    var u := s[q..e];
    var k := m - q;
    assert u[..k] == s[q..m];
    assert u[k..] == s[m..e];
    UnsignedToken(u, k);
    DigitWithin(s, p, q, m, e);
    var t := s[p..e];
    if q == p {
      assert s[q..m][0] == s[p];
      NotSign(s[p]);
      assert t == u;
    } else {
      assert t[1..] == u;
    }
    FloatTokenOfBody(t, u);
  }

  /** A mantissa of `k` characters followed by an exponent splits at `k`. */
  lemma UnsignedToken(u: string, k: nat)
    requires k <= |u|
    requires IsMantissa(u[..k]) && DigitsAndDots(u[..k])
    requires IsExponent(u[k..]) && (k < |u| ==> u[k] in "Ee")
    ensures IsMantissa(u[..ExponentStart(u)]) && IsExponent(u[ExponentStart(u)..])
  {
    ExponentStartAt(u, k);
  }

  lemma DigitWithin(s: string, p: nat, q: nat, m: nat, e: nat)
    requires p <= q <= m <= e <= |s| && HasDigit(s[q..m])
    ensures HasDigit(s[p..e])
  {
    var j :| 0 <= j < m - q && IsDigit(s[q..m][j]);
    assert s[p..e][q - p + j] == s[q..m][j];
  }

  /** `t` is a float token when its unsigned body `u` splits into mantissa and exponent. */
  lemma FloatTokenOfBody(t: string, u: string)
    requires (t != [] && IsSign(t[0]) && t[1..] == u) || ((t == [] || !IsSign(t[0])) && t == u)
    requires IsMantissa(u[..ExponentStart(u)]) && IsExponent(u[ExponentStart(u)..])
    ensures IsFloatToken(t)
  {
  }



  /** A run of `n` digits at `p` is consumed in full by `DigitRun`. */
  lemma {:induction false} DigitRunCovers(s: string, p: nat, n: nat)
    requires p + n <= |s|
    requires forall i :: p <= i < p + n ==> IsDigit(s[i])
    ensures DigitRun(s, p) >= n
    decreases n
  {
    if n > 0 {
      DigitRunCovers(s, p + 1, n - 1);
    }
  }

  /** Whatever mantissa starts at `q`, `MantissaEnd` consumes at least it. */
  lemma MantissaCovers(s: string, q: nat, k: nat)
    requires q + k <= |s| && IsMantissa(s[q..q + k])
    ensures MantissaEnd(s, q).Some? && MantissaEnd(s, q).value >= q + k
  {
    var mant := s[q..q + k];
    if '.' in mant {
      var i := IndexOf(mant, '.');
      assert forall j :: q <= j < q + i ==> IsDigit(s[j]) by {
        forall j | q <= j < q + i ensures IsDigit(s[j]) {
          assert mant[..i][j - q] == s[j];
        }
      }
      DigitRunCovers(s, q, i);
      assert s[q + i] == mant[i] == '.';
      assert DigitRun(s, q) == i;
      assert forall j :: q + i + 1 <= j < q + k ==> IsDigit(s[j]) by {
        forall j | q + i + 1 <= j < q + k ensures IsDigit(s[j]) {
          assert mant[i + 1..][j - q - i - 1] == s[j];
        }
      }
      assert IsDigit(s[q + i + 1]);
      DigitRunCovers(s, q + i + 1, k - i - 1);
    } else {
      assert forall j :: q <= j < q + k ==> IsDigit(s[j]) by {
        forall j | q <= j < q + k ensures IsDigit(s[j]) {
          assert mant[j - q] == s[j];
        }
      }
      DigitRunCovers(s, q, k);
    }
  }

  /** Whatever exponent starts at `m`, `ExponentEnd` consumes at least it. */
  lemma ExponentCovers(s: string, m: nat, f: nat)
    requires m < f <= |s| && IsExponent(s[m..f])
    ensures ExponentEnd(s, m) >= f
  {
    var x := s[m..f];
    assert x[0] == s[m];
    if |x| > 1 && IsSign(x[1]) {
      assert x[1] == s[m + 1];
      assert forall j :: m + 2 <= j < f ==> IsDigit(s[j]) by {
        forall j | m + 2 <= j < f ensures IsDigit(s[j]) {
          assert x[2..][j - m - 2] == s[j];
        }
      }
      DigitRunCovers(s, m + 2, f - m - 2);
    } else {
      assert m + 1 < f;
      assert x[1] == s[m + 1];
      assert forall j :: m + 1 <= j < f ==> IsDigit(s[j]) by {
        forall j | m + 1 <= j < f ensures IsDigit(s[j]) {
          assert x[1..][j - m - 1] == s[j];
        }
      }
      DigitRunCovers(s, m + 1, f - m - 1);
    }
  }

  lemma EndsBeforeExponent(s: string, q: nat, k: nat)
    requires q + k < |s| && s[q + k] in "Ee"
    requires MantissaEnd(s, q).Some? && MantissaEnd(s, q).value >= q + k
    ensures MantissaEnd(s, q).value == q + k
  {
    var m := MantissaEnd(s, q).value;
    MantissaMatch(s, q);
    forall i | q <= i < m
      ensures s[i] != 'E' && s[i] != 'e'
    {
      assert s[q..m][i - q] == s[i];
    }
  }

  /** A token `s[p..f]` split as the scanner sees it: the optional sign ends
      at `q`, the mantissa is `s[q..q + k]` and the exponent the rest. */
  lemma FloatTokenParts(s: string, p: nat, f: nat) returns (q: nat, k: nat)
    requires p < f <= |s| && IsFloatToken(s[p..f])
    ensures q == (if IsSign(s[p]) then p + 1 else p)
    ensures q + k <= f && IsMantissa(s[q..q + k]) && IsExponent(s[q + k..f])
    ensures q + k < f ==> s[q + k] in "Ee"
  {
    q := if IsSign(s[p]) then p + 1 else p;
    var u := SignStripped(s, p, f);
    k := ExponentStart(u);
    SliceSplit(s, q, k, f);
  }

  /** The text `IsFloatToken(s[p..f])` reads after the optional sign. */
  lemma SignStripped(s: string, p: nat, f: nat) returns (u: string)
    requires p < f <= |s|
    ensures var t := s[p..f]; u == (if t != [] && IsSign(t[0]) then t[1..] else t)
    ensures u == s[(if IsSign(s[p]) then p + 1 else p)..f]
  {
    var t := s[p..f];
    assert t[0] == s[p];
    u := if IsSign(t[0]) then t[1..] else t;
  }

  lemma SliceSplit(s: string, q: nat, k: nat, f: nat)
    requires q + k <= f <= |s|
    ensures s[q..f][..k] == s[q..q + k] && s[q..f][k..] == s[q + k..f]
  {
  }


  /** The scanner takes the longest token at `p`: whenever some `s[p..f]` is in
      FLOAT_RE's language, `MatchAt` finds a match reaching at least `f`. */
  lemma LongestMatch(s: string, p: nat, f: nat)
    requires p < f <= |s| && IsFloatToken(s[p..f])
    ensures MatchAt(s, p).Some? && f <= MatchAt(s, p).value
  {
    var q, k := FloatTokenParts(s, p, f);
    MatchCovers(s, p, q, k, f);
  }

  lemma MatchCovers(s: string, p: nat, q: nat, k: nat, f: nat)
    requires p < f <= |s| && q == (if IsSign(s[p]) then p + 1 else p)
    requires q + k <= f && IsMantissa(s[q..q + k]) && IsExponent(s[q + k..f])
    requires q + k < f ==> s[q + k] in "Ee"
    ensures MatchAt(s, p).Some? && f <= MatchAt(s, p).value
  {
    MantissaCovers(s, q, k);
    var m := MantissaEnd(s, q).value;
    assert MatchAt(s, p) == Some(ExponentEnd(s, m));
    if q + k < f {
      EndsBeforeExponent(s, q, k);
      ExponentCovers(s, m, f);
    }
  }



  /** `MatchAt` is the match a backtracking matcher finds at `p`: when it
      reports one, that text is in FLOAT_RE's language and no longer text
      starting at `p` is; when it reports none, no text starting at `p` is. */
  lemma MatchAtLongest(s: string, p: nat)
    requires p <= |s|
    ensures MatchAt(s, p).Some? ==>
      (IsFloatToken(s[p..MatchAt(s, p).value]) &&
       forall f :: MatchAt(s, p).value < f <= |s| ==> !IsFloatToken(s[p..f]))
    ensures MatchAt(s, p).None? ==> forall f :: p < f <= |s| ==> !IsFloatToken(s[p..f])
  {
    if MatchAt(s, p).Some? {
      MatchIsFloatToken(s, p);
    }
    forall f | p < f <= |s| && IsFloatToken(s[p..f])
      ensures MatchAt(s, p).Some? && f <= MatchAt(s, p).value
    {
      LongestMatch(s, p, f);
    }
  }

  /** Some text in FLOAT_RE's language starts at `i`. */
  ghost predicate TokenStartsAt(s: string, i: nat)
    requires i <= |s|
  {
    exists f :: i < f <= |s| && IsFloatToken(s[i..f])
  }

  lemma MatchGivesStart(s: string, p: nat)
    requires p <= |s|
    ensures MatchAt(s, p).Some? ==> TokenStartsAt(s, p)
  {
    if MatchAt(s, p).Some? {
      MatchIsFloatToken(s, p);
    }
  }

  /** Where no token starts at or after `p`, `findall` finds nothing. */
  lemma {:induction false} FindAllNone(s: string, p: nat)
    requires p <= |s|
    requires forall j :: p <= j < |s| ==> !TokenStartsAt(s, j)
    ensures FindAll(s, p) == []
    decreases |s| - p
  {
    if p < |s| {
      MatchGivesStart(s, p);
      FindAllNone(s, p + 1);
    }
  }

  /** `findall` from `p` returns first the leftmost-longest match: when `i` is
      the first position at or after `p` where a token starts and `s[i..e]` is
      the longest token there, the result is that token followed by the
      matches found from `e` on. */
  lemma {:induction false} FindAllLeftmost(s: string, p: nat, i: nat, e: nat)
    requires p <= i < e <= |s|
    requires forall j :: p <= j < i ==> !TokenStartsAt(s, j)
    requires IsFloatToken(s[i..e])
    requires forall f :: e < f <= |s| ==> !IsFloatToken(s[i..f])
    ensures FindAll(s, p) == [s[i..e]] + FindAll(s, e)
    decreases i - p
  {
    if p == i {
      LongestMatch(s, i, e);
      MatchIsFloatToken(s, i);
      assert MatchAt(s, i).value == e;
    } else {
      MatchGivesStart(s, p);
      FindAllLeftmost(s, p + 1, i, e);
    }
  }

  /** Every token `findall` returns is in FLOAT_RE's language and holds a digit. */
  lemma {:induction false} FindAllTokens(s: string, p: nat)
    requires p <= |s|
    ensures forall t :: t in FindAll(s, p) ==> IsFloatToken(t) && HasDigit(t)
    decreases |s| - p
  {
    if p < |s| {
      match MatchAt(s, p)
      case Some(e) =>
        MatchIsFloatToken(s, p);
        FindAllTokens(s, e);
      case None =>
        FindAllTokens(s, p + 1);
    }
  }

  lemma {:induction false} NoDigitNoMatch(s: string, p: nat)
    requires p <= |s|
    requires forall i :: p <= i < |s| ==> !IsDigit(s[i])
    ensures FindAll(s, p) == []
    decreases |s| - p
  {
    if p < |s| {
      assert MatchAt(s, p).None?;
      NoDigitNoMatch(s, p + 1);
    }
  }

  lemma {:induction false} DigitGivesMatch(s: string, p: nat, q: nat)
    requires p <= q < |s| && IsDigit(s[q])
    ensures FindAll(s, p) != []
    decreases q - p
  {
    if p < q && MatchAt(s, p).None? {
      DigitGivesMatch(s, p + 1, q);
    } else if p == q {
      assert DigitRun(s, q) > 0;
    }
  }

  /** Every token `_parse_numbers` returns is in FLOAT_RE's language (which
      `FindAllLeftmost` sharpens to: it is the leftmost-longest match), taken
      from the text after `D` has become `E`, and it returns no token exactly
      when the text holds no digit. */
  lemma ParseNumbersSpec(text: string)
    ensures forall t :: t in ParseNumbers(text) ==> IsFloatToken(t) && HasDigit(t)
    ensures ParseNumbers(text) == [] <==> !HasDigit(text)
  {
    var cleaned := FortranToE(text);
    FindAllTokens(cleaned, 0);
    if HasDigit(text) {
      var q :| 0 <= q < |text| && IsDigit(text[q]);
      DigitGivesMatch(cleaned, 0, q);
    } else {
      NoDigitNoMatch(cleaned, 0);
    }
  }
}
