/** The two helpers that drive the Multiwfn executable: composing the
    scripted keyboard input, and accepting or rejecting the exit status. */
module Multiwfn {
  import opened Wrappers
  import opened PyStr

  /** `compose_script`: the commands joined by newlines, plus one final
      newline. */
  function ComposeScript(lines: seq<string>): (script: string)
    ensures script != [] && script[|script| - 1] == '\n'
  {
    Join(lines, "\n") + "\n"
  }

  /** Number of occurrences of `c` in `s`. */
  function Count(s: string, c: char): nat
    decreases |s|
  {
    if s == [] then 0 else (if s[0] == c then 1 else 0) + Count(s[1..], c)
  }

  /** Sum of the lengths of the lines. */
  function TotalLength(lines: seq<string>): nat
    decreases |lines|
  {
    if lines == [] then 0 else |lines[0]| + TotalLength(lines[1..])
  }

  predicate NoNewlines(lines: seq<string>) {
    forall i :: 0 <= i < |lines| ==> '\n' !in lines[i]
  }

  lemma {:induction false} CountConcat(a: string, b: string, c: char)
    ensures Count(a + b, c) == Count(a, c) + Count(b, c)
    decreases |a|
  {
    if a == [] {
      assert a + b == b;
    } else {
      assert (a + b)[1..] == a[1..] + b;
      CountConcat(a[1..], b, c);
    }
  }

  lemma {:induction false} CountAbsent(s: string, c: char)
    requires c !in s
    ensures Count(s, c) == 0
    decreases |s|
  {
    if s != [] {
      CountAbsent(s[1..], c);
    }
  }

  /** The script of a non-empty list is its first line, a newline, and the
      script of the rest (nothing more when there is no rest). */
  lemma ComposeFirst(lines: seq<string>)
    requires lines != []
    ensures ComposeScript(lines) == lines[0] + "\n" + (if |lines| == 1 then [] else ComposeScript(lines[1..]))
  {
  }

  /** The empty list and the list of one empty line give the same script,
      the single newline. */
  lemma EmptyAndBlankCollide()
    ensures ComposeScript([]) == "\n" && ComposeScript([""]) == "\n"
  {
  }

  /** With no newline inside any line, the script holds exactly one newline
      per line. */
  lemma {:induction false} ComposeNewlineCount(lines: seq<string>)
    requires NoNewlines(lines)
    ensures lines != [] ==> Count(ComposeScript(lines), '\n') == |lines|
    decreases |lines|
  {
    if lines != [] {
      ComposeFirst(lines);
      CountAbsent(lines[0], '\n');
      CountConcat(lines[0], "\n", '\n');
      if |lines| > 1 {
        assert NoNewlines(lines[1..]) by {
          forall i | 0 <= i < |lines| - 1 ensures '\n' !in lines[1..][i] {
            assert lines[1..][i] == lines[i + 1];
          }
        }
        ComposeNewlineCount(lines[1..]);
        CountConcat(lines[0] + "\n", ComposeScript(lines[1..]), '\n');
      } else {
        assert ComposeScript(lines) == lines[0] + "\n" + [];
      }
    }
  }

  /** A non-empty list gives a script as long as its lines together plus
      one newline each. */
  lemma {:induction false} ComposeLength(lines: seq<string>)
    ensures lines != [] ==> |ComposeScript(lines)| == TotalLength(lines) + |lines|
    decreases |lines|
  {
    if lines != [] {
      ComposeFirst(lines);
      if |lines| > 1 {
        ComposeLength(lines[1..]);
      }
    }
  }

  /** Splitting `first + "\n" + rest` at newlines, when `first` has none,
      gives `first` and then the pieces of `rest`. */
  lemma SplitAfterFirst(first: string, rest: string)
    requires '\n' !in first
    ensures SplitOn(first + "\n" + rest, '\n') == [first] + SplitOn(rest, '\n')
  {
    var s := first + "\n" + rest;
    assert s[|first|] == '\n';
    assert '\n' in s;
    var i := IndexOf(s, '\n');
    assert s[..i] == first;
    assert s[i + 1..] == rest;
  }

  lemma SplitSingle(first: string)
    requires '\n' !in first
    ensures SplitOn(ComposeScript([first]), '\n') == [first, ""]
  {
    SplitAfterFirst(first, []);
    assert ComposeScript([first]) == first + "\n" + [];
  }

  lemma SplitTailed(first: string, tail: seq<string>)
    requires '\n' !in first && tail != []
    requires SplitOn(ComposeScript(tail), '\n') == tail + [""]
    ensures SplitOn(ComposeScript([first] + tail), '\n') == [first] + tail + [""]
  {
    var lines := [first] + tail;
    assert lines[1..] == tail;
    ComposeFirst(lines);
    SplitAfterFirst(first, ComposeScript(tail));
  }

  /** Round trip: when no line holds a newline, splitting a non-empty
      list's script at newlines gives back the lines and one empty string
      after the final newline. */
  lemma {:induction false} ComposeSplitRoundTrip(lines: seq<string>)
    requires NoNewlines(lines)
    ensures lines != [] ==> SplitOn(ComposeScript(lines), '\n') == lines + [""]
    decreases |lines|
  {
    if lines != [] {
      var first := lines[0];
      assert '\n' !in first;
      if |lines| == 1 {
        SplitSingle(first);
        assert lines == [first];
      } else {
        var tail := lines[1..];
        assert NoNewlines(tail) by {
          forall i | 0 <= i < |tail| ensures '\n' !in tail[i] {
            assert tail[i] == lines[i + 1];
          }
        }
        ComposeSplitRoundTrip(tail);
        SplitTailed(first, tail);
        assert lines == [first] + tail;
      }
    }
  }

  /** What `subprocess.run` reports back: the exit status and the captured
      output streams. */
  datatype CompletedProcess = CompletedProcess(returncode: int, stdout: string, stderr: string)

  /** `MultiwfnExecutionError`, carrying what its message reports. */
  datatype ExecutionError = MultiwfnExecutionError(returncode: int, stdout: string, stderr: string)

  /** The check at the end of `run_multiwfn`: status 0, or 24 (end of input
      after the whole script was consumed), hands the process back; any
      other status raises, reporting the status and both streams. */
  function CheckExitCode(process: CompletedProcess): (r: Result<CompletedProcess, ExecutionError>)
    ensures r.Ok? <==> process.returncode == 0 || process.returncode == 24
    ensures r.Ok? ==> r.value == process
    ensures r.Err? ==> (r.error.returncode == process.returncode
      && r.error.stdout == process.stdout && r.error.stderr == process.stderr)
  {
    if process.returncode !in {0, 24} then
      Err(MultiwfnExecutionError(process.returncode, process.stdout, process.stderr))
    else
      Ok(process)
  }
}
