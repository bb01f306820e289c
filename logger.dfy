/** The caller prettyfier of the log formatter: a log line names its caller
    by the last two components of the source file path, the line number, and
    the function name without its package path. */
module Logger {
  import opened Common

  /** The part of `runtime.Frame` the prettyfier reads. */
  datatype Frame = Frame(File: string, Function: string, Line: int)

  function Count(s: string, c: char): nat {
    if |s| == 0 then 0 else (if s[0] == c then 1 else 0) + Count(s[1..], c)
  }

  /** The number of '/' the path scan can see: it never looks at index 0. */
  function ScannedSlashes(file: string): nat {
    if |file| <= 1 then 0 else Count(file[1..], '/')
  }

  predicate IsSuffix(t: string, s: string) {
    |t| <= |s| && s[|s| - |t|..] == t
  }

  /** What the file part of a location is: with two or more '/' past index 0,
      the text after the second-to-last of them, so the last two path
      components joined by their one '/'; otherwise the whole path. */
  predicate IsShortFileName(file: string, short: string) {
    && IsSuffix(short, file)
    && (ScannedSlashes(file) >= 2 ==>
          && |short| + 2 <= |file| && file[|file| - |short| - 1] == '/'
          && Count(short, '/') == 1)
    && (ScannedSlashes(file) < 2 ==> short == file)
  }

  lemma CountSplit(s: string, k: nat, c: char)
    requires k <= |s|
    ensures Count(s, c) == Count(s[..k], c) + Count(s[k..], c)
    decreases k
  {
    if k > 0 {
      assert s[..k][1..] == s[1..][..k - 1];
      CountSplit(s[1..], k - 1, c);
      assert s[k..] == s[1..][k - 1..];
    }
  }

  lemma CountStep(s: string, i: nat, c: char)
    requires i < |s|
    ensures Count(s[i..], c) == (if s[i] == c then 1 else 0) + Count(s[i + 1..], c)
  {
    assert s[i..][1..] == s[i + 1..];
  }

  /** A path has exactly one file part: the description above leaves no choice. */
  lemma ShortFileNameUnique(file: string, a: string, b: string)
    requires IsShortFileName(file, a) && IsShortFileName(file, b)
    ensures a == b
  {
    if ScannedSlashes(file) >= 2 && |a| != |b| {
      var (shorter, longer) := if |a| < |b| then (a, b) else (b, a);
      // the '/' just before the shorter part lies inside the longer one,
      // which then holds that '/' and the shorter part's own
      var k := |longer| - |shorter| - 1;
      assert longer[k + 1..] == shorter;
      assert longer[k] == '/';
      CountSplit(longer, k, '/');
      CountStep(longer, k, '/');
      assert false;
    }
  }

  /** The index of the last occurrence of `c` in `s`, or -1 (`strings.LastIndex`). */
  function LastIndex(s: string, c: char): (idx: int)
    ensures -1 <= idx < |s|
    ensures idx >= 0 ==> s[idx] == c
    ensures forall j :: idx < j < |s| ==> s[j] != c
  {
    if |s| == 0 then -1
    else if s[|s| - 1] == c then |s| - 1
    else LastIndex(s[..|s| - 1], c)
  }

  /** `CallerPrettyfier`: the function name after its last '.', and the
      location "file:line" with the file shortened to its last two path
      components. */
  method CallerPrettyfier(frame: Frame) returns (funcName: string, location: string)
    ensures IsSuffix(funcName, frame.Function) && Count(funcName, '.') == 0
    ensures Count(frame.Function, '.') == 0 ==> funcName == frame.Function
    ensures Count(frame.Function, '.') > 0 ==>
              |funcName| < |frame.Function| && frame.Function[|frame.Function| - |funcName| - 1] == '.'
    ensures exists short :: IsShortFileName(frame.File, short) && location == short + ":" + IntToString(frame.Line)
  {
    var n := 0;
    var filename := frame.File;
    var i := |filename| - 1;
    while i > 0
      invariant -1 <= i < |frame.File|
      invariant |frame.File| > 0 ==> i >= 0
      invariant filename == frame.File
      invariant n == Count(frame.File[i + 1..], '/') && n < 2
    {
      CountStep(frame.File, i, '/');
      if filename[i] == '/' {
        n := n + 1;
        if n >= 2 {
          filename := filename[i + 1..];
          assert IsShortFileName(frame.File, filename) by {
            CountSplit(frame.File[1..], i, '/');
            assert frame.File[1..][i..] == frame.File[i + 1..];
            assert frame.File[1..][..i] == frame.File[1..i + 1];
            CountSplit(frame.File[1..i + 1], i - 1, '/');
            assert frame.File[1..i + 1][i - 1..] == [frame.File[i]];
          }
          break;
        }
      }
      i := i - 1;
    }
    assert IsShortFileName(frame.File, filename) by {
      if filename == frame.File && |frame.File| > 1 {
        assert i == 0;
      }
    }

    var name := frame.Function;
    var idx := LastIndex(name, '.');
    funcName := name[idx + 1..];
    assert Count(funcName, '.') == 0 by { NoOccurrence(funcName, '.'); }
    if Count(name, '.') == 0 {
      assert idx == -1 by {
        if idx >= 0 { CountSplit(name, idx, '.'); CountStep(name, idx, '.'); }
      }
    }
    location := filename + ":" + IntToString(frame.Line);
  }

  lemma {:induction false} NoOccurrence(s: string, c: char)
    requires forall j :: 0 <= j < |s| ==> s[j] != c
    ensures Count(s, c) == 0
  {
    if |s| > 0 {
      NoOccurrence(s[1..], c);
    }
  }

  /** The line number can be read back from the end of a location. */
  lemma LocationEndsWithLine(short: string, line: int)
    ensures var location := short + ":" + IntToString(line);
            ParseInt(location[|short| + 1..]) == line
  {
    var location := short + ":" + IntToString(line);
    assert location[|short| + 1..] == IntToString(line);
    IntToStringRoundTrip(line);
  }
}
