/**
 * Counting the newline characters of a list of files, in the three
 * interchangeable forms of C01-IntroductionFuncProgramming/WhatIsFP/main.cpp:
 * an imperative nested loop that reads one character at a time, a loop that
 * appends the result of `count_lines` for each file, and a `std::transform`
 * into a preallocated vector.
 *
 * Opening and reading a file is abstracted as a map from file name to the
 * characters the file holds. A name that is not in the map is a file that
 * cannot be opened: its stream is in a failed state from the start, so it
 * yields no character at all.
 */
module WhatIsFP {

  type FileName = string

  /** The contents of every file that can be opened, by name. */
  type FileSystem = map<FileName, seq<char>>

  /** The characters a stream opened on `name` delivers, whitespace included. */
  function StreamContents(fs: FileSystem, name: FileName): seq<char>
  {
    if name in fs then fs[name] else []
  }

  /**
   * The number of '\n' characters in `s`, read from the first character to
   * the last. Every character is looked at, so the count never exceeds the
   * length, and it is the multiplicity of '\n' in `s`.
   */
  function CountNewlines(s: seq<char>): (n: nat)
    ensures n <= |s|
    ensures n == multiset(s)['\n']
    decreases |s|
  {
    if |s| == 0 then 0
    else
      var init := s[..|s| - 1];
      assert s == init + [s[|s| - 1]];
      CountNewlines(init) + (if s[|s| - 1] == '\n' then 1 else 0)
  }

  /** The positions of `s` that hold a '\n'. */
  ghost function NewlinePositions(s: seq<char>): set<nat>
  {
    set i: nat | i < |s| && s[i] == '\n'
  }

  /** The count is the number of positions holding a newline. */
  lemma {:induction false} CountIsNewlinePositions(s: seq<char>)
    ensures CountNewlines(s) == |NewlinePositions(s)|
    decreases |s|
  {
    if |s| == 0 {
      assert NewlinePositions(s) == {};
    } else {
      var init := s[..|s| - 1];
      CountIsNewlinePositions(init);
      var last := if s[|s| - 1] == '\n' then {|s| - 1} else {};
      assert NewlinePositions(s) == NewlinePositions(init) + last;
      assert |s| - 1 !in NewlinePositions(init);
    }
  }

  /**
   * `count_lines`: the number of newlines the file `name` holds, which is 0
   * when the file cannot be opened.
   */
  function CountLines(fs: FileSystem, name: FileName): (n: nat)
    ensures name !in fs ==> n == 0
    ensures name in fs ==> n <= |fs[name]| && n == multiset(fs[name])['\n']
  {
    CountNewlines(StreamContents(fs, name))
  }

  /**
   * What every variant of `count_lines_in_files` returns: one count per file
   * name, in the order of the names.
   */
  function Counts(fs: FileSystem, files: seq<FileName>): (r: seq<nat>)
    ensures |r| == |files|
    ensures forall i :: 0 <= i < |files| ==> r[i] == CountLines(fs, files[i])
    decreases |files|
  {
    if |files| == 0 then []
    else Counts(fs, files[..|files| - 1]) + [CountLines(fs, files[|files| - 1])]
  }

  /**
   * The counter is reset for every file: the counts of a list of names are the
   * counts of any split of it, put back together.
   */
  lemma CountsAppend(fs: FileSystem, a: seq<FileName>, b: seq<FileName>)
    ensures Counts(fs, a + b) == Counts(fs, a) + Counts(fs, b)
  {
    // Entry by entry, from the contract of Counts.
  }

  /**
   * The counts depend on the file system only through the files named:
   * two file systems that agree on those names give the same counts.
   */
  lemma CountsOnlyReadNamedFiles(fs: FileSystem, fs': FileSystem, files: seq<FileName>)
    requires forall i :: 0 <= i < |files| ==> StreamContents(fs, files[i]) == StreamContents(fs', files[i])
    ensures Counts(fs, files) == Counts(fs', files)
  {
    // Entry by entry, from the contract of Counts.
  }

  /**
   * The imperative `count_lines_in_files`: for each name, a counter starting at
   * 0 is bumped for every '\n' read one character at a time, then appended.
   */
  method CountLinesInFilesImperative(fs: FileSystem, files: seq<FileName>) returns (results: seq<int>)
    ensures results == Counts(fs, files)
  {
    results := [];
    var k := 0;
    while k < |files|
      invariant 0 <= k <= |files|
      invariant results == Counts(fs, files[..k])
    {
      var file := files[k];
      var lineCount := 0;
      var input := StreamContents(fs, file);
      var j := 0;
      while j < |input|
        invariant 0 <= j <= |input|
        invariant lineCount == CountNewlines(input[..j])
      {
        var c := input[j];
        assert input[..j + 1][..j] == input[..j];
        if c == '\n' {
          lineCount := lineCount + 1;
        }
        j := j + 1;
      }
      assert input[..j] == input;
      assert files[..k + 1][..k] == files[..k];
      results := results + [lineCount];
      k := k + 1;
    }
    assert files[..k] == files;
  }

  /** `count_lines_in_files` as a loop that appends `count_lines` of each name. */
  method CountLinesInFilesPushBack(fs: FileSystem, files: seq<FileName>) returns (results: seq<int>)
    ensures results == Counts(fs, files)
  {
    results := [];
    for k := 0 to |files|
      invariant results == Counts(fs, files[..k])
    {
      assert files[..k + 1][..k] == files[..k];
      results := results + [CountLines(fs, files[k])];
    }
    assert files[..|files|] == files;
  }

  /**
   * `count_lines_in_files` with `std::transform`: a vector of one zero per
   * name is allocated first, then entry `i` is overwritten with the count of
   * name `i`.
   */
  method CountLinesInFilesTransform(fs: FileSystem, files: seq<FileName>) returns (results: array<int>)
    ensures fresh(results)
    ensures results[..] == Counts(fs, files)
  {
    results := new int[|files|](_ => 0);
    for i := 0 to |files|
      invariant forall k :: 0 <= k < i ==> results[k] == CountLines(fs, files[k])
    {
      results[i] := CountLines(fs, files[i]);
    }
  }

  /** Whichever variant the preprocessor switches select, the result is the same. */
  method VariantsAgree(fs: FileSystem, files: seq<FileName>)
    returns (imperative: seq<int>, pushBack: seq<int>, transform: seq<int>)
    ensures imperative == pushBack == transform
    ensures |transform| == |files|
  {
    imperative := CountLinesInFilesImperative(fs, files);
    pushBack := CountLinesInFilesPushBack(fs, files);
    var a := CountLinesInFilesTransform(fs, files);
    transform := a[..];
  }
}
