# Counting newlines in files, three ways

A Dafny model of the newline-counting example in
`C01-IntroductionFuncProgramming/WhatIsFP/main.cpp`: the function
`count_lines`, which counts the `'\n'` characters a file stream delivers, and
the three interchangeable versions of `count_lines_in_files`, which turn a list
of file names into a list of counts — an imperative nested loop reading one
character at a time, a loop appending `count_lines` of each name, and a
`std::transform` into a preallocated vector.

Reading files is abstracted: a `FileSystem` maps each file that can be opened
to its characters, and a name missing from the map is a file whose stream fails
to open and so yields no character (count 0). Everything lives in module
`WhatIsFP` (`what_is_fp.dfy`):

- `CountNewlines` counts `'\n'` in a character sequence; `CountLines` is
  `count_lines` over the abstract file system; `Counts` is what every version of
  `count_lines_in_files` returns.
- `CountLinesInFilesImperative`, `CountLinesInFilesPushBack` and
  `CountLinesInFilesTransform` are the three versions, each a method with loops
  proved to return `Counts`. The transform version allocates an array of zeros
  and overwrites it entry by entry, as the preallocated vector is.
- `VariantsAgree` runs all three and states that their results coincide.

The count is a count of newline characters, not of lines: a last line without
a trailing newline is not counted, exactly as in the code. The list of names is
passed by `const&` in the code; here it is a `seq`, a value that no method can
change.

## Model

| member | source | states |
|---|---|---|
| WhatIsFP.CountNewlines | C01-IntroductionFuncProgramming/WhatIsFP/main.cpp:47-48 | the count is the multiplicity of `'\n'` in the characters read, and never exceeds their number (no character is skipped, `noskipws`) |
| WhatIsFP.CountIsNewlinePositions | C01-IntroductionFuncProgramming/WhatIsFP/main.cpp:25-28 | the count equals the number of positions that hold `'\n'` |
| WhatIsFP.CountLines | C01-IntroductionFuncProgramming/WhatIsFP/main.cpp:45-49 | a file that cannot be opened counts 0; otherwise the count is the number of `'\n'` in its contents and at most its length |
| WhatIsFP.Counts | C01-IntroductionFuncProgramming/WhatIsFP/main.cpp:65-72 | one count per file name, in the same order: entry `i` is `count_lines` of name `i` |
| WhatIsFP.CountsAppend | C01-IntroductionFuncProgramming/WhatIsFP/main.cpp:21-31 | the counter is reset per file: the counts of `a + b` are the counts of `a` followed by those of `b`, so no count depends on the files before it |
| WhatIsFP.CountsOnlyReadNamedFiles | C01-IntroductionFuncProgramming/WhatIsFP/main.cpp:45-49 | the counts depend only on the contents of the files named; file systems agreeing on those give the same result |
| WhatIsFP.CountLinesInFilesImperative | C01-IntroductionFuncProgramming/WhatIsFP/main.cpp:17-33 | the nested character loop returns exactly `Counts` of the names |
| WhatIsFP.CountLinesInFilesPushBack | C01-IntroductionFuncProgramming/WhatIsFP/main.cpp:52-59 | the append loop returns exactly `Counts` of the names |
| WhatIsFP.CountLinesInFilesTransform | C01-IntroductionFuncProgramming/WhatIsFP/main.cpp:62-74 | a freshly allocated array with one entry per name, entry `i` holding the count of name `i` (`Counts`) |
| WhatIsFP.VariantsAgree | C01-IntroductionFuncProgramming/WhatIsFP/main.cpp:13-76 | the imperative, push-back and transform versions return the same vector, of one entry per name |

## Left out

- Opening and reading files (`std::ifstream`, `get`, `istream_iterator`): replaced by the map from file name to contents; a missing entry stands for a stream that failed to open.
- The preprocessor switches `USE_FP` and `USE_TRANSFORM`: each version is a separately named method instead of being chosen at compile time.
- `main`: it prints the counts of two fixed files through `println` and builds two unused vectors; console output is not modelled.
- `util/perf_timer.h` (clock reading, floating-point duration conversion, formatted output) and `util/print.h`: output and timing helpers, not part of this model.
- CountLinesInFilesImperative: the counter and the results are C++ `int`; a file with more than 2147483647 newlines would overflow it (undefined behaviour), which the unbounded integers here do not model.
- CountLinesInFilesPushBack: same 32-bit `int` limit on each count not modelled.
- CountLinesInFilesTransform: same 32-bit `int` limit on each count not modelled.
