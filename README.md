# rlgen-cd driver, modelled in Dafny

This project models the driver of Ragel's C/D code-generation back end
(`rlgen-cd/main.cpp`). That back end reads the XML form of a Ragel
specification and writes C or D source. The model covers four parts of the
driver:

* the error counter `gblErrorCount` and `cd_error`, which raises it;
* `cdOpenOutput`, the callback the XML parser makes when it opens the root
  element. It rejects host languages other than C and D, derives a default
  output name, flags an output name that equals the source name, and opens
  the output file with truncation;
* `cdMakeCodeGen`, the callback made for each Ragel definition. It maps the
  host language and the code style to one of sixteen generator classes and
  stamps the definition's metadata on the new generator;
* `cd_main`, which opens the XML input, checks for errors, runs the parser,
  checks again, and on failure removes the output file and exits with 1.

Modules, one per concern:

* `Wrappers` (`wrappers.dfy`): `Option`, which stands for a pointer that may be null.
* `FileNames` (`file_names.dfy`): `strcmp`, `findFileExtension` and
  `fileNameFromStem` as string functions, with lemmas stating what they compute.
  The definitions of `findFileExtension` and `fileNameFromStem` are not part of
  this model. They are modelled as: the extension is the suffix from the last
  `.`, and a derived name is the stem followed by the new extension.
* `CodeGen` (`code_gen.dfy`): host languages, the eight code styles, the sixteen
  generator classes, and the pure selection `SelectGenerator`/`MakeCodeGen`.
* `OutputName` (`output_name.dfy`): the default extension and the default output name.
* `Driver` (`driver.dfy`): class `CdDriver`, whose fields are the globals.
  * `errorCount` is `gblErrorCount`.
  * `outputFileName` is the `-o` name, or None for null.
  * `sink` is what `outStream` points at.
  * `files` is the file system, a map from path to content.
  * `outcome` records whether the run is still going, has called `exit(code)`,
    or has returned from `cd_main`.

  Opening a path for writing fails exactly when the path is in `unwritable`.
  The XML input opens exactly when it exists in `files`. The class's methods
  are the source's functions. `XmlParse` stands for the external parser: a
  `ParserRun` says whether it opens the root element, and how many errors it
  reports before and after.

Two comments in `main.cpp` promise more than the code does, and the model
follows the code:

* **Standard output is never used.** The branch commented "Writing out ot std
  out" (line 156) is taken only when `outputFileName` is null. For C and D a
  name is derived whenever none was given (lines 122-135), so that branch
  (lines 155-158) cannot be reached. `OpenOutput` proves this: its only stream
  is a file.
* **A file the run never opened can be removed.** The comment "If we opened an
  output file, remove it" (line 264) speaks of an opened file. The code unlinks
  `outputFileName` whenever it is set (lines 265-266). So a run given `-o`
  whose parser fails before the root element removes that path, though it
  never opened it. `CdMain` states this.

Two more consequences of the code are worth stating:

* **A same-name output destroys the source file.** When the output name equals
  the source file name, the code records one error but still opens that file
  with truncation (lines 138-154). The failed run then unlinks it, so the
  source file named in the XML is truncated and removed. `CdMain` states this.
* **The generator factory does not check the language itself.** Its `default`
  branch leaves the generator null and then dereferences it (lines 226-231).
  Only the earlier `exit` in `cdOpenOutput` protects it. `MakeCodeGen`
  therefore requires C or D. The class's callback obtains this from its
  invariant: a stream exists only after the language check passed.

## Model

| member | source | states |
|---|---|---|
| `FileNames.StrEq` | rlgen-cd/main.cpp:138 | the stand-in for `strcmp(...) == 0`: names that compare equal have the same length, and names whose first characters differ do not compare equal; StrEqIsEquality states its full meaning |
| `FileNames.StrEqIsEquality` | rlgen-cd/main.cpp:138 | the character comparison standing for `strcmp(...) == 0` holds exactly when the two names are equal |
| `FileNames.LastDotBefore` | rlgen-cd/main.cpp:123 | the backward scan for a dot, used by `findFileExtension`, returns a position inside the scanned prefix |
| `FileNames.LastDotBeforeIsLast` | rlgen-cd/main.cpp:123 | the scan returns a dot with no dot after it, and returns none only when the prefix has no dot |
| `FileNames.FindFileExtension` | rlgen-cd/main.cpp:123 | the stand-in for `findFileExtension`: an extension it returns is non-empty, no longer than the name, and starts with a dot; ExtensionIsDotSuffix states its full meaning |
| `FileNames.ExtensionIsDotSuffix` | rlgen-cd/main.cpp:123-124 | `findFileExtension` returns a suffix of the name made of a dot and dot-free text, and returns null exactly when the name has no dot |
| `FileNames.StemAndExtension` | rlgen-cd/main.cpp:125-133 | a name is its stem followed by its extension; the stem is a prefix, and the whole name when there is no extension |
| `FileNames.FileNameFromStem` | rlgen-cd/main.cpp:125-133 | the stand-in for `fileNameFromStem`: the result is the input's stem lengthened by the suffix and ends with the suffix |
| `FileNames.DerivedNameRoundTrip` | rlgen-cd/main.cpp:125-133 | a name made by `fileNameFromStem` has the given extension and keeps the stem it was made from |
| `CodeGen.SelectGenerator` | rlgen-cd/main.cpp:166-227 | the switch yields a generator exactly for C and D, and the generator emits that language in that style; other languages leave it null |
| `CodeGen.SelectionInjective` | rlgen-cd/main.cpp:166-227 | two (language, style) pairs that select the same generator are the same pair, so the sixteen generator classes are distinct |
| `CodeGen.EveryKindSelected` | rlgen-cd/main.cpp:166-227 | each of the sixteen generator classes is selected by its own language and style, so the 2 x 8 grid covers them all |
| `CodeGen.MakeCodeGen` | rlgen-cd/main.cpp:163-234 | for C and D the new generator is never null; it has the class named by the language and style, writes to the given stream, and carries the given source name, FSM name and completeness flag |
| `OutputName.DefaultExtension` | rlgen-cd/main.cpp:127-132 | a default extension exists exactly for C and D; it is a proper extension and never ".rh" |
| `OutputName.DefaultOutputName` | rlgen-cd/main.cpp:122-135 | the default name is the input's stem followed by a dot and one letter: 'h' for a ".rh" input, otherwise 'c' for C and 'd' for D; DefaultOutputNameShape restates this in terms of the name's own stem and extension |
| `OutputName.DefaultOutputNameShape` | rlgen-cd/main.cpp:122-135 | the derived name keeps the input's stem; its extension is ".h" for a ".rh" input and otherwise ".c" for C and ".d" for D |
| `OutputName.DefaultNameIsInputIff` | rlgen-cd/main.cpp:122-141 | the derived name equals the source name exactly when the source already has the language's default extension |
| `Driver.CdDriver.constructor` | rlgen-cd/main.cpp:58-62 | the run starts with no errors, no stream and the given output name and file system |
| `Driver.CdDriver.CdError` | rlgen-cd/main.cpp:101-106 | each reported error raises the counter by exactly one, and nothing else changes |
| `Driver.CdDriver.OpenOutput` | rlgen-cd/main.cpp:113-160 | another language: one error and exit(1), before any name is derived or any file is opened. For C and D: a given name is kept, and a default is derived only when none was given. A name equal to the source name adds one error but does not stop the run. An output that cannot be opened adds one error and exits with 1, leaving the files untouched. Otherwise the file is truncated and becomes the stream. Standard output is never chosen. The invariant is kept |
| `Driver.CdDriver.MakeCodeGen` | rlgen-cd/main.cpp:163-234 | once the stream exists, the callback always yields a generator of the run's language and style, bound to the current stream, with the given metadata; the null `default` branch is unreachable |
| `Driver.CdDriver.XmlParse` | rlgen-cd/main.cpp:253 | the parser adds its errors to the counter; if it opens the root element, the output callback's effect follows, and a fatal exit there ends the parse |
| `Driver.CdDriver.CdMain` | rlgen-cd/main.cpp:237-270 | the counter only grows. A missing input or an earlier error exits with 1 before the parser runs, with nothing opened. Otherwise the parse is followed by the final check: with errors, the run exits with 1 and removes the named output, whether or not it was opened; without errors, it returns 0. The run ends in exit(1) exactly when errors were recorded. An opened output file never survives a failed run. An output named like the source removes that source. A successful run changes at most the output file |

## Left out

- `cd_usage` and `cd_version` print constant text and hold no logic.
- Streams, the output filter, flushing on `delete`, and the text of error messages are I/O. The stream is the `Sink` value, and flushing has no effect in the model.
- The code the generators write is not modelled, because their bodies are not part of this model. An opened output file therefore holds empty content.
- `xml_parse` is external. Its effect is given by a `ParserRun`: whether it opens the root element, the name that element records, and how many errors it reports. The definitions it feeds to the generator callback are not enumerated. A `ParserRun` cannot make the parser itself call `exit`. `CdMain`'s promise that an opened output file never survives a failed run holds only under that assumption.
- The definitions of `findFileExtension` and `fileNameFromStem` are not part of this model. Any treatment of path separators, a leading dot, or an empty name that the real helpers apply is not captured.
- `exit` and `unlink` are modelled as the `outcome` value and as removal from `files`. Process teardown and OS failures of `unlink` are not modelled.
- Only the existence of a path decides whether the XML input opens. Reading it and permissions on it are not modelled.
- The `out` argument of `cdMakeCodeGen` is the driver's current stream, which is what the parser passes. A different stream is not modelled.
- `graphvizDone`, `numSplitPartitions` and `noLineDirectives` are unused in this file and left out. So are the `wantComplete` and `outputActive` locals of `cd_main`, which only pass constants to the parser.
- Heap ownership (`new`, `delete`) is not modelled.
