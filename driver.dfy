/**
 * The driver of the C/D back end: the error counter (cd_error), the output
 * callback (cdOpenOutput), the generator callback (cdMakeCodeGen) and cd_main
 * with its two error checkpoints and its removal of the output on failure.
 *
 * The globals of the source are the fields of `CdDriver`. The file system is
 * a map from path to content; a path in `unwritable` cannot be opened for
 * writing, and the input can be opened for reading exactly when it exists.
 * `exit` and `return` become the terminal value of `outcome`.
 */
module Driver {
  import opened Wrappers
  import opened FileNames
  import opened CodeGen
  import opened OutputName

  /** What `outStream` points at: nothing yet, standard output, or a file opened by name. */
  datatype Sink = NoSink | Stdout | File(path: string)

  /** How the run ends: still going, a call to exit(code), or cd_main returning `status`. */
  datatype Outcome = Running | Exit(code: int) | Returned(status: int)

  /**
   * What the external XML parser does during xml_parse: either it never opens
   * the root element and reports `errors` errors, or it reports `errorsBefore`
   * errors, opens the root element, which calls cdOpenOutput with the source
   * file name `rootFile` the element records, and reports `errorsAfter` more.
   */
  datatype ParserRun =
    | NoRoot(errors: nat)
    | WithRoot(errorsBefore: nat, rootFile: string, errorsAfter: nat)

  class CdDriver {
    const hostLang: HostLang
    const codeStyle: CodeStyle
    const unwritable: set<string>
    var errorCount: nat
    var outputFileName: Option<string>
    var sink: Sink
    var files: map<string, string>
    var outcome: Outcome

    /**
     * A stream is only ever set up for C or D, a file stream is the file
     * `outputFileName` names, standard output is used only without a name,
     * and a run ends in exit(1) with errors or returns 0 without any.
     */
    ghost predicate Valid()
      reads this
    {
      (sink != NoSink ==> IsCdLang(hostLang)) &&
      (sink.File? ==> outputFileName == Some(sink.path)) &&
      (sink.Stdout? ==> outputFileName.None?) &&
      (outcome.Exit? ==> outcome.code == 1 && errorCount > 0) &&
      (outcome.Returned? ==> outcome.status == 0 && errorCount == 0)
    }

    /** The name the output callback will use: the given one, or the derived default. */
    ghost function NameFor(inputFile: string): string
      reads this
      requires IsCdLang(hostLang)
    {
      if outputFileName.Some? then outputFileName.value else DefaultOutputName(inputFile, hostLang)
    }

    /** The state after option processing: no errors, no stream, nothing decided. */
    constructor (hostLang: HostLang, codeStyle: CodeStyle, outputFileName: Option<string>,
                 files: map<string, string>, unwritable: set<string>)
      ensures Valid()
      ensures this.hostLang == hostLang && this.codeStyle == codeStyle
      ensures this.outputFileName == outputFileName && this.files == files
      ensures this.unwritable == unwritable
      ensures errorCount == 0 && sink == NoSink && outcome == Running
    {
      this.hostLang := hostLang;
      this.codeStyle := codeStyle;
      this.unwritable := unwritable;
      this.outputFileName := outputFileName;
      this.files := files;
      errorCount := 0;
      sink := NoSink;
      outcome := Running;
    }

    /** cd_error: every reported error adds exactly one to the counter. */
    method CdError()
      requires outcome == Running
      modifies this`errorCount
      ensures errorCount == old(errorCount) + 1
    {
      errorCount := errorCount + 1;
    }

    /** cdOpenOutput, called by the parser when it opens the root element. */
    method OpenOutput(inputFile: string) returns (out: Sink)
      requires Valid() && outcome == Running && sink == NoSink
      modifies this`errorCount, this`outputFileName, this`sink, this`files, this`outcome
      ensures Valid()
      ensures errorCount >= old(errorCount)
      // another host language: one error and exit(1) before anything is named or opened
      ensures !IsCdLang(hostLang) ==>
                errorCount == old(errorCount) + 1 && outcome == Exit(1) &&
                outputFileName == old(outputFileName) && sink == old(sink) && files == old(files)
      // a given name is kept; a default is derived only when none was given
      ensures old(outputFileName).Some? ==> outputFileName == old(outputFileName)
      ensures IsCdLang(hostLang) && old(outputFileName).None? ==>
                outputFileName == Some(DefaultOutputName(inputFile, hostLang))
      // one error for naming the input, one more (and exit(1)) when the file cannot be opened;
      // otherwise the file is opened with truncation and becomes the stream
      ensures IsCdLang(hostLang) ==>
                var name := old(NameFor(inputFile));
                outputFileName == Some(name) &&
                errorCount == old(errorCount) + (if StrEq(inputFile, name) then 1 else 0)
                                              + (if name in unwritable then 1 else 0) &&
                (name in unwritable ==>
                   outcome == Exit(1) && sink == old(sink) && files == old(files)) &&
                (name !in unwritable ==>
                   outcome == Running && sink == File(name) && files == old(files)[name := ""])
      // standard output is never chosen: a name always exists by the time the stream is made
      ensures outcome == Running ==> out == sink && out.File?
    {
      if !IsCdLang(hostLang) {
        CdError();
        outcome := Exit(1);
        out := sink;
        return;
      }

      if outputFileName.None? {
        outputFileName := Some(DefaultOutputName(inputFile, hostLang));
      }

      if outputFileName.Some? && StrEq(inputFile, outputFileName.value) {
        CdError();
      }

      if outputFileName.Some? {
        var name := outputFileName.value;
        if name in unwritable {
          CdError();
          outcome := Exit(1);
          out := sink;
          return;
        }
        files := files[name := ""];
        sink := File(name);
      } else {
        // Writing to standard output: unreachable, since a name was derived above.
        assert false;
      }
      out := sink;
    }

    /**
     * cdMakeCodeGen, called by the parser for each definition once the root
     * element has set up the stream; the default branch is never reached.
     */
    method MakeCodeGen(sourceFileName: string, fsmName: string, wantComplete: bool)
      returns (codeGen: CodeGenData<Sink>)
      requires Valid() && outcome == Running && sink != NoSink
      ensures KindLang(codeGen.kind) == hostLang && KindStyle(codeGen.kind) == codeStyle
      ensures codeGen.out == sink
      ensures codeGen.sourceFileName == sourceFileName && codeGen.fsmName == fsmName
      ensures codeGen.wantComplete == wantComplete
    {
      codeGen := CodeGen.MakeCodeGen(hostLang, codeStyle, sink, sourceFileName, fsmName, wantComplete);
    }

    /** The effect of xml_parse on the shared state, as described by `run`. */
    method XmlParse(run: ParserRun)
      requires Valid() && outcome == Running && sink == NoSink
      modifies this`errorCount, this`outputFileName, this`sink, this`files, this`outcome
      ensures Valid()
      ensures run.NoRoot? ==>
                errorCount == old(errorCount) + run.errors && outcome == Running &&
                outputFileName == old(outputFileName) && sink == old(sink) && files == old(files)
      ensures run.WithRoot? && !IsCdLang(hostLang) ==>
                errorCount == old(errorCount) + run.errorsBefore + 1 && outcome == Exit(1) &&
                outputFileName == old(outputFileName) && sink == old(sink) && files == old(files)
      ensures run.WithRoot? && IsCdLang(hostLang) ==>
                var name := old(NameFor(run.rootFile));
                var sameName := if StrEq(run.rootFile, name) then 1 else 0;
                outputFileName == Some(name) &&
                (name in unwritable ==>
                   errorCount == old(errorCount) + run.errorsBefore + sameName + 1 &&
                   outcome == Exit(1) && sink == old(sink) && files == old(files)) &&
                (name !in unwritable ==>
                   errorCount == old(errorCount) + run.errorsBefore + sameName + run.errorsAfter &&
                   outcome == Running && sink == File(name) && files == old(files)[name := ""])
    {
      match run
      case NoRoot(errors) =>
        errorCount := errorCount + errors;
      case WithRoot(errorsBefore, rootFile, errorsAfter) =>
        errorCount := errorCount + errorsBefore;
        var _ := OpenOutput(rootFile);
        if outcome == Running {
          errorCount := errorCount + errorsAfter;
        }
    }

    /**
     * cd_main: open the XML input, check, parse, check again, and remove the
     * output on failure.
     */
    method CdMain(xmlInputFile: string, run: ParserRun)
      requires Valid() && outcome == Running && sink == NoSink
      modifies this`errorCount, this`outputFileName, this`sink, this`files, this`outcome
      ensures Valid() && outcome != Running
      ensures errorCount >= old(errorCount)
      // all or nothing: exit(1) with errors, return 0 without
      ensures outcome == Exit(1) <==> errorCount > 0
      ensures outcome == Returned(0) <==> errorCount == 0
      // first checkpoint: a missing input or an earlier error stops the run before the parser
      ensures !(xmlInputFile in old(files) && old(errorCount) == 0) ==>
                outcome == Exit(1) &&
                errorCount == old(errorCount) + (if xmlInputFile in old(files) then 0 else 1) &&
                outputFileName == old(outputFileName) && sink == NoSink && files == old(files)
      // no root element: no stream is made, yet a failed run removes the named output
      ensures xmlInputFile in old(files) && old(errorCount) == 0 && run.NoRoot? ==>
                errorCount == run.errors && outputFileName == old(outputFileName) &&
                sink == NoSink &&
                files == if run.errors > 0 && old(outputFileName).Some?
                         then old(files) - {old(outputFileName).value}
                         else old(files)
      // another host language: exit(1) from the output callback, nothing touched
      ensures xmlInputFile in old(files) && old(errorCount) == 0 && run.WithRoot? &&
              !IsCdLang(hostLang) ==>
                errorCount == run.errorsBefore + 1 && outcome == Exit(1) &&
                outputFileName == old(outputFileName) && sink == NoSink && files == old(files)
      ensures xmlInputFile in old(files) && old(errorCount) == 0 && run.WithRoot? &&
              IsCdLang(hostLang) ==>
                var name := old(NameFor(run.rootFile));
                var sameName := if StrEq(run.rootFile, name) then 1 else 0;
                outputFileName == Some(name) &&
                // the output cannot be opened: exit(1) at once, nothing touched
                (name in unwritable ==>
                   errorCount == run.errorsBefore + sameName + 1 && outcome == Exit(1) &&
                   sink == NoSink && files == old(files)) &&
                // the output was opened: kept (empty of generated text here) or removed
                (name !in unwritable ==>
                   errorCount == run.errorsBefore + sameName + run.errorsAfter &&
                   sink == File(name) &&
                   files == if errorCount > 0 then old(files) - {name}
                            else old(files)[name := ""])
      // a file opened for output never survives a failed run
      ensures outcome == Exit(1) && sink.File? ==> sink.path !in files
      // an output named like the source file is opened, truncated and then removed
      ensures xmlInputFile in old(files) && old(errorCount) == 0 && run.WithRoot? &&
              IsCdLang(hostLang) && StrEq(run.rootFile, old(NameFor(run.rootFile))) &&
              run.rootFile !in unwritable ==>
                outcome == Exit(1) && run.rootFile !in files
      // a successful run changes at most the output file, which it truncates
      ensures outcome == Returned(0) ==>
                files == old(files) || (sink.File? && files == old(files)[sink.path := ""])
    {
      if run.WithRoot? && IsCdLang(hostLang) {
        StrEqIsEquality(run.rootFile, NameFor(run.rootFile));
      }

      var inputOpen := xmlInputFile in files;
      if !inputOpen {
        CdError();
      }

      if errorCount > 0 {
        outcome := Exit(1);
        return;
      }

      XmlParse(run);
      if outcome != Running {
        return;
      }

      // Deleting the streams flushes them; the generated text is not modelled.

      if errorCount > 0 {
        if outputFileName.Some? {
          files := files - {outputFileName.value};
        }
        outcome := Exit(1);
        return;
      }
      outcome := Returned(0);
    }
  }
}
