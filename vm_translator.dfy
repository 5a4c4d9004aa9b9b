/**
 * The VM translator's driver for one file: it reads the lines, points the
 * code generator at `<name>.asm`, walks the commands with the parser and
 * hands each one to the generator, reporting what could not be translated.
 */
module Translation {
  import opened Wrappers
  import opened Text
  import opened VMLine
  import opened VMParser
  import opened CodeWriting

  /** What the driver reports on the console. */
  datatype Message =
    | CouldNotRead(filePath: string)
    | InsufficientArguments(line: Line, expectedArguments: nat)
    | NotImplemented(command: string)
    | OutputFailure(errorMessage: string, line: Line)
    | TranslationFailure(errorMessage: string, line: Line)
    | FileTranslated(outputFilename: string)

  // -----------------------------------------------------------------------
  // File names

  /** The path without the slashes that end it (a lone "/" is kept). */
  function TrimTrailingSlashes(path: string): (r: string)
    ensures |r| <= |path|
    ensures r == path[..|r|]
  {
    if |path| > 1 && path[|path| - 1] == '/' then TrimTrailingSlashes(path[..|path| - 1]) else path
  }

  /** The last component of a path. */
  function LastPathComponent(path: string): (r: string)
    ensures |r| > 0 && r != "/" ==> '/' !in r
  {
    var trimmed := TrimTrailingSlashes(path);
    if trimmed == "/" then trimmed
    else match LastIndexOf(trimmed, '/')
      case None => trimmed
      case Some(i) => trimmed[i + 1..]
  }

  /** The extension of the last component: the text after its last dot, when that dot is not its first character. */
  function PathExtension(path: string): string {
    var component := LastPathComponent(path);
    match LastIndexOf(component, '.')
    case None => ""
    case Some(i) => if i == 0 then "" else component[i + 1..]
  }

  predicate IsValidVMFile(file: string) {
    PathExtension(file) == "vm"
  }

  /** The last component cut at its last dot (or whole when it has none), with ".asm" added. */
  function OutputFilename(inputFilePath: string): string {
    var component := LastPathComponent(inputFilePath);
    match LastIndexOf(component, '.')
    case None => component + ".asm"
    case Some(i) => component[..i] + ".asm"
  }

  lemma EndingFindsDot(component: string)
    requires |component| >= 4 && component[|component| - 3..] == ".vm"
    ensures LastIndexOf(component, '.') == Some(|component| - 3)
  {
    var tail := component[|component| - 3..];
    assert component[|component| - 3] == tail[0] == '.';
    assert component[|component| - 2..] == tail[1..];
    assert '.' !in tail[1..];
  }

  lemma DotFindsEnding(component: string, i: nat)
    requires i < |component| && component[i] == '.'
    requires i != 0 && component[i + 1..] == "vm"
    ensures |component| >= 4 && component[|component| - 3..] == ".vm"
  {
    assert |component| == i + 3;
    assert component[|component| - 3..] == [component[i]] + component[i + 1..];
  }

  /** A component whose extension is "vm" ends in ".vm" after at least one other character, and conversely. */
  lemma VMExtension(component: string)
    ensures (match LastIndexOf(component, '.')
             case None => false
             case Some(i) => i != 0 && component[i + 1..] == "vm")
      <==> |component| >= 4 && component[|component| - 3..] == ".vm"
  {
    if |component| >= 4 && component[|component| - 3..] == ".vm" {
      EndingFindsDot(component);
    }
    match LastIndexOf(component, '.')
    case None =>
    case Some(i) =>
      if i != 0 && component[i + 1..] == "vm" {
        DotFindsEnding(component, i);
      }
  }

  /** A VM file's output is the same name with ".vm" replaced by ".asm". */
  lemma VMFileOutputName(file: string)
    ensures IsValidVMFile(file) <==>
      var component := LastPathComponent(file);
      |component| >= 4 && component[|component| - 3..] == ".vm"
    ensures IsValidVMFile(file) ==>
      var component := LastPathComponent(file);
      OutputFilename(file) == component[..|component| - 3] + ".asm"
  {
    var component := LastPathComponent(file);
    VMExtension(component);
  }

  // -----------------------------------------------------------------------
  // Translating lines

  /** The console message for a failed generator call. */
  function Report(result: (WriterState, Outcome<CodeWriterError>), line: Line): (WriterState, seq<Message>) {
    match result.1
    case Pass => (result.0, [])
    case Fail(OutputError(message)) => (result.0, [OutputFailure(message, line)])
    case Fail(TranslationError(message)) => (result.0, [TranslationFailure(message, line)])
  }

  /** One pass of the driver's loop body on the current line. */
  function Step(s: WriterState, line: Line): (WriterState, seq<Message>) {
    match line.CommandType()
    case None => (s, [])
    case Some(commandType) =>
      if commandType == Arithmetic then
        Report(CodeWriting.Arithmetic(s, line.Cleaned()), line)
      else if commandType == Push || commandType == Pop then
        var arg1, arg2 := FirstArgument(line), SecondArgument(line);
        if arg1.None? || arg2.None? then (s, [InsufficientArguments(line, 2)])
        else Report(PushPop(s, commandType, arg1.value, arg2.value), line)
      else
        (s, [NotImplemented(line.Cleaned())])
  }

  /** The loop body applied to every line in order; lines that are not commands change nothing. */
  function Run(s: WriterState, lines: seq<Line>): (WriterState, seq<Message>)
    decreases |lines|
  {
    if lines == [] then (s, [])
    else
      var before := Run(s, lines[..|lines| - 1]);
      var after := Step(before.0, lines[|lines| - 1]);
      (after.0, before.1 + after.1)
  }

  /** The whole of `translateFile` once the input has been read. */
  function TranslateLines(s: WriterState, filePath: string, inputLines: seq<string>): (WriterState, seq<Message>) {
    var outputFilename := OutputFilename(filePath);
    var translated := Run(SelectFile(s, outputFilename), Numbered(inputLines));
    (translated.0, translated.1 + [FileTranslated(outputFilename)])
  }

  lemma StepIgnoresNonCommands(s: WriterState, line: Line)
    requires !line.IsValidCommand()
    ensures Step(s, line) == (s, [])
  {
  }

  /** `Step` case by case, for use where unfolding it is costly. */
  lemma StepCases(s: WriterState, line: Line)
    ensures line.CommandType() == None ==> Step(s, line) == (s, [])
    ensures line.CommandType() == Some(Arithmetic) ==>
      Step(s, line) == Report(CodeWriting.Arithmetic(s, line.Cleaned()), line)
    ensures line.CommandType() == Some(Push) || line.CommandType() == Some(Pop) ==>
      Step(s, line) ==
        if FirstArgument(line).None? || SecondArgument(line).None? then (s, [InsufficientArguments(line, 2)])
        else Report(PushPop(s, line.CommandType().value, FirstArgument(line).value, SecondArgument(line).value), line)
    ensures line.CommandType().Some? && line.CommandType().value !in {Arithmetic, Push, Pop} ==>
      Step(s, line) == (s, [NotImplemented(line.Cleaned())])
  {
  }

  lemma WholePrefix(lines: seq<Line>)
    ensures lines[..|lines|] == lines
  {
  }

  /** One more line is one more step. */
  lemma RunExtends(s: WriterState, lines: seq<Line>, k: nat)
    requires k < |lines|
    ensures var before := Run(s, lines[..k]);
      Run(s, lines[..k + 1]) == (Step(before.0, lines[k]).0, before.1 + Step(before.0, lines[k]).1)
  {
    assert lines[..k + 1][..k] == lines[..k];
  }

  lemma {:induction false} RunSkipsNonCommands(s: WriterState, lines: seq<Line>, i: nat, j: nat)
    requires i <= j <= |lines|
    requires forall k :: i <= k < j ==> !Validity(lines)[k]
    ensures Run(s, lines[..j]) == Run(s, lines[..i])
    decreases j
  {
    if i < j {
      RunSkipsNonCommands(s, lines, i, j - 1);
      var shorter := lines[..j - 1];
      assert lines[..j][..j - 1] == shorter;
      var before := Run(s, shorter);
      assert !Validity(lines)[j - 1];
      StepIgnoresNonCommands(before.0, lines[j - 1]);
      assert before.1 + [] == before.1;
      assert Run(s, lines[..j]) == (before.0, before.1 + []);
    }
  }

  /** Before the first command nothing has happened. */
  lemma RunStartsEmpty(s: WriterState, lines: seq<Line>, i: nat)
    requires i <= |lines|
    requires forall k :: 0 <= k < i ==> !Validity(lines)[k]
    ensures Run(s, lines[..i]) == (s, [])
  {
    assert lines[..0] == [];
    RunSkipsNonCommands(s, lines, 0, i);
  }

  /** Translating line `i` and skipping the non-commands after it, up to `j`. */
  lemma RunAdvances(s: WriterState, lines: seq<Line>, i: nat, j: nat,
                    before: WriterState, log: seq<Message>, after: WriterState, messages: seq<Message>)
    requires i < j <= |lines|
    requires Run(s, lines[..i]) == (before, log)
    requires Step(before, lines[i]) == (after, messages)
    requires forall k :: i < k < j ==> !Validity(lines)[k]
    ensures Run(s, lines[..j]) == (after, log + messages)
  {
    RunExtends(s, lines, i);
    RunSkipsNonCommands(s, lines, i + 1, j);
  }

  /**
   * What each kind of line does, given that the cleaned line is a single word:
   * push and pop always lack their arguments, the other non-arithmetic
   * commands are not implemented, and an arithmetic line never fails to translate.
   */
  lemma StepByKind(s: WriterState, line: Line)
    ensures line.CommandType() == Some(Push) || line.CommandType() == Some(Pop) ==>
      Step(s, line) == (s, [InsufficientArguments(line, 2)])
    ensures line.CommandType().Some? && line.CommandType().value !in {Arithmetic, Push, Pop} ==>
      Step(s, line) == (s, [NotImplemented(line.Cleaned())])
    ensures line.CommandType() == Some(Arithmetic) ==>
      line.Cleaned() in ArithmeticWords
      && Step(s, line).0 == CodeWriting.Arithmetic(s, line.Cleaned()).0
      && (s.currentFileName.Some? ==> Step(s, line).1 == [])
      && (s.currentFileName.None? ==> Step(s, line).1 == [OutputFailure("No filename specified to write to", line)])
  {
    NoArgumentsInAnyLine(line);
    ClassifiedByWholeLine(line);
    if line.CommandType() == Some(Arithmetic) {
      ClassifyTable(line.Cleaned());
      ArithmeticAcceptsKeywords(line.Cleaned(), s.customLabelCount);
      ArithmeticEffect(s, line.Cleaned());
    }
  }

  /**
   * Over a whole file with an output file selected: the output file is never
   * switched, what has been written is only ever extended, and the only
   * reports are commands that could not be handled.
   */
  lemma {:induction false} RunKeepsOutput(s: WriterState, lines: seq<Line>)
    requires s.currentFileName.Some?
    ensures Run(s, lines).0.currentFileName == s.currentFileName
    ensures Written(s) <= Written(Run(s, lines).0)
    ensures forall m :: m in Run(s, lines).1 ==> m.InsufficientArguments? || m.NotImplemented?
    decreases |lines|
  {
    if lines != [] {
      var prefix := lines[..|lines| - 1];
      var line := lines[|lines| - 1];
      RunKeepsOutput(s, prefix);
      var before := Run(s, prefix).0;
      StepByKind(before, line);
      if line.CommandType() == Some(Arithmetic) {
        ArithmeticAcceptsKeywords(line.Cleaned(), before.customLabelCount);
        ArithmeticEffect(before, line.Cleaned());
      }
    }
  }

  /**
   * `translateFile`: an unreadable file is reported and nothing else happens;
   * otherwise the output file is emptied, every line is translated in order
   * and the file is reported as translated.
   */
  method TranslateFile(filePath: string, input: Option<seq<string>>, codeWriter: CodeWriter)
    returns (log: seq<Message>)
    requires input.Some? ==> |input.value| > 0
    modifies codeWriter
    ensures input.None? ==> log == [CouldNotRead(filePath)] && codeWriter.State() == old(codeWriter.State())
    ensures input.Some? ==> (codeWriter.State(), log) == TranslateLines(old(codeWriter.State()), filePath, input.value)
  {
    if input.None? {
      return [CouldNotRead(filePath)];
    }
    var inputLines := input.value;
    var outputFilename := OutputFilename(filePath);
    codeWriter.SetFileName(outputFilename);
    var parser := new Parser(inputLines);
    log := TranslateCommands(parser, codeWriter);
    log := log + [FileTranslated(outputFilename)];
  }

  /** The driver's loop: translate the current command, then advance while there are more. */
  method TranslateCommands(parser: Parser, codeWriter: CodeWriter) returns (log: seq<Message>)
    requires parser.Valid()
    requires forall k :: 0 <= k < parser.currentIndex ==> !Validity(parser.lines)[k]
    modifies parser, codeWriter
    ensures (codeWriter.State(), log) == Run(old(codeWriter.State()), parser.lines)
  {
    ghost var start := codeWriter.State();
    ghost var lines := parser.lines;
    log := [];
    RunStartsEmpty(start, lines, parser.currentIndex);
    var more := true;
    while more
      invariant parser.Valid() && parser.lines == lines
      invariant more ==> (codeWriter.State(), log) == Run(start, lines[..parser.currentIndex])
      invariant !more ==> (codeWriter.State(), log) == Run(start, lines)
      decreases |lines| - parser.currentIndex, more
    {
      log, more := TranslateAndAdvance(parser, codeWriter, start, log);
    }
  }

  /** One turn of the driver's loop: the current command, then the move to the next one if there is one. */
  method TranslateAndAdvance(parser: Parser, codeWriter: CodeWriter, ghost start: WriterState, log: seq<Message>)
    returns (newLog: seq<Message>, more: bool)
    requires parser.Valid()
    requires (codeWriter.State(), log) == Run(start, parser.lines[..parser.currentIndex])
    modifies parser, codeWriter
    ensures parser.Valid()
    ensures more ==> old(parser.currentIndex) < parser.currentIndex
    ensures more ==> (codeWriter.State(), newLog) == Run(start, parser.lines[..parser.currentIndex])
    ensures !more ==> parser.currentIndex == old(parser.currentIndex)
    ensures !more ==> (codeWriter.State(), newLog) == Run(start, parser.lines)
  {
    ghost var before, index := codeWriter.State(), parser.currentIndex;
    var messages := TranslateCurrentLine(parser, codeWriter);
    newLog := log + messages;
    if parser.HasMoreCommands() {
      parser.Advance();
      more := true;
      RunAdvances(start, parser.lines, index, parser.currentIndex, before, log, codeWriter.State(), messages);
    } else {
      more := false;
      RunAdvances(start, parser.lines, index, |parser.lines|, before, log, codeWriter.State(), messages);
      WholePrefix(parser.lines);
    }
  }

  /** The body of the driver's loop: hand the current command to the generator and report what went wrong. */
  method TranslateCurrentLine(parser: Parser, codeWriter: CodeWriter) returns (messages: seq<Message>)
    requires parser.Valid()
    modifies codeWriter
    ensures (codeWriter.State(), messages) == Step(old(codeWriter.State()), old(parser.CurrentLine()))
  {
    var line := parser.CurrentLine();
    StepCases(codeWriter.State(), line);
    var commandType := parser.CommandType();
    messages := [];
    if commandType.Some? {
      if commandType.value == Arithmetic {
        var result := codeWriter.WriteArithmetic(parser.CurrentCommand());
        messages := Report((codeWriter.State(), result), line).1;
      } else if commandType.value == Push || commandType.value == Pop {
        var arg1, arg2 := parser.Arg1(), parser.Arg2();
        if arg1.None? || arg2.None? {
          messages := [InsufficientArguments(line, 2)];
        } else {
          // A cleaned line holds no space, so the arguments are never found
          // and the call to `writePushPop` is never reached.
          assert false;
        }
      } else {
        messages := [NotImplemented(line.Cleaned())];
      }
    }
  }
}
