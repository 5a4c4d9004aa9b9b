/**
 * The VM code generator: it appends Hack assembly lines to an in-memory
 * buffer, numbers the labels it invents with a counter, and flushes the
 * buffer to the current output file after every command.
 */
module CodeWriting {
  import opened Wrappers
  import opened Text
  import VMLine
  import VMConstants

  datatype CodeWriterError =
    | OutputError(message: string)       // writing to the output file
    | TranslationError(message: string)  // translating one command

  // -----------------------------------------------------------------------
  // The text of single assembly lines

  /** `[dest "="] comp [";" jump]`. */
  function CCommandText(comp: string, dest: Option<string>, jump: Option<string>): string {
    (if dest.Some? then dest.value + "=" else "") + comp + (if jump.Some? then ";" + jump.value else "")
  }

  function ACommandText(address: string): string {
    "@" + address
  }

  function LabelCommandText(name: string): string {
    "(" + name + ")"
  }

  /** The label made from `name` and a counter value. */
  function LabelName(name: string, count: nat): string {
    name + "_" + NatToString(count)
  }

  // -----------------------------------------------------------------------
  // Instruction templates, one per helper of the generator

  function LoadSPCode(): seq<string> {
    [ACommandText("SP"), CCommandText("M", Some("A"), None)]
  }

  function IncrementSPCode(): seq<string> {
    [ACommandText("SP"), CCommandText("M+1", Some("M"), None)]
  }

  function DecrementSPCode(): seq<string> {
    [ACommandText("SP"), CCommandText("M-1", Some("M"), None)]
  }

  /** Put the value at the address in SP into `dest`. */
  function StackToCode(dest: string): seq<string> {
    LoadSPCode() + [CCommandText("M", Some(dest), None)]
  }

  /** Store the result of `comp` at the address in SP. */
  function CompToStackCode(comp: string): seq<string> {
    LoadSPCode() + [CCommandText(comp, Some("M"), None)]
  }

  function ValueToStackCode(value: string): seq<string> {
    [ACommandText(value), CCommandText("A", Some("D"), None)] + CompToStackCode("D")
  }

  function InitCode(): seq<string> {
    [ACommandText(IntToString(VMConstants.RAMStackStart)), CCommandText("A", Some("D"), None),
     ACommandText("SP"), CCommandText("D", Some("M"), None)]
  }

  /** Y into D, then X itself into A; SP ends pointing at X's cell. */
  function PopOperandsCode(): seq<string> {
    DecrementSPCode() + StackToCode("D") + DecrementSPCode() + StackToCode("A")
  }

  function UnaryCode(comp: string): seq<string> {
    DecrementSPCode() + StackToCode("D") + [CCommandText(comp, Some("D"), None)]
      + CompToStackCode("D") + IncrementSPCode()
  }

  function BinaryCode(comp: string): seq<string> {
    PopOperandsCode() + [CCommandText(comp, Some("D"), None)] + CompToStackCode("D") + IncrementSPCode()
  }

  function CompareCode(jump: string, trueLabel: string, endLabel: string): seq<string> {
    PopOperandsCode() + [CCommandText("D-A", Some("D"), None)] + [ACommandText(trueLabel)] + [CCommandText("D", None, Some(jump))]
      + CompToStackCode("0")
      + [ACommandText(endLabel)] + [CCommandText("0", None, Some("JMP"))] + [LabelCommandText(trueLabel)]
      + CompToStackCode("1")
      + [LabelCommandText(endLabel)] + DecrementSPCode()
  }

  /** The compare template regrouped the way the generator emits it, one helper at a time. */
  lemma CompareCodeRegrouped(b: seq<string>, jump: string, trueLabel: string, endLabel: string)
    ensures b + DecrementSPCode() + StackToCode("D") + DecrementSPCode() + StackToCode("A")
      + [CCommandText("D-A", Some("D"), None)] + [ACommandText(trueLabel)] + [CCommandText("D", None, Some(jump))]
      + CompToStackCode("0")
      + [ACommandText(endLabel)] + [CCommandText("0", None, Some("JMP"))] + [LabelCommandText(trueLabel)]
      + CompToStackCode("1")
      + [LabelCommandText(endLabel)] + DecrementSPCode() == b + CompareCode(jump, trueLabel, endLabel)
  {
  }

  /** The compare template cut at its jumps and labels. */
  lemma CompareCodeSegments(jump: string, trueLabel: string, endLabel: string)
    ensures CompareCode(jump, trueLabel, endLabel)
      == (PopOperandsCode() + [CCommandText("D-A", Some("D"), None), ACommandText(trueLabel)])
        + [CCommandText("D", None, Some(jump))]
        + (CompToStackCode("0") + [ACommandText(endLabel)])
        + [CCommandText("0", None, Some("JMP"))]
        + ([LabelCommandText(trueLabel)] + CompToStackCode("1"))
        + ([LabelCommandText(endLabel)] + DecrementSPCode())
  {
  }

  function PushConstantCode(index: int): seq<string> {
    ValueToStackCode(IntToString(index)) + IncrementSPCode()
  }

  /** The comp mnemonic of each binary and unary command, and the jump of each comparison. */
  function BinaryComp(command: string): Option<string> {
    if command == "add" then Some("D+A")
    else if command == "sub" then Some("A-D")
    else if command == "and" then Some("D&A")
    else if command == "or" then Some("D|A")
    else None
  }

  function UnaryComp(command: string): Option<string> {
    if command == "neg" then Some("-D")
    else if command == "not" then Some("!D")
    else None
  }

  function CompareJump(command: string): Option<string> {
    if command == "eq" then Some("JEQ")
    else if command == "gt" then Some("JGT")
    else if command == "lt" then Some("JLT")
    else None
  }

  // -----------------------------------------------------------------------
  // The generator's state and what each public operation does to it

  /** Everything the generator owns, with `files` standing for the output directory. */
  datatype WriterState = WriterState(
    buffer: seq<string>,
    customLabelCount: nat,
    currentFileName: Option<string>,
    files: map<string, seq<string>>)

  /**
   * The lines a flush adds to a file: the buffer joined with newlines plus a
   * final newline, so an empty buffer adds one empty line.
   */
  function AppendedLines(buffer: seq<string>): seq<string> {
    if buffer == [] then [""] else buffer
  }

  function FileLines(files: map<string, seq<string>>, name: string): seq<string> {
    if name in files then files[name] else []
  }

  function Flush(s: WriterState): (WriterState, Outcome<CodeWriterError>) {
    match s.currentFileName
    case None => (s, Fail(OutputError("No filename specified to write to")))
    case Some(name) =>
      (s.(buffer := [], files := s.files[name := FileLines(s.files, name) + AppendedLines(s.buffer)]), Pass)
  }

  function SelectFile(s: WriterState, name: string): WriterState {
    s.(currentFileName := Some(name), files := s.files[name := []])
  }

  /** The code of one arithmetic command, or None when the mnemonic is not one. */
  function ArithmeticCode(command: string, customLabelCount: nat): Option<seq<string>> {
    if BinaryComp(command).Some? then Some(BinaryCode(BinaryComp(command).value))
    else if UnaryComp(command).Some? then Some(UnaryCode(UnaryComp(command).value))
    else if CompareJump(command).Some? then
      Some(CompareCode(CompareJump(command).value,
                       LabelName("COMPARE_RESULT_TRUE", customLabelCount + 1),
                       LabelName("COMPARE_END", customLabelCount + 2)))
    else None
  }

  /** How many labels a command invents. */
  function LabelsUsed(command: string): nat {
    if CompareJump(command).Some? then 2 else 0
  }

  function Arithmetic(s: WriterState, command: string): (WriterState, Outcome<CodeWriterError>) {
    match ArithmeticCode(command, s.customLabelCount)
    case None => (s, Fail(TranslationError("Unrecognised arithmetic command '" + command + "'")))
    case Some(code) =>
      Flush(s.(buffer := s.buffer + code, customLabelCount := s.customLabelCount + LabelsUsed(command)))
  }

  function Push(s: WriterState, segment: string, index: int): (WriterState, Outcome<CodeWriterError>) {
    if segment == "constant" then Flush(s.(buffer := s.buffer + PushConstantCode(index)))
    else Flush(s)
  }

  function PushPop(s: WriterState, commandType: VMLine.CommandType, segment: string, index: int)
    : (WriterState, Outcome<CodeWriterError>)
  {
    match commandType
    case Push => Push(s, segment, index)
    case Pop => (s, Pass)
    case _ => (s, Fail(TranslationError("Invalid command type supplied to writePushPop()")))
  }

  // -----------------------------------------------------------------------
  // Properties of the generator's operations

  /** A label is `name_count`; the counter part never contains '_', so the pair can be read back. */
  lemma {:induction false} LabelNameInjective(name1: string, count1: nat, name2: string, count2: nat)
    requires LabelName(name1, count1) == LabelName(name2, count2)
    ensures name1 == name2 && count1 == count2
  {
    var joined := LabelName(name1, count1);
    var digits1, digits2 := NatToString(count1), NatToString(count2);
    assert joined == name1 + "_" + digits1 && joined == name2 + "_" + digits2;
    if |name1| < |name2| {
      UnderscoreOnlyBeforeDigits(name1, digits1, |name2|);
      assert false;
    } else if |name2| < |name1| {
      UnderscoreOnlyBeforeDigits(name2, digits2, |name1|);
      assert false;
    }
    assert digits1 == joined[|joined| - |digits1|..] == digits2;
    assert name1 == joined[..|name1|] == name2;
    NatToStringInjective(count1, count2);
  }

  lemma UnderscoreOnlyBeforeDigits(name: string, digits: string, j: int)
    requires AllDigits(digits) && |name| < j < |name| + 1 + |digits|
    ensures (name + "_" + digits)[j] != '_'
  {
    assert (name + "_" + digits)[j] == digits[j - |name| - 1];
  }

  /**
   * The two labels of a comparison differ from each other and from every
   * label made with an earlier counter value, so no label is defined twice.
   */
  lemma CompareLabelsFresh(customLabelCount: nat, name: string, earlier: nat)
    requires earlier <= customLabelCount
    ensures LabelName("COMPARE_RESULT_TRUE", customLabelCount + 1) != LabelName("COMPARE_END", customLabelCount + 2)
    ensures LabelName("COMPARE_RESULT_TRUE", customLabelCount + 1) != LabelName(name, earlier)
    ensures LabelName("COMPARE_END", customLabelCount + 2) != LabelName(name, earlier)
  {
    if LabelName("COMPARE_RESULT_TRUE", customLabelCount + 1) == LabelName("COMPARE_END", customLabelCount + 2) {
      LabelNameInjective("COMPARE_RESULT_TRUE", customLabelCount + 1, "COMPARE_END", customLabelCount + 2);
    }
    if LabelName("COMPARE_RESULT_TRUE", customLabelCount + 1) == LabelName(name, earlier) {
      LabelNameInjective("COMPARE_RESULT_TRUE", customLabelCount + 1, name, earlier);
    }
    if LabelName("COMPARE_END", customLabelCount + 2) == LabelName(name, earlier) {
      LabelNameInjective("COMPARE_END", customLabelCount + 2, name, earlier);
    }
  }

  /** The generator accepts exactly the nine arithmetic mnemonics the line classifier knows. */
  lemma ArithmeticAcceptsKeywords(command: string, customLabelCount: nat)
    ensures ArithmeticCode(command, customLabelCount).Some? <==> command in VMLine.ArithmeticWords
    ensures ArithmeticCode(command, customLabelCount).Some? <==> VMLine.Classify(command) == Some(VMLine.Arithmetic)
    ensures ArithmeticCode(command, customLabelCount).Some? ==> |ArithmeticCode(command, customLabelCount).value| > 0
    ensures LabelsUsed(command) == (if command in {"eq", "gt", "lt"} then 2 else 0)
  {
  }

  /**
   * A flush moves the buffer to the end of the current file (one empty line
   * when the buffer is empty) and touches nothing else; with no current file
   * it fails and changes nothing.
   */
  lemma FlushEffect(s: WriterState)
    ensures Flush(s).1.Pass? <==> s.currentFileName.Some?
    ensures s.currentFileName.None? ==> Flush(s) == (s, Fail(OutputError("No filename specified to write to")))
    ensures s.currentFileName.Some? ==>
      var (t, name) := (Flush(s).0, s.currentFileName.value);
      && t.buffer == []
      && FileLines(t.files, name) == FileLines(s.files, name) + AppendedLines(s.buffer)
      && (forall other :: other != name ==> FileLines(t.files, other) == FileLines(s.files, other))
      && t.customLabelCount == s.customLabelCount && t.currentFileName == s.currentFileName
  {
  }

  /** File then buffer: the lines written so far, in order. */
  function Written(s: WriterState): seq<string>
    requires s.currentFileName.Some?
  {
    FileLines(s.files, s.currentFileName.value) + s.buffer
  }

  /** An unknown mnemonic is rejected and the state is left untouched. */
  lemma ArithmeticRejects(s: WriterState, command: string)
    requires command !in VMLine.ArithmeticWords
    ensures Arithmetic(s, command) == (s, Fail(TranslationError("Unrecognised arithmetic command '" + command + "'")))
  {
    ArithmeticAcceptsKeywords(command, s.customLabelCount);
  }

  /**
   * A known mnemonic adds its code to what was written, spends the labels it
   * needs, and leaves the buffer empty when there is a file to flush to.
   */
  lemma {:induction false} ArithmeticEffect(s: WriterState, command: string)
    requires ArithmeticCode(command, s.customLabelCount).Some?
    ensures var (t, r) := Arithmetic(s, command);
      && t.customLabelCount == s.customLabelCount + LabelsUsed(command)
      && t.currentFileName == s.currentFileName
      && (r.Pass? <==> s.currentFileName.Some?)
      && (r.Pass? ==> t.buffer == [] && Written(t) == Written(s) + ArithmeticCode(command, s.customLabelCount).value)
      && (r.Fail? ==> r == Fail(OutputError("No filename specified to write to")))
  {
    var code := ArithmeticCode(command, s.customLabelCount).value;
    ArithmeticCodeNonEmpty(command, s.customLabelCount);
    EmitThenFlush(s, code, LabelsUsed(command));
  }

  /** Emitting some lines, spending `used` labels, then flushing. */
  lemma EmitThenFlush(s: WriterState, code: seq<string>, used: nat)
    requires |code| > 0
    ensures var (t, r) := Flush(s.(buffer := s.buffer + code, customLabelCount := s.customLabelCount + used));
      && t.customLabelCount == s.customLabelCount + used
      && t.currentFileName == s.currentFileName
      && (r.Pass? <==> s.currentFileName.Some?)
      && (r.Pass? ==> t.buffer == [] && Written(t) == Written(s) + code)
      && (r.Fail? ==> r == Fail(OutputError("No filename specified to write to")))
  {
    var emitted := s.(buffer := s.buffer + code, customLabelCount := s.customLabelCount + used);
    assert AppendedLines(emitted.buffer) == emitted.buffer;
    FlushEffect(emitted);
  }

  lemma ArithmeticCodeNonEmpty(command: string, customLabelCount: nat)
    requires ArithmeticCode(command, customLabelCount).Some?
    ensures |ArithmeticCode(command, customLabelCount).value| > 0
  {
  }

  /** Pop writes nothing and cannot fail; a command type other than push or pop is an error. */
  lemma PushPopRejects(s: WriterState, commandType: VMLine.CommandType, segment: string, index: int)
    ensures commandType == VMLine.Pop ==> PushPop(s, commandType, segment, index) == (s, Pass)
    ensures commandType !in {VMLine.Push, VMLine.Pop} ==>
      PushPop(s, commandType, segment, index) == (s, Fail(TranslationError("Invalid command type supplied to writePushPop()")))
  {
  }

  /** Push of a constant adds its code and flushes; a push of any other segment only flushes. */
  lemma {:induction false} PushEffect(s: WriterState, segment: string, index: int)
    ensures var (t, r) := PushPop(s, VMLine.Push, segment, index);
      && t.customLabelCount == s.customLabelCount
      && t.currentFileName == s.currentFileName
      && (r.Pass? <==> s.currentFileName.Some?)
      && (r.Pass? ==> t.buffer == [] && Written(t) == Written(s) + PushedLines(s.buffer, segment, index))
  {
    if segment == "constant" {
      var emitted := s.(buffer := s.buffer + PushConstantCode(index));
      FlushEffect(emitted);
      assert AppendedLines(emitted.buffer) == emitted.buffer;
    } else {
      FlushEffect(s);
    }
  }

  /** What a push adds to the output: its code, or a blank line when it has none and the buffer is empty. */
  function PushedLines(buffer: seq<string>, segment: string, index: int): seq<string> {
    if segment == "constant" then PushConstantCode(index)
    else if buffer == [] then [""]
    else []
  }

  /** The lines of the stack helpers, written out. */
  lemma StackHelperText(register: string)
    ensures LoadSPCode() == ["@SP", "A=M"]
    ensures IncrementSPCode() == ["@SP", "M=M+1"]
    ensures DecrementSPCode() == ["@SP", "M=M-1"]
    ensures StackToCode(register) == ["@SP", "A=M", register + "=M"]
    ensures CompToStackCode(register) == ["@SP", "A=M", "M=" + register]
  {
    assert ACommandText("SP") == "@SP";
    assert CCommandText("M", Some("A"), None) == "A=M";
    assert CCommandText("M+1", Some("M"), None) == "M=M+1";
    assert CCommandText("M-1", Some("M"), None) == "M=M-1";
    assert CCommandText("M", Some(register), None) == register + "=M";
    assert CCommandText(register, Some("M"), None) == "M=" + register;
  }

  lemma PopOperandsText()
    ensures PopOperandsCode() == ["@SP", "M=M-1", "@SP", "A=M", "D=M", "@SP", "M=M-1", "@SP", "A=M", "A=M"]
  {
    StackHelperText("D");
    StackHelperText("A");
    assert "D" + "=M" == "D=M" && "A" + "=M" == "A=M";
  }

  /** The initial code sets SP to the stack base, 256. */
  lemma InitCodeText()
    ensures InitCode() == ["@256", "D=A", "@SP", "M=D"]
  {
    assert IntToString(VMConstants.RAMStackStart) == "256";
    assert ACommandText("256") == "@256" && ACommandText("SP") == "@SP";
    assert CCommandText("A", Some("D"), None) == "D=A";
    assert CCommandText("D", Some("M"), None) == "M=D";
  }

  /** The instruction lines of the templates, written out. */
  lemma BinaryCodeText(comp: string)
    ensures BinaryCode(comp) ==
      ["@SP", "M=M-1", "@SP", "A=M", "D=M", "@SP", "M=M-1", "@SP", "A=M", "A=M",
       "D=" + comp, "@SP", "A=M", "M=D", "@SP", "M=M+1"]
  {
    StackHelperText("D");
    StackHelperText("A");
    assert CCommandText(comp, Some("D"), None) == "D=" + comp;
    assert "D" + "=M" == "D=M" && "A" + "=M" == "A=M" && "M=" + "D" == "M=D";
    PopOperandsText();
    assert BinaryCode(comp) == ["@SP", "M=M-1", "@SP", "A=M", "D=M", "@SP", "M=M-1", "@SP", "A=M", "A=M"]
      + ["D=" + comp] + ["@SP", "A=M", "M=D"] + ["@SP", "M=M+1"];
  }

  lemma UnaryCodeText(comp: string)
    ensures UnaryCode(comp) ==
      ["@SP", "M=M-1", "@SP", "A=M", "D=M", "D=" + comp, "@SP", "A=M", "M=D", "@SP", "M=M+1"]
  {
    StackHelperText("D");
    assert CCommandText(comp, Some("D"), None) == "D=" + comp;
    assert "D" + "=M" == "D=M" && "M=" + "D" == "M=D";
    assert UnaryCode(comp) == ["@SP", "M=M-1"] + ["@SP", "A=M", "D=M"] + ["D=" + comp]
      + ["@SP", "A=M", "M=D"] + ["@SP", "M=M+1"];
  }

  lemma CompareCodeText(jump: string, trueLabel: string, endLabel: string)
    ensures CompareCode(jump, trueLabel, endLabel) ==
      ["@SP", "M=M-1", "@SP", "A=M", "D=M", "@SP", "M=M-1", "@SP", "A=M", "A=M",
       "D=D-A", "@" + trueLabel, "D;" + jump, "@SP", "A=M", "M=0", "@" + endLabel, "0;JMP",
       "(" + trueLabel + ")", "@SP", "A=M", "M=1", "(" + endLabel + ")", "@SP", "M=M-1"]
  {
    StackHelperText("D");
    StackHelperText("A");
    StackHelperText("0");
    StackHelperText("1");
    assert CCommandText("D-A", Some("D"), None) == "D=D-A";
    assert CCommandText("D", None, Some(jump)) == "D;" + jump;
    assert CCommandText("0", None, Some("JMP")) == "0;JMP";
    assert "D" + "=M" == "D=M" && "A" + "=M" == "A=M" && "M=" + "0" == "M=0" && "M=" + "1" == "M=1";
    PopOperandsText();
    assert CompareCode(jump, trueLabel, endLabel) ==
      ["@SP", "M=M-1", "@SP", "A=M", "D=M", "@SP", "M=M-1", "@SP", "A=M", "A=M"]
      + ["D=D-A"] + ["@" + trueLabel] + ["D;" + jump] + ["@SP", "A=M", "M=0"]
      + ["@" + endLabel] + ["0;JMP"] + ["(" + trueLabel + ")"] + ["@SP", "A=M", "M=1"]
      + ["(" + endLabel + ")"] + ["@SP", "M=M-1"];
  }

  lemma PushConstantCodeText(index: int)
    ensures PushConstantCode(index) ==
      ["@" + IntToString(index), "D=A", "@SP", "A=M", "M=D", "@SP", "M=M+1"]
  {
    StackHelperText("D");
    assert CCommandText("A", Some("D"), None) == "D=A";
    assert "M=" + "D" == "M=D";
    assert PushConstantCode(index) ==
      ["@" + IntToString(index), "D=A"] + ["@SP", "A=M", "M=D"] + ["@SP", "M=M+1"];
  }

  // -----------------------------------------------------------------------
  // The generator object

  class CodeWriter {
    const outputDirectory: string
    var currentFileName: Option<string>
    var buffer: seq<string>
    var customLabelCount: nat
    var files: map<string, seq<string>>

    function State(): WriterState
      reads this
    {
      WriterState(buffer, customLabelCount, currentFileName, files)
    }

    constructor(outputDirectory: string)
      ensures this.outputDirectory == outputDirectory
      ensures State() == WriterState(InitCode(), 0, None, map[])
    {
      this.outputDirectory := outputDirectory;
      currentFileName := None;
      buffer := [];
      customLabelCount := 0;
      files := map[];
      new;
      InitializeStackPointer();
    }

    /** RAM[0] = 256. */
    method InitializeStackPointer()
      modifies this
      ensures buffer == old(buffer) + InitCode()
      ensures customLabelCount == old(customLabelCount)
      ensures currentFileName == old(currentFileName) && files == old(files)
    {
      ACommand(IntToString(VMConstants.RAMStackStart));
      CCommand("A", Some("D"), None);
      ACommand("SP");
      CCommand("D", Some("M"), None);
    }

    /** Later flushes go to `fileName`, which is emptied first. */
    method SetFileName(fileName: string)
      modifies this
      ensures State() == SelectFile(old(State()), fileName)
    {
      currentFileName := Some(fileName);
      PrepareFileForWriting(fileName);
    }

    method PrepareFileForWriting(fileName: string)
      modifies this
      ensures files == old(files)[fileName := []]
      ensures buffer == old(buffer) && customLabelCount == old(customLabelCount)
      ensures currentFileName == old(currentFileName)
    {
      files := files[fileName := []];
    }

    method FlushBufferToFile() returns (r: Outcome<CodeWriterError>)
      modifies this
      ensures (State(), r) == Flush(old(State()))
    {
      if currentFileName.None? {
        return Fail(OutputError("No filename specified to write to"));
      }
      var name := currentFileName.value;
      files := files[name := FileLines(files, name) + AppendedLines(buffer)];
      buffer := [];
      r := Pass;
    }

    method WriteArithmetic(command: string) returns (r: Outcome<CodeWriterError>)
      modifies this
      ensures (State(), r) == Arithmetic(old(State()), command)
    {
      ghost var before := State();
      var known := EmitArithmetic(command);
      if !known {
        return Fail(TranslationError("Unrecognised arithmetic command '" + command + "'"));
      }
      ghost var emitted := before.(
        buffer := before.buffer + ArithmeticCode(command, before.customLabelCount).value,
        customLabelCount := before.customLabelCount + LabelsUsed(command));
      assert Arithmetic(before, command) == Flush(emitted);
      assert State() == emitted;
      r := FlushBufferToFile();
    }

    /** The mnemonic switch of `writeArithmetic`: emit the command's code, or report it unknown and emit nothing. */
    method EmitArithmetic(command: string) returns (known: bool)
      modifies this
      ensures known == ArithmeticCode(command, old(customLabelCount)).Some?
      ensures known ==> buffer == old(buffer) + ArithmeticCode(command, old(customLabelCount)).value
      ensures known ==> customLabelCount == old(customLabelCount) + LabelsUsed(command)
      ensures !known ==> buffer == old(buffer) && customLabelCount == old(customLabelCount)
      ensures currentFileName == old(currentFileName) && files == old(files)
    {
      known := true;
      if command == "add" {
        Binary("D+A");
      } else if command == "sub" {
        Binary("A-D");
      } else if command == "and" {
        Binary("D&A");
      } else if command == "or" {
        Binary("D|A");
      } else if command == "neg" {
        Unary("-D");
      } else if command == "not" {
        Unary("!D");
      } else if command == "eq" {
        Compare("JEQ");
      } else if command == "gt" {
        Compare("JGT");
      } else if command == "lt" {
        Compare("JLT");
      } else {
        known := false;
      }
    }

    method WritePushPop(commandType: VMLine.CommandType, segment: string, index: int)
      returns (r: Outcome<CodeWriterError>)
      modifies this
      ensures (State(), r) == PushPop(old(State()), commandType, segment, index)
    {
      match commandType
      case Push =>
        r := WritePush(segment, index);
      case Pop =>
        r := WritePop(segment, index);
      case _ =>
        r := Fail(TranslationError("Invalid command type supplied to writePushPop()"));
    }

    /** Only the constant segment produces code; every push flushes. */
    method WritePush(segment: string, index: int) returns (r: Outcome<CodeWriterError>)
      modifies this
      ensures (State(), r) == Push(old(State()), segment, index)
    {
      if segment == "constant" {
        ValueToStack(IntToString(index));
        IncrementSP();
        assert buffer == old(buffer) + PushConstantCode(index);
      }
      r := FlushBufferToFile();
    }

    /** Pop is an empty stub: no code and no flush. */
    method WritePop(segment: string, index: int) returns (r: Outcome<CodeWriterError>)
      ensures r == Pass
    {
      r := Pass;
    }

    method Unary(comp: string)
      modifies this
      ensures buffer == old(buffer) + UnaryCode(comp)
      ensures customLabelCount == old(customLabelCount)
      ensures currentFileName == old(currentFileName) && files == old(files)
    {
      DecrementSP();
      StackTo("D");
      CCommand(comp, Some("D"), None);
      CompToStack("D");
      IncrementSP();
    }

    method Binary(comp: string)
      modifies this
      ensures buffer == old(buffer) + BinaryCode(comp)
      ensures customLabelCount == old(customLabelCount)
      ensures currentFileName == old(currentFileName) && files == old(files)
    {
      DecrementSP();
      StackTo("D");
      DecrementSP();
      StackTo("A");
      CCommand(comp, Some("D"), None);
      CompToStack("D");
      IncrementSP();
    }

    method Compare(jump: string)
      modifies this
      ensures customLabelCount == old(customLabelCount) + 2
      ensures buffer == old(buffer) + CompareCode(jump,
        LabelName("COMPARE_RESULT_TRUE", old(customLabelCount) + 1),
        LabelName("COMPARE_END", old(customLabelCount) + 2))
      ensures currentFileName == old(currentFileName) && files == old(files)
    {
      var labelForResultTrue := CreateNewLabel("COMPARE_RESULT_TRUE");
      var labelForEnd := CreateNewLabel("COMPARE_END");
      CompareCodeRegrouped(buffer, jump, labelForResultTrue, labelForEnd);
      DecrementSP();
      StackTo("D");
      DecrementSP();
      StackTo("A");
      CCommand("D-A", Some("D"), None);
      ACommand(labelForResultTrue);
      CCommand("D", None, Some(jump));
      CompToStack("0");
      ACommand(labelForEnd);
      CCommand("0", None, Some("JMP"));
      LabelCommand(labelForResultTrue);
      CompToStack("1");
      LabelCommand(labelForEnd);
      DecrementSP();
    }

    method CompToStack(comp: string)
      modifies this
      ensures buffer == old(buffer) + CompToStackCode(comp)
      ensures customLabelCount == old(customLabelCount)
      ensures currentFileName == old(currentFileName) && files == old(files)
    {
      LoadSP();
      CCommand(comp, Some("M"), None);
    }

    method ValueToStack(value: string)
      modifies this
      ensures buffer == old(buffer) + ValueToStackCode(value)
      ensures customLabelCount == old(customLabelCount)
      ensures currentFileName == old(currentFileName) && files == old(files)
    {
      ACommand(value);
      CCommand("A", Some("D"), None);
      CompToStack("D");
    }

    method StackTo(dest: string)
      modifies this
      ensures buffer == old(buffer) + StackToCode(dest)
      ensures customLabelCount == old(customLabelCount)
      ensures currentFileName == old(currentFileName) && files == old(files)
    {
      LoadSP();
      CCommand("M", Some(dest), None);
    }

    method LoadSP()
      modifies this
      ensures buffer == old(buffer) + LoadSPCode()
      ensures customLabelCount == old(customLabelCount)
      ensures currentFileName == old(currentFileName) && files == old(files)
    {
      ACommand("SP");
      CCommand("M", Some("A"), None);
    }

    method IncrementSP()
      modifies this
      ensures buffer == old(buffer) + IncrementSPCode()
      ensures customLabelCount == old(customLabelCount)
      ensures currentFileName == old(currentFileName) && files == old(files)
    {
      ACommand("SP");
      CCommand("M+1", Some("M"), None);
    }

    method DecrementSP()
      modifies this
      ensures buffer == old(buffer) + DecrementSPCode()
      ensures customLabelCount == old(customLabelCount)
      ensures currentFileName == old(currentFileName) && files == old(files)
    {
      ACommand("SP");
      CCommand("M-1", Some("M"), None);
    }

    method CCommand(comp: string, dest: Option<string>, jump: Option<string>)
      modifies this
      ensures buffer == old(buffer) + [CCommandText(comp, dest, jump)]
      ensures customLabelCount == old(customLabelCount)
      ensures currentFileName == old(currentFileName) && files == old(files)
    {
      var command := "";
      if dest.Some? {
        command := command + (dest.value + "=");
      }
      assert command == (if dest.Some? then dest.value + "=" else "");
      command := command + comp;
      if jump.Some? {
        command := command + (";" + jump.value);
      }
      assert command == CCommandText(comp, dest, jump);
      buffer := buffer + [command];
    }

    method ACommand(address: string)
      modifies this
      ensures buffer == old(buffer) + [ACommandText(address)]
      ensures customLabelCount == old(customLabelCount)
      ensures currentFileName == old(currentFileName) && files == old(files)
    {
      buffer := buffer + ["@" + address];
    }

    method LabelCommand(name: string)
      modifies this
      ensures buffer == old(buffer) + [LabelCommandText(name)]
      ensures customLabelCount == old(customLabelCount)
      ensures currentFileName == old(currentFileName) && files == old(files)
    {
      buffer := buffer + ["(" + name + ")"];
    }

    method CreateNewLabel(name: string) returns (newLabel: string)
      modifies this
      ensures customLabelCount == old(customLabelCount) + 1
      ensures newLabel == LabelName(name, customLabelCount)
      ensures buffer == old(buffer)
      ensures currentFileName == old(currentFileName) && files == old(files)
    {
      customLabelCount := customLabelCount + 1;
      newLabel := name + "_" + NatToString(customLabelCount);
    }
  }
}
