# Nand2Tetris VM translator and Hack assembler, modelled in Dafny

This project models two tools from a Swift implementation of the
Nand2Tetris course.

**The VM translator** reads a `.vm` file and turns each stack-machine
command into Hack assembly. Its parts:
- a `Line` cleans and classifies one source line. `Line.swift` declares
  only the original text and `init(_ line:)`, while its callers build
  `Line(element, lineNumber:)` and read `line.lineNumber`. The model
  follows the callers: its `VMLine.Line` carries a line number;
- a `Parser` cursor steps over the lines that are not commands;
- a `CodeWriter` appends assembly lines to a buffer, numbers the labels it
  invents with a counter, and flushes the buffer to the current output
  file after every arithmetic command and every push. An unknown
  arithmetic mnemonic throws before the flush, and `writePop` is an empty
  stub that never flushes;
- a driver loop hands each command to the writer and reports what could
  not be translated.

**The Hack assembler** turns assembly into 16-character binary strings.
Its parts:
- a `Line` reads A-, C- and pseudo-commands;
- a `Parser` cursor walks the commands;
- `Code` holds the mnemonic tables and the 15-bit address field;
- a `SymbolTable` maps names to addresses;
- a two-pass algorithm: the first pass gives each label `(NAME)` the ROM
  address of the instruction after it; the second pass encodes every
  instruction and gives each new variable the next free RAM address from
  16 upward.

There are two revisions of the assembler driver. One starts from a table
pre-seeded with `SP`…`KBD` and `R0`…`R15`. The other starts from an empty
table.

**How the model is built.** State that the source updates in place is
modelled as a class:
- the cursors, with `currentIndex`;
- the code writer, with its buffer, label counter, current file and
  output files;
- the symbol table, with its dictionary.

The loops keep their imperative form:
- the translator's `while true` driver;
- the assembler's `firstPass` and `secondPass`;
- the register seeding in `SymbolTable.init`.

Each loop method is proved against a specification function: a left fold
of the loop body over the lines (`Translation.Run`,
`AssemblerPasses.FirstRun`, `AssemblerPasses.SecondRun`). The properties
the source promises are then proved about those folds.

The regular expressions are written out as string functions, with `\s`
and `\w` as fixed ASCII sets:
- `Text.StripWhitespace`, `Text.StripComments`;
- `AssemblyLine.Classify`, `AssemblyLine.BeforeLastSemicolon`,
  `AssemblyLine.AfterFirstEquals`;
- `AssemblyLine.JumpText`, `AssemblyLine.DestText`,
  `AssemblyLine.InsideParentheses`.

Swift's `Int(String)` is `Text.ParseInt`: an optional sign, at least one
ASCII digit, and the 64-bit range.

**Behaviour of the code as written.** The model follows the code; the
comments in the code suggest other intentions.
- `Line.cleaned` in the VM translator removes every whitespace character,
  not only leading and trailing blanks. So `push constant 7` cleans to
  `pushconstant7`, which is no command at all
  (`VMLine.OperandsMakeNoCommand`).
- A bare `push` or `pop` has no arguments, so the driver reports
  insufficient arguments (`Translation.StepByKind`). The call to
  `writePushPop` in the driver is therefore unreachable.
- The writer's push and pop operations are still modelled and proved on
  their own.
- The compare template tests `Y - X` rather than `X - Y`, writes `1` for
  true, and leaves SP three cells lower. `CodeWriting.CompareCodeText`
  writes the emitted lines out and the model keeps them;
  `HackMachine.CompareRun` proves what they do (see Findings).
- The assembler's `comp()` keeps everything before the last `;`, so a
  command with both a dest and a jump, such as `D=M;JGT`, encodes the comp
  bits of `0`. The passes encode `comp()` as written
  (`AssemblerPasses.CInstruction`); `AssemblerPasses.IntendedCInstruction`
  is the encoding with the comp field the Hack syntax defines.

**What the arithmetic templates do.** `HackMachine` is a small Hack
computer: the A and D registers, a data memory in which a cell never
written holds 0, and a program counter. Its instructions are the
generator's own lines, split into `@symbol`, `dest=comp;jump` and
`(label)`, and labels are resolved through a symbol table given to the
machine. The ALU table follows the Hack comp mnemonics, and the jumps test
the computed value as a 16-bit two's-complement number. Each arithmetic
template is proved, line for line, to be the listing of a machine program
(`HackMachine.ArithmeticListing`), and running that program is proved to
leave the result the VM command calls for on the stack, or for the
comparisons what the code actually leaves there.

## Model

| member | source | states |
|---|---|---|
| Utils.PipeChains | 06/Assembler/Assembler/utils.swift:23-25 | `x \|> f \|> g` is `g(f(x))` |
| Utils.LeftPadding | 06/Assembler/Assembler/utils.swift:30-38 | the result has exactly `toLength` characters: the pad repeated before a shorter string, else its last `toLength` characters |
| Utils.RightPadding | 06/Assembler/Assembler/utils.swift:40-48 | the result has exactly `toLength` characters: the pad repeated after a shorter string, else its first `toLength` characters |
| Utils.LeftPaddingKeepsSuffix | 06/Assembler/Assembler/utils.swift:33-34 | a string no longer than `toLength` ends the left-padded result, and everything before it is the pad |
| Utils.RightPaddingKeepsPrefix | 06/Assembler/Assembler/utils.swift:43-44 | a string no longer than `toLength` starts the right-padded result, and everything after it is the pad |
| Utils.PaddingExactLength | 06/Assembler/Assembler/utils.swift:30-48 | padding a string to its own length returns it unchanged |
| Utils.PaddingIdempotent | 06/Assembler/Assembler/utils.swift:30-48 | padding twice to the same length is padding once |
| Text.StripWhitespace | VMTranslator/Sources/VMTranslator/Lib/Line.swift:77-79 | the result holds no whitespace, is never longer, and is the input itself when it holds none |
| Text.StripWhitespaceAppend | VMTranslator/Sources/VMTranslator/Lib/Line.swift:77-79 | removing whitespace distributes over concatenation |
| Text.StripCommentsCuts | VMTranslator/Sources/VMTranslator/Lib/Line.swift:81-83 | the result is a prefix of the input, shorter exactly when a `//` is followed by at least one character |
| Text.TrailingSlashesSurvive | VMTranslator/Sources/VMTranslator/Lib/Line.swift:81-83 | a `//` at the very end is kept, since `.+` needs a character after it |
| Text.SplitWithoutSeparator | VMTranslator/Sources/VMTranslator/Lib/Line.swift:33 | a text without the separator splits into itself, or into nothing when empty |
| Text.IntToStringRoundTrip | Assembler/Sources/Assembler/Assembler.swift:162 | `Int(String(i)) == i` for every 64-bit `i` |
| Text.ParseIntNeedsDigit | Assembler/Sources/Assembler/Assembler.swift:162 | a text without a digit is not a number, so symbols made of letters go to the table |
| Text.NatToStringInjective | 06/Assembler/Sources/Assembler/Lib/SymbolTable.swift:28 | different numbers print differently |
| Cursor.FirstValid | VMTranslator/Sources/VMTranslator/Lib/Parser.swift:58-61 | the least command index at or after the start, or none exactly when no later line is a command |
| Cursor.NextValidIndex | 06/Assembler/Sources/Assembler/Lib/Parser.swift:73-84 | the first command strictly after the current line, none past the end or when no later line is a command |
| Cursor.StartIndex | VMTranslator/Sources/VMTranslator/Lib/Parser.swift:30-36 | the cursor starts on line 0 if it is a command, else on the first command, else on 0 |
| VMLine.Line.Cleaned | VMTranslator/Sources/VMTranslator/Lib/Line.swift:16-20 | the cleaned line holds no whitespace and is no longer than the original |
| VMLine.ClassifyTable | VMTranslator/Sources/VMTranslator/Lib/Line.swift:41-68 | the keyword table in both directions; `IF` is never produced |
| VMLine.ClassifiedByWholeLine | VMTranslator/Sources/VMTranslator/Lib/Line.swift:32-69 | splitting the cleaned line gives at most one piece, so the whole cleaned line is the keyword and an empty one is no command |
| VMLine.StripJoinsThreeWords | VMTranslator/Sources/VMTranslator/Lib/Line.swift:77-79 | the blanks between three words disappear |
| VMLine.CleanedGluesOperands | VMTranslator/Sources/VMTranslator/Lib/Line.swift:16-20 | `push seg i` and `pop seg i` clean to `pushsegi` and `popsegi` |
| VMLine.GluedKeywordIsNoCommand | VMTranslator/Sources/VMTranslator/Lib/Line.swift:39-68 | a cleaned line that is `push` or `pop` followed by more text is no command |
| VMLine.OperandsMakeNoCommand | VMTranslator/Sources/VMTranslator/Lib/Line.swift:16-68 | a push or pop written with its operands is no command |
| VMParser.Numbered | VMTranslator/Sources/VMTranslator/Lib/Parser.swift:24-28 | line `i` of the input becomes a `Line` numbered `i + 1` |
| VMParser.FirstArgument | VMTranslator/Sources/VMTranslator/Lib/Parser.swift:91-99 | the second space-separated piece of the cleaned line, none exactly when there are fewer than two |
| VMParser.SecondArgument | VMTranslator/Sources/VMTranslator/Lib/Parser.swift:106-114 | the third piece read as an `Int`, none when there are fewer than three |
| VMParser.NoArgumentsInAnyLine | VMTranslator/Sources/VMTranslator/Lib/Parser.swift:91-114 | on a cleaned line neither argument is ever found |
| VMParser.Parser.constructor | VMTranslator/Sources/VMTranslator/Lib/Parser.swift:22-37 | the lines are numbered and the cursor is at its start index |
| VMParser.Parser.CurrentCommand | VMTranslator/Sources/VMTranslator/Lib/Parser.swift:40-42 | the current command holds no whitespace |
| VMParser.Parser.HasMoreCommands | VMTranslator/Sources/VMTranslator/Lib/Parser.swift:49-51 | true exactly when some later line is a command |
| VMParser.Parser.Advance | VMTranslator/Sources/VMTranslator/Lib/Parser.swift:67-76 | the cursor moves forward onto a command, and every line it passes is not a command |
| CodeWriting.CodeWriter.constructor | VMTranslator/Sources/VMTranslator/Lib/CodeWriter.swift:33-37 | a new writer holds only the stack pointer set-up, with no file and a zero label counter |
| CodeWriting.InitCodeText | VMTranslator/Sources/VMTranslator/Lib/CodeWriter.swift:40-45 | the set-up code stores 256 in SP |
| CodeWriting.CodeWriter.InitializeStackPointer | VMTranslator/Sources/VMTranslator/Lib/CodeWriter.swift:40-45 | appends the set-up code and changes nothing else |
| CodeWriting.CodeWriter.SetFileName | VMTranslator/Sources/VMTranslator/Lib/CodeWriter.swift:52-56 | the named file becomes current and is emptied |
| CodeWriting.CodeWriter.PrepareFileForWriting | VMTranslator/Sources/VMTranslator/Lib/CodeWriter.swift:58-70 | the named file is emptied and nothing else changes |
| CodeWriting.CodeWriter.FlushBufferToFile | VMTranslator/Sources/VMTranslator/Lib/CodeWriter.swift:75-92 | the state afterwards is that of the flush specification |
| CodeWriting.FlushEffect | VMTranslator/Sources/VMTranslator/Lib/CodeWriter.swift:75-92 | a flush fails exactly when there is no file, changing nothing; otherwise the file gains the buffer, or one empty line for an empty buffer, and the buffer empties |
| CodeWriting.CodeWriter.WriteArithmetic | VMTranslator/Sources/VMTranslator/Lib/CodeWriter.swift:95-123 | the state and result are those of the arithmetic specification |
| CodeWriting.ArithmeticAcceptsKeywords | VMTranslator/Sources/VMTranslator/Lib/CodeWriter.swift:96-120 | the writer accepts exactly the nine mnemonics the line classifier calls arithmetic; only `eq`, `gt` and `lt` use labels, two each |
| CodeWriting.ArithmeticRejects | VMTranslator/Sources/VMTranslator/Lib/CodeWriter.swift:118-119 | any other mnemonic is a translation error and the state is untouched |
| CodeWriting.ArithmeticEffect | VMTranslator/Sources/VMTranslator/Lib/CodeWriter.swift:95-123 | an accepted command advances the counter by its labels and keeps the file; with a file its code is appended to what was written and the buffer empties, and without one it fails with the missing-file error |
| CodeWriting.CodeWriter.WritePushPop | VMTranslator/Sources/VMTranslator/Lib/CodeWriter.swift:126-137 | the state and result are those of the push/pop specification |
| CodeWriting.PushPopRejects | VMTranslator/Sources/VMTranslator/Lib/CodeWriter.swift:126-137 | pop changes nothing and passes; any other command type is a translation error |
| CodeWriting.CodeWriter.WritePush | VMTranslator/Sources/VMTranslator/Lib/CodeWriter.swift:141-148 | the state and result are those of the push specification |
| CodeWriting.PushEffect | VMTranslator/Sources/VMTranslator/Lib/CodeWriter.swift:141-148 | a push keeps the counter and file; with a file it appends the constant's code, or only flushes for any other segment |
| CodeWriting.PushConstantCodeText | VMTranslator/Sources/VMTranslator/Lib/CodeWriter.swift:142-145 | a constant push is `@i`, `D=A`, store at SP, increment SP |
| CodeWriting.CodeWriter.WritePop | VMTranslator/Sources/VMTranslator/Lib/CodeWriter.swift:151-153 | pop passes and changes nothing |
| CodeWriting.CodeWriter.Unary | VMTranslator/Sources/VMTranslator/Lib/CodeWriter.swift:157-169 | appends the unary template and changes nothing else |
| CodeWriting.UnaryCodeText | VMTranslator/Sources/VMTranslator/Lib/CodeWriter.swift:157-169 | the unary template line by line |
| CodeWriting.CodeWriter.Binary | VMTranslator/Sources/VMTranslator/Lib/CodeWriter.swift:171-187 | appends the binary template and changes nothing else |
| CodeWriting.BinaryCodeText | VMTranslator/Sources/VMTranslator/Lib/CodeWriter.swift:171-187 | the binary template line by line |
| CodeWriting.PopOperandsText | VMTranslator/Sources/VMTranslator/Lib/CodeWriter.swift:173-178 | the ten lines that pop the operands (two `decrementSP`/`stackTo` pairs) written out; their effect is `HackMachine.PopOperandsFlow` |
| CodeWriting.CodeWriter.Compare | VMTranslator/Sources/VMTranslator/Lib/CodeWriter.swift:189-220 | appends the compare template with two new labels and advances the counter by two |
| CodeWriting.CompareCodeText | VMTranslator/Sources/VMTranslator/Lib/CodeWriter.swift:189-220 | the compare template line by line, as emitted |
| CodeWriting.CompareLabelsFresh | VMTranslator/Sources/VMTranslator/Lib/CodeWriter.swift:296-300 | the compare's two labels differ from each other and from every label made with an earlier counter value |
| CodeWriting.CodeWriter.CompToStack | VMTranslator/Sources/VMTranslator/Lib/CodeWriter.swift:225-228 | appends its lines and changes nothing else |
| CodeWriting.CodeWriter.ValueToStack | VMTranslator/Sources/VMTranslator/Lib/CodeWriter.swift:231-235 | appends its lines and changes nothing else |
| CodeWriting.CodeWriter.StackTo | VMTranslator/Sources/VMTranslator/Lib/CodeWriter.swift:238-241 | appends its lines and changes nothing else |
| CodeWriting.CodeWriter.LoadSP | VMTranslator/Sources/VMTranslator/Lib/CodeWriter.swift:245-248 | appends its lines and changes nothing else |
| CodeWriting.CodeWriter.IncrementSP | VMTranslator/Sources/VMTranslator/Lib/CodeWriter.swift:251-254 | appends its lines and changes nothing else |
| CodeWriting.CodeWriter.DecrementSP | VMTranslator/Sources/VMTranslator/Lib/CodeWriter.swift:256-259 | appends its lines and changes nothing else |
| CodeWriting.StackHelperText | VMTranslator/Sources/VMTranslator/Lib/CodeWriter.swift:225-259 | the stack helpers' lines written out |
| CodeWriting.CodeWriter.CCommand | VMTranslator/Sources/VMTranslator/Lib/CodeWriter.swift:264-286 | appends `[dest=]comp[;jump]` and changes nothing else |
| CodeWriting.CodeWriter.ACommand | VMTranslator/Sources/VMTranslator/Lib/CodeWriter.swift:288-290 | appends `@address` and changes nothing else |
| CodeWriting.CodeWriter.LabelCommand | VMTranslator/Sources/VMTranslator/Lib/CodeWriter.swift:292-294 | appends `(name)` and changes nothing else |
| CodeWriting.CodeWriter.CreateNewLabel | VMTranslator/Sources/VMTranslator/Lib/CodeWriter.swift:296-300 | returns `name_count` with the incremented counter |
| CodeWriting.LabelNameInjective | VMTranslator/Sources/VMTranslator/Lib/CodeWriter.swift:296-300 | a label determines both its name and its counter value |
| HackMachine.ArithmeticListing | VMTranslator/Sources/VMTranslator/Lib/CodeWriter.swift:95-120 | a mnemonic has generated code exactly when it has a machine program, and then the code is that program's listing |
| HackMachine.BinaryListing | VMTranslator/Sources/VMTranslator/Lib/CodeWriter.swift:171-187 | the binary template's code is, line for line, the listing of its machine program |
| HackMachine.UnaryListing | VMTranslator/Sources/VMTranslator/Lib/CodeWriter.swift:157-169 | the unary template's code is, line for line, the listing of its machine program |
| HackMachine.CompareListing | VMTranslator/Sources/VMTranslator/Lib/CodeWriter.swift:189-220 | the compare template's code is, line for line, the listing of its machine program |
| HackMachine.PopOperandsFlow | VMTranslator/Sources/VMTranslator/Lib/CodeWriter.swift:173-178 | run straight through, the operand pops put Y in D and X's value in A, and leave SP pointing at X's cell |
| HackMachine.BinaryRun | VMTranslator/Sources/VMTranslator/Lib/CodeWriter.swift:171-187 | 16 steps of `add`, `sub`, `and` or `or` put the VM result of X and Y (16-bit wrap-around, bitwise and/or) in X's cell, leave SP just above it, and move past the template |
| HackMachine.UnaryRun | VMTranslator/Sources/VMTranslator/Lib/CodeWriter.swift:157-169 | 11 steps of `neg` or `not` replace Y by its negation or complement, leave SP where it was, and move past the template |
| HackMachine.CompareRun | VMTranslator/Sources/VMTranslator/Lib/CodeWriter.swift:189-220 | the comparison as written tests `Y - X`, stores 1 or 0 in X's cell and leaves SP three cells lower, in 20 steps when the test passes and 21 when it fails |
| HackMachine.IntendedCompareRun | VMTranslator/Sources/VMTranslator/Lib/CodeWriter.swift:189-220 | the corrected comparison tests `X - Y`, stores -1 or 0 in X's cell and leaves SP just above it |
| HackMachine.CompareJumpVerdict | VMTranslator/Sources/VMTranslator/Lib/CodeWriter.swift:111-116 | while the signed difference does not overflow, JEQ, JGT and JLT on `X - Y` decide `eq`, `gt` and `lt` of X and Y |
| HackMachine.CompareAsWrittenGreaterThan | VMTranslator/Sources/VMTranslator/Lib/CodeWriter.swift:189-220 | `gt` with X = 1 and Y = 2 stores 1 (true) and drops SP from 258 to 255 |
| HackMachine.IntendedCompareGreaterThan | VMTranslator/Sources/VMTranslator/Lib/CodeWriter.swift:189-220 | the corrected `gt` with X = 1 and Y = 2 stores 0 (false) and leaves SP at 257 |
| HackMachine.RunSplit | VMTranslator/Sources/VMTranslator/Lib/CodeWriter.swift:189-220 | running i and then j steps is running i + j steps |
| HackMachine.RunFlow | VMTranslator/Sources/VMTranslator/Lib/CodeWriter.swift:157-220 | a block without jumps, placed in a program at the counter, runs as its straight-line execution says |
| Translation.LastPathComponent | VMTranslator/Sources/VMTranslator/VMTranslator.swift:205-212 | the last component of a path holds no slash |
| Translation.VMFileOutputName | VMTranslator/Sources/VMTranslator/VMTranslator.swift:201-212 | a file is a VM file exactly when its last component ends in `.vm` after at least one character, and then its output is that name with `.vm` replaced by `.asm` |
| Translation.StepByKind | VMTranslator/Sources/VMTranslator/VMTranslator.swift:86-120 | push and pop always lack their arguments; the other non-arithmetic commands are reported as not implemented; an arithmetic command is translated and fails only when no file is selected |
| Translation.RunKeepsOutput | VMTranslator/Sources/VMTranslator/VMTranslator.swift:85-127 | with a file selected, a whole run keeps the file, only extends what was written, and reports only missing arguments and unimplemented commands |
| Translation.TranslateFile | VMTranslator/Sources/VMTranslator/VMTranslator.swift:62-130 | an unreadable file is reported and nothing changes; otherwise the output file is selected, every line is translated in order and the file is reported as done |
| Translation.TranslateCommands | VMTranslator/Sources/VMTranslator/VMTranslator.swift:85-127 | the writer's state and the reports are those of the loop body folded over every line |
| Translation.TranslateAndAdvance | VMTranslator/Sources/VMTranslator/VMTranslator.swift:86-126 | one turn of the loop: the fold is extended to the next command, or to the end when there is none |
| Translation.TranslateCurrentLine | VMTranslator/Sources/VMTranslator/VMTranslator.swift:86-120 | the current line is handled as the loop body's specification says |
| AssemblyLine.Classify | 06/Assembler/Sources/Assembler/Lib/Parser.swift:133-153 | pseudo when the line is `(…)`, else address when it starts with `@`, else compute when an `=` or `;` sits strictly inside, else nothing |
| AssemblyLine.Line.CleanLine | 06/Assembler/Sources/Assembler/Lib/Parser.swift:127-131 | the cleaned line holds no whitespace |
| AssemblyLine.Line.Comp | 06/Assembler/Sources/Assembler/Lib/Parser.swift:166-188 | empty for anything but a C-command, never empty for one |
| AssemblyLine.Line.Jump | 06/Assembler/Sources/Assembler/Lib/Parser.swift:191-201 | empty for anything but a C-command, and made of word characters |
| AssemblyLine.Line.Dest | 06/Assembler/Sources/Assembler/Lib/Parser.swift:204-214 | empty for anything but a C-command, and made of word characters |
| AssemblyLine.Line.Symbol | 06/Assembler/Sources/Assembler/Lib/Parser.swift:217-238 | empty for C-commands and non-commands, without `@` for an A-command, and the text inside the parentheses for a label |
| AssemblyLine.CCommandFields | 06/Assembler/Sources/Assembler/Lib/Parser.swift:166-214 | writing `dest=comp;jump` with any field left out and reading it back returns the dest, the jump and the comp field; the as-written comp glues the dest on when both dest and jump are present |
| AssemblyLine.CompGluesDestWhenJumpPresent | 06/Assembler/Sources/Assembler/Lib/Parser.swift:166-188 | `comp()` of `D=M;JGT` is `D=M`, where the intended field is `M` |
| AssemblyLine.PseudoSymbol | 06/Assembler/Sources/Assembler/Lib/Parser.swift:226-236 | `(NAME)` is a label whose symbol is `NAME` |
| AssemblyLine.AddressSymbol | 06/Assembler/Sources/Assembler/Lib/Parser.swift:223-224 | `@sym` is an A-command whose symbol is `sym` |
| AssemblyParser.Lines | 06/Assembler/Sources/Assembler/Lib/Parser.swift:37-39 | each input string becomes the `Line` at the same position |
| AssemblyParser.Parser.constructor | 06/Assembler/Sources/Assembler/Lib/Parser.swift:37-47 | the cursor starts on the first command, or on line 0 |
| AssemblyParser.Parser.HasMoreCommands | 06/Assembler/Sources/Assembler/Lib/Parser.swift:57-59 | true exactly when some later line is a command |
| AssemblyParser.Parser.Advance | 06/Assembler/Sources/Assembler/Lib/Parser.swift:62-71 | the cursor moves forward onto a command, and every line it passes is not a command |
| Code.Dest | Assembler/Sources/Assembler/Lib/Code.swift:67-73 | three binary digits, `000` for an unknown mnemonic |
| Code.Jump | Assembler/Sources/Assembler/Lib/Code.swift:83-89 | three binary digits, `000` for an unknown mnemonic |
| Code.Comp | Assembler/Sources/Assembler/Lib/Code.swift:75-81 | seven binary digits, the code of `0` for an unknown mnemonic |
| Code.DestBitsNameRegisters | Assembler/Sources/Assembler/Lib/Code.swift:13-21 | each dest bit is set exactly when the mnemonic names A, D or M respectively |
| Code.JumpBitsMatchConditions | Assembler/Sources/Assembler/Lib/Code.swift:23-31 | each jump bit is set exactly when the mnemonic jumps on a negative, a zero or a positive value respectively |
| Code.CompABitSelectsMemory | Assembler/Sources/Assembler/Lib/Code.swift:33-65 | the `a` bit is set exactly for the computations that read M |
| Code.Address | Assembler/Sources/Assembler/Lib/Code.swift:91-95 | the address field is always 15 characters |
| Code.AddressValue | Assembler/Sources/Assembler/Lib/Code.swift:91-95 | for a non-negative address the field is binary and denotes the address modulo 2^15 |
| Code.AddressRoundTrip | Assembler/Sources/Assembler/Lib/Code.swift:91-95 | an address below 2^15 reads back as itself |
| SymbolTables.SymbolTable.Predefined | 06/Assembler/Sources/Assembler/Lib/SymbolTable.swift:15-30 | the pre-seeded table, built by the register loop |
| SymbolTables.SeededContents | 06/Assembler/Sources/Assembler/Lib/SymbolTable.swift:25-30 | after each round of the loop the registers so far map to their numbers, the predefined symbols keep theirs, and nothing else is present |
| SymbolTables.InitialSymbolsContents | 06/Assembler/Sources/Assembler/Lib/SymbolTable.swift:15-30 | a fresh table maps SP…THAT to 0…4, SCREEN to 16384, KBD to 24576 and R0…R15 to 0…15, and holds nothing else |
| SymbolTables.RegisterNamesDiffer | 06/Assembler/Sources/Assembler/Lib/SymbolTable.swift:28 | different registers have different names |
| SymbolTables.SymbolTable.Empty | 06/Assembler/Assembler/Lib/SymbolTable.swift:14 | a fresh table of the earlier revision holds no symbol |
| SymbolTables.SymbolTable.AddEntry | 06/Assembler/Assembler/Lib/SymbolTable.swift:16-18 | the symbol maps to the address, replacing any earlier one |
| SymbolTables.AddEntryEffect | 06/Assembler/Sources/Assembler/Lib/SymbolTable.swift:32-34 | after adding, the symbol maps to the address, and every other symbol keeps its entry or its absence |
| SymbolTables.SymbolTable.GetAddress | 06/Assembler/Sources/Assembler/Lib/SymbolTable.swift:44-46 | an address exactly when the symbol is present, and then the one recorded |
| SymbolTables.SymbolTable.Contains | 06/Assembler/Assembler/Lib/SymbolTable.swift:20-26 | true exactly when `getAddress` finds an address |
| AssemblerPasses.Instruction.DebugPrint | Assembler/Sources/Assembler/Assembler.swift:26-28 | the bits padded with spaces to 18 characters, then ` (`, the command and `)` |
| AssemblerPasses.AInstruction | Assembler/Sources/Assembler/Assembler.swift:184 | 16 characters: `0`, then the address field |
| AssemblerPasses.CInstruction | Assembler/Sources/Assembler/Assembler.swift:196-199 | 16 characters: `111`, then the codes of `comp()`, `dest()` and `jump()` as the parser returns them, in bits 3-9, 10-12 and 13-15 |
| AssemblerPasses.IntendedCInstruction | Assembler/Sources/Assembler/Assembler.swift:196-199 | the same layout with the comp field the Hack syntax defines |
| AssemblerPasses.IntendedCInstructionEncodesFields | Assembler/Sources/Assembler/Assembler.swift:196-199 | for every well-formed `dest=comp;jump`, the intended instruction is `111` and the codes of exactly the comp, dest and jump written |
| AssemblerPasses.CInstructionAsWritten | Assembler/Sources/Assembler/Assembler.swift:196-199 | the program's instruction is the intended one when the dest or the jump is missing; with both, its comp bits are those of `0` |
| AssemblerPasses.GluedCompInstruction | 06/Assembler/Assembler/Assembler.swift:184-187 | `D=M;JGT` assembles with the comp bits of `0`, whose `a` bit is clear |
| AssemblerPasses.IntendedGluedInstruction | Assembler/Sources/Assembler/Assembler.swift:196-199 | the intended encoding of `D=M;JGT` has the comp bits of `M`, with the `a` bit set |
| AssemblerPasses.FirstRunCounts | Assembler/Sources/Assembler/Assembler.swift:117-127 | the ROM address after the first pass is the number of A- and C-commands |
| AssemblerPasses.FirstRunLabels | Assembler/Sources/Assembler/Assembler.swift:113-139 | a label maps to the number of instructions before its last declaration; any other name keeps its entry or absence |
| AssemblerPasses.FirstPass | Assembler/Sources/Assembler/Assembler.swift:113-139 | the table afterwards is the first-pass fold over the lines |
| AssemblerPasses.FirstPassTurn | 06/Assembler/Assembler/Assembler.swift:110-128 | one turn of the loop: the fold is extended to the next command, or to the end when there is none |
| AssemblerPasses.SecondPass | Assembler/Sources/Assembler/Assembler.swift:141-220 | the output is the second-pass fold over the lines, starting from a copy of the first pass's table and RAM address 16; the given table is not changed |
| AssemblerPasses.SecondPassTurn | 06/Assembler/Assembler/Assembler.swift:143-205 | one turn of the loop: the fold is extended to the next command, or to the end when there is none |
| AssemblerPasses.EncodeCurrentCommand | Assembler/Sources/Assembler/Assembler.swift:156-209 | the current command is handled as the loop body's specification says, with C-commands encoded from `comp()`, `dest()` and `jump()` as written |
| AssemblerPasses.SecondRunOutput | Assembler/Sources/Assembler/Assembler.swift:155-217 | one instruction per A- or C-command, in source order, each carrying its cleaned command; labels and other lines add nothing |
| AssemblerPasses.SecondRunWidth | Assembler/Sources/Assembler/Assembler.swift:184-199 | every emitted instruction has 16 characters |
| AssemblerPasses.NewSymbols | 06/Assembler/Assembler/Assembler.swift:159-166 | the variables are distinct, not numbers and not in the starting table |
| AssemblerPasses.NewSymbolsAreTheVariables | 06/Assembler/Assembler/Assembler.swift:150-166 | a name is a variable exactly when some A-command uses it, it is not a number, and it is not in the starting table |
| AssemblerPasses.Allocated | 06/Assembler/Assembler/Assembler.swift:140-166 | the i-th variable gets the base plus i, and every other entry is kept |
| AssemblerPasses.SecondRunAllocates | Assembler/Sources/Assembler/Assembler.swift:152-178 | the final table is the starting one plus the variables at consecutive addresses in order of first use, and the next free address has moved past them |
| AssemblerPasses.SecondRunExtends | Assembler/Sources/Assembler/Assembler.swift:169-178 | the second pass never changes or removes an entry it started with |
| AssemblerPasses.StepEncodes | Assembler/Sources/Assembler/Assembler.swift:159-199 | an instruction's encoding is `0` plus the number, the table entry or the newly allocated address, or the C-instruction bits |
| AssemblerPasses.SecondRunEncodes | Assembler/Sources/Assembler/Assembler.swift:155-217 | every emitted instruction is its command's encoding against the final table, so later uses of a variable reuse its address |
| AssemblerPasses.EncodingKept | Assembler/Sources/Assembler/Assembler.swift:169-170 | a growing table does not change an encoding already resolved |
| AssemblerPasses.TransformForOutput | Assembler/Sources/Assembler/Assembler.swift:222-230 | length and order are kept; each entry is the bits, or the debugging line when debugging |
| AssemblerPasses.AssembledProgram | Assembler/Sources/Assembler/Assembler.swift:100-111 | the program has one 16-character word per A- or C-command, in order, each the encoding of its command against the final table |
| AssemblerPasses.AssembledDebug | Assembler/Sources/Assembler/Assembler.swift:222-230 | with debugging, line k is the debugging form of word k with its command |
| AssemblerPasses.FinalTableContents | 06/Assembler/Assembler/Assembler.swift:105-166 | in the final table a label holds the instruction count before its last declaration, the n-th variable holds 16 + n, and other starting entries are kept |
| HackAssembler.Parse | Assembler/Sources/Assembler/Assembler.swift:100-111 | the output is that of the two passes from the pre-seeded table |
| LegacyAssembler.Parse | 06/Assembler/Assembler/Assembler.swift:92-103 | the output is that of the two passes from the empty table |
| LegacyAssembler.OptionFor | 06/Assembler/Assembler/Assembler.swift:16-21 | the option is `output` exactly for `o`, `unknown` for anything else |
| LegacyAssembler.GetOption | 06/Assembler/Assembler/Assembler.swift:68-70 | the option the text names, paired with the text |

## Left out

- File and console I/O are not modelled: reading input files, the
  `FileManager`/`FileHandle` writes, and the console messages and their
  colours. The output directory is a map from file name to lines. A
  failed write to the disk is not modelled; a flush without a selected
  file is.
- The command-line entry points are not modelled, because they only
  parse arguments and print: `staticMode` and `translateDirectory` of
  the VM translator; `staticMode` of both assembler drivers, which in the
  newer driver also reads the input through `fileIO.readInputFile`; and
  `parse(file:)` and `getInputLinesFromFile` of the earlier driver.
- `initializeVirtualRAMSegments` is called by both the single-file and the
  directory branch of the VM translator's entry point, but it is not
  defined in `CodeWriter`; it is not part of this model.
- `URL` handling in `getOutputFilename` is reduced to its string logic:
  - trailing slashes are dropped;
  - the last component is taken;
  - the text after the last dot that is not the first character is the
    extension.

  Path normalisation (`.`, `..`, `~`) is not modelled.
- Translation.TranslateFile: a failure of `setFileName` is not modelled.
  With the file system left out, selecting a file cannot fail.
- Translation.TranslateCurrentLine: the catch-all `catch` for other
  errors is not modelled, because the writer throws only its two error
  kinds. The call to `writePushPop` sits in a branch the model proves
  unreachable.
- Console text is reduced to a `Message` value per report. The
  multi-line text of the "not implemented" and set-up messages is not
  modelled.
- Regular expressions are treated as ASCII: `\s` is space, tab, newline,
  vertical tab, form feed and carriage return, and `\w` is ASCII letters,
  digits and `_`. Unicode whitespace and letters and `.` not matching
  line separators such as U+0085 are not modelled.
- Code.Address: the bits of a negative address are not proved. The model
  writes them as Swift does, a `-` and the binary digits, cut to 15
  characters, but states only the width for them.
- An empty input file is not modelled. The program's `Parser` reads the
  first line when it is created, which fails on an empty list. The
  constructors of both parsers, `AssemblerPasses.FirstPass`,
  `AssemblerPasses.SecondPass`, `HackAssembler.Parse`,
  `LegacyAssembler.Parse` and `Translation.TranslateFile` therefore
  require at least one line.
- The Hack machine runs only the arithmetic templates. The set-up code
  and the push and pop templates are modelled as text only. The machine
  has no screen or keyboard, and its program is a list of the generator's
  lines rather than assembled words.
- The translator keeps the compare template as written. The corrected
  template exists only as the machine program
  `HackMachine.IntendedCompare`.
- The two `SymbolTable` revisions are one class with two constructors,
  `Predefined` and `Empty`, because their `addEntry`, `contains` and
  `getAddress` are identical. Each revision's assembler creates its own
  table and hands it to the shared first pass.
- `SymbolTable` is a Swift struct. The copy that `secondPass` makes is a
  fresh object (`SymbolTable.Copy`), so the first pass's table is never
  changed through it.

## Findings

| source | as written | input that shows it | evidently intended | confidence | as-written member | corrected member |
|---|---|---|---|---|---|---|
| 06/Assembler/Sources/Assembler/Lib/Parser.swift:166-188 | `comp()` first takes everything before the last `;`, so with both a dest and a jump the dest stays attached; `Code.comp` then finds no entry and encodes `0` | `D=M;JGT`: `comp()` is `D=M` and the instruction is `1110101010010001` (computes `0`) instead of `1111110000010001` (computes `M`) | the comp field is the text after the first `=` (if any) up to the last `;` (if any) | high (not executed) | AssemblerPasses.GluedCompInstruction | AssemblerPasses.IntendedCInstructionEncodesFields |
| VMTranslator/Sources/VMTranslator/Lib/CodeWriter.swift:189-220 | `compare` tests `D-A` with Y in D and X in A, that is `Y - X`; it stores 1 for true; and it ends with `decrementSP`, so SP drops by three instead of one | `gt` with X = 1 and Y = 2 (cells 256 and 257, SP 258): the test passes, 1 lands in cell 256 and SP becomes 255 | test `X - Y` (`A-D`), store -1 for true, and end with `incrementSP`, leaving the result on top of the stack | high (not executed) | HackMachine.CompareAsWrittenGreaterThan | HackMachine.IntendedCompareRun |
