/**
 * The assembler's two passes over the source lines, shared by both
 * revisions: the first gives every label the ROM address of the instruction
 * that follows it, the second encodes each instruction, giving each
 * variable the next free RAM address from 16 upward.
 */
module AssemblerPasses {
  import opened Wrappers
  import opened Text
  import opened Utils
  import opened AssemblyLine
  import opened AssemblyParser
  import Code
  import opened SymbolTables
  import Cursor

  /** The first RAM address handed to a variable. */
  const RamAddressStart: int := 16

  /** An encoded instruction with the cleaned command it came from. */
  datatype Instruction = Instruction(asm: string, hack: string) {
    /** The instruction padded with spaces to 18 characters, then the command in parentheses. */
    function DebugPrint(): (r: string)
      ensures |r| == 18 + |asm| + 3
      ensures r[18..] == " (" + asm + ")"
      ensures |hack| <= 18 ==> r[..|hack|] == hack && forall i :: |hack| <= i < 18 ==> r[i] == ' '
    {
      var padded := RightPadding(hack, 18, ' ');
      assert |hack| <= 18 ==> padded[..|hack|] == hack && forall i :: |hack| <= i < 18 ==> padded[i] == ' ' by {
        if |hack| <= 18 {
          RightPaddingKeepsPrefix(hack, 18, ' ');
        }
      }
      assert (padded + " (" + asm + ")")[..18] == padded;
      padded + " (" + asm + ")"
    }
  }

  /** `"0" + address(...)`. */
  function AInstruction(address: int): (r: string)
    ensures |r| == 16 && r[0] == '0'
    ensures r[1..] == Code.Address(address)
  {
    "0" + Code.Address(address)
  }

  /** `"111" + comp + dest + jump`, encoding `comp()` as the parser returns it. */
  function CInstruction(line: Line): (r: string)
    ensures |r| == 16 && r[..3] == "111"
    ensures r[3..10] == Code.Comp(line.Comp())
    ensures r[10..13] == Code.Dest(line.Dest())
    ensures r[13..] == Code.Jump(line.Jump())
  {
    var comp, dest, jump := Code.Comp(line.Comp()), Code.Dest(line.Dest()), Code.Jump(line.Jump());
    FieldLayout(comp, dest, jump);
    "111" + comp + dest + jump
  }

  /** Where the three fields sit in a C-instruction. */
  lemma FieldLayout(comp: string, dest: string, jump: string)
    requires |comp| == 7 && |dest| == 3 && |jump| == 3
    ensures var r := "111" + comp + dest + jump;
      && |r| == 16 && r[..3] == "111" && r[3..10] == comp && r[10..13] == dest && r[13..] == jump
  {
  }

  /** The C-instruction with the comp field as the Hack syntax defines it. */
  function IntendedCInstruction(line: Line): (r: string)
    ensures |r| == 16 && r[..3] == "111"
    ensures r[3..10] == Code.Comp(line.CompField())
    ensures r[10..13] == Code.Dest(line.Dest())
    ensures r[13..] == Code.Jump(line.Jump())
  {
    var comp, dest, jump := Code.Comp(line.CompField()), Code.Dest(line.Dest()), Code.Jump(line.Jump());
    FieldLayout(comp, dest, jump);
    "111" + comp + dest + jump
  }

  /** The intended instruction of a written `dest=comp;jump` encodes exactly the three fields written. */
  lemma IntendedCInstructionEncodesFields(dest: string, comp: string, jump: string)
    requires WellFormedCCommand(dest, comp, jump)
    ensures IntendedCInstruction(Line(CCommandLine(dest, comp, jump)))
      == "111" + Code.Comp(comp) + Code.Dest(dest) + Code.Jump(jump)
  {
    CCommandFields(dest, comp, jump);
  }

  /**
   * The program's C-instruction is the intended one when the command lacks
   * a dest or a jump; with both, its comp bits are always those of `0`.
   */
  lemma CInstructionAsWritten(dest: string, comp: string, jump: string)
    requires WellFormedCCommand(dest, comp, jump)
    ensures dest == [] || jump == [] ==>
      CInstruction(Line(CCommandLine(dest, comp, jump))) == IntendedCInstruction(Line(CCommandLine(dest, comp, jump)))
    ensures dest != [] && jump != [] ==>
      CInstruction(Line(CCommandLine(dest, comp, jump))) == "111" + Code.Comp("0") + Code.Dest(dest) + Code.Jump(jump)
  {
    CCommandFields(dest, comp, jump);
    if dest != [] && jump != [] {
      var glued := dest + "=" + comp;
      assert glued[|dest|] == '=';
      NoKeyHasEquals(glued);
    }
  }

  /** No comp mnemonic holds an `=`, so a glued dest and comp falls back to the code of `0`. */
  lemma NoKeyHasEquals(s: string)
    requires '=' in s
    ensures s !in Code.CompMappings
  {
  }

  /**
   * `D=M;JGT` assembles with the comp bits of `0`, whose `a` bit selects the
   * A side, where the Hack syntax means `M`.
   */
  lemma GluedCompInstruction()
    ensures CInstruction(Line("D=M;JGT")) == "111" + Code.Comp("0") + Code.Dest("D") + Code.Jump("JGT")
    ensures CInstruction(Line("D=M;JGT"))[3] == '0'
  {
    assert WellFormedCCommand("D", "M", "JGT");
    assert CCommandLine("D", "M", "JGT") == "D=M;JGT";
    CInstructionAsWritten("D", "M", "JGT");
    Code.CompABitSelectsMemory("0");
  }

  /** The intended encoding of `D=M;JGT` reads M. */
  lemma IntendedGluedInstruction()
    ensures IntendedCInstruction(Line("D=M;JGT")) == "111" + Code.Comp("M") + Code.Dest("D") + Code.Jump("JGT")
    ensures IntendedCInstruction(Line("D=M;JGT"))[3] == '1'
  {
    assert WellFormedCCommand("D", "M", "JGT");
    assert CCommandLine("D", "M", "JGT") == "D=M;JGT";
    IntendedCInstructionEncodesFields("D", "M", "JGT");
    Code.CompABitSelectsMemory("M");
  }

  /** What the passes see of a line: the parser's command type with the symbol, cleaned text or C-instruction it needs. */
  datatype Command =
    | NoCommand
    | Label(name: string)
    | AddressCommand(symbol: string, asm: string)
    | ComputeCommand(asm: string, bits: string)

  function CommandOf(line: Line): (c: Command)
    ensures c.NoCommand? <==> !line.IsValidCommand()
    ensures c.Label? <==> line.CommandType() == Some(Pseudo)
    ensures c.AddressCommand? <==> line.CommandType() == Some(Address)
    ensures c.ComputeCommand? <==> line.CommandType() == Some(Compute)
    ensures c.ComputeCommand? ==> |c.bits| == 16
  {
    match line.CommandType()
    case None => NoCommand
    case Some(Pseudo) => Label(line.Symbol())
    case Some(Address) => AddressCommand(line.Symbol(), line.CleanLine())
    case Some(Compute) => ComputeCommand(line.CleanLine(), CInstruction(line))
  }

  function Commands(lines: seq<Line>): (commands: seq<Command>)
    ensures |commands| == |lines|
    ensures forall i :: 0 <= i < |lines| ==> commands[i] == CommandOf(lines[i])
  {
    seq(|lines|, i requires 0 <= i < |lines| => CommandOf(lines[i]))
  }

  /** Lines the cursor steps over are not commands. */
  lemma SkippedLines(lines: seq<Line>, i: int, j: nat)
    requires j <= |lines|
    requires forall k :: i < k < j && 0 <= k ==> !Validity(lines)[k]
    ensures forall k :: i < k < j && 0 <= k ==> Commands(lines)[k] == NoCommand
  {
    forall k | i < k < j && 0 <= k
      ensures Commands(lines)[k] == NoCommand
    {
      assert !Validity(lines)[k];
    }
  }

  /** The commands that become instructions: A- and C-commands. */
  predicate IsInstruction(c: Command) {
    c.AddressCommand? || c.ComputeCommand?
  }

  /** The commands that become instructions, in order. */
  function Instructions(commands: seq<Command>): (r: seq<Command>)
    ensures |r| <= |commands|
    ensures forall i :: 0 <= i < |r| ==> IsInstruction(r[i])
  {
    if commands == [] then []
    else
      var rest := Instructions(commands[..|commands| - 1]);
      if IsInstruction(commands[|commands| - 1]) then rest + [commands[|commands| - 1]] else rest
  }

  /** The last command that declares the label `name`. */
  function LastDeclaration(commands: seq<Command>, name: string): (r: Option<nat>)
    ensures r.Some? ==> r.value < |commands| && commands[r.value] == Label(name)
    ensures r.Some? ==> forall j :: r.value < j < |commands| ==> commands[j] != Label(name)
    ensures r.None? ==> forall j :: 0 <= j < |commands| ==> commands[j] != Label(name)
  {
    if commands == [] then None
    else if commands[|commands| - 1] == Label(name) then Some(|commands| - 1)
    else LastDeclaration(commands[..|commands| - 1], name)
  }

  // -----------------------------------------------------------------------
  // First pass

  datatype FirstState = FirstState(symbols: map<string, int>, nextROMAddress: int)

  /** The first pass's loop body: a label takes the current ROM address, an instruction moves it on. */
  function FirstStep(s: FirstState, c: Command): FirstState {
    match c
    case NoCommand => s
    case Label(name) => s.(symbols := s.symbols[name := s.nextROMAddress])
    case _ => s.(nextROMAddress := s.nextROMAddress + 1)
  }

  /** The first pass's loop body applied to every command in order. */
  function FirstRun(s: FirstState, commands: seq<Command>): FirstState {
    if commands == [] then s else FirstStep(FirstRun(s, commands[..|commands| - 1]), commands[|commands| - 1])
  }

  /** The ROM address after the first pass counts the instructions. */
  lemma {:induction false} FirstRunCounts(s: FirstState, commands: seq<Command>)
    ensures FirstRun(s, commands).nextROMAddress == s.nextROMAddress + |Instructions(commands)|
  {
    if commands != [] {
      FirstRunCounts(s, commands[..|commands| - 1]);
    }
  }

  /**
   * After the first pass a label maps to the number of instructions before
   * its last declaration; a name no line declares keeps its entry, or its
   * absence, from the table the pass started with.
   */
  lemma {:induction false} FirstRunLabels(s: FirstState, commands: seq<Command>, name: string)
    ensures LastDeclaration(commands, name).Some? ==>
      name in FirstRun(s, commands).symbols &&
      FirstRun(s, commands).symbols[name] == s.nextROMAddress + |Instructions(commands[..LastDeclaration(commands, name).value])|
    ensures LastDeclaration(commands, name).None? ==>
      (name in FirstRun(s, commands).symbols <==> name in s.symbols)
    ensures LastDeclaration(commands, name).None? && name in s.symbols ==>
      FirstRun(s, commands).symbols[name] == s.symbols[name]
  {
    if commands != [] {
      var prefix := commands[..|commands| - 1];
      if commands[|commands| - 1] == Label(name) {
        FirstRunCounts(s, prefix);
      } else {
        FirstRunLabels(s, prefix, name);
        match LastDeclaration(commands, name)
        case Some(k) =>
          assert commands[..k] == prefix[..k];
        case None =>
      }
    }
  }

  lemma {:induction false} FirstRunSkips(s: FirstState, commands: seq<Command>, i: nat, j: nat)
    requires i <= j <= |commands|
    requires forall k :: i <= k < j ==> commands[k] == NoCommand
    ensures FirstRun(s, commands[..j]) == FirstRun(s, commands[..i])
    decreases j
  {
    if i < j {
      FirstRunSkips(s, commands, i, j - 1);
      assert commands[..j][..j - 1] == commands[..j - 1];
    }
  }

  /** Handling command `i` and skipping the lines that are not commands after it, up to `j`. */
  lemma FirstRunAdvances(s: FirstState, commands: seq<Command>, i: nat, j: nat)
    requires i < j <= |commands|
    requires forall k :: i < k < j ==> commands[k] == NoCommand
    ensures FirstRun(s, commands[..j]) == FirstStep(FirstRun(s, commands[..i]), commands[i])
  {
    assert commands[..i + 1][..i] == commands[..i];
    FirstRunSkips(s, commands, i + 1, j);
  }

  // -----------------------------------------------------------------------
  // Second pass

  datatype SecondState = SecondState(symbols: map<string, int>, nextFreeRAMAddress: int, output: seq<Instruction>)

  /**
   * The second pass's loop body: an A-command takes its number, its entry
   * in the table or, for a new variable, the next free RAM address, which
   * is recorded; a C-command is encoded field by field.
   */
  function SecondStep(s: SecondState, c: Command): SecondState {
    match c
    case AddressCommand(symbol, asm) =>
      (match ParseInt(symbol)
       case Some(value) =>
         s.(output := s.output + [Instruction(asm, AInstruction(value))])
       case None =>
         if symbol in s.symbols then
           s.(output := s.output + [Instruction(asm, AInstruction(s.symbols[symbol]))])
         else
           SecondState(s.symbols[symbol := s.nextFreeRAMAddress], s.nextFreeRAMAddress + 1,
                       s.output + [Instruction(asm, AInstruction(s.nextFreeRAMAddress))]))
    case ComputeCommand(asm, bits) =>
      s.(output := s.output + [Instruction(asm, bits)])
    case _ => s
  }

  /** The second pass's loop body applied to every command in order. */
  function SecondRun(s: SecondState, commands: seq<Command>): SecondState {
    if commands == [] then s else SecondStep(SecondRun(s, commands[..|commands| - 1]), commands[|commands| - 1])
  }

  lemma {:induction false} SecondRunSkips(s: SecondState, commands: seq<Command>, i: nat, j: nat)
    requires i <= j <= |commands|
    requires forall k :: i <= k < j ==> commands[k] == NoCommand
    ensures SecondRun(s, commands[..j]) == SecondRun(s, commands[..i])
    decreases j
  {
    if i < j {
      SecondRunSkips(s, commands, i, j - 1);
      assert commands[..j][..j - 1] == commands[..j - 1];
    }
  }

  /** Handling command `i` and skipping the lines that are not commands after it, up to `j`. */
  lemma SecondRunAdvances(s: SecondState, commands: seq<Command>, i: nat, j: nat)
    requires i < j <= |commands|
    requires forall k :: i < k < j ==> commands[k] == NoCommand
    ensures SecondRun(s, commands[..j]) == SecondStep(SecondRun(s, commands[..i]), commands[i])
  {
    assert commands[..i + 1][..i] == commands[..i];
    SecondRunSkips(s, commands, i + 1, j);
  }

  /** Every command that is an instruction adds one instruction with its text, in order; nothing else does. */
  lemma {:induction false} SecondRunOutput(s: SecondState, commands: seq<Command>)
    ensures |SecondRun(s, commands).output| == |s.output| + |Instructions(commands)|
    ensures SecondRun(s, commands).output[..|s.output|] == s.output
    ensures forall k :: 0 <= k < |Instructions(commands)| ==>
      SecondRun(s, commands).output[|s.output| + k].asm == Instructions(commands)[k].asm
  {
    if commands != [] {
      var prefix, c := commands[..|commands| - 1], commands[|commands| - 1];
      SecondRunOutput(s, prefix);
      var before := SecondRun(s, prefix);
      var after := SecondRun(s, commands);
      assert after == SecondStep(before, c);
      assert after.output[..|before.output|] == before.output;
      assert after.output[..|s.output|] == before.output[..|s.output|];
      if IsInstruction(c) {
        assert Instructions(commands) == Instructions(prefix) + [c];
        assert after.output[|before.output|].asm == c.asm;
      }
    }
  }

  /** Both kinds of instruction are 16 bits wide. */
  lemma {:induction false} SecondRunWidth(s: SecondState, commands: seq<Command>)
    requires forall i :: 0 <= i < |s.output| ==> |s.output[i].hack| == 16
    requires forall k :: 0 <= k < |commands| && commands[k].ComputeCommand? ==> |commands[k].bits| == 16
    ensures forall i :: 0 <= i < |SecondRun(s, commands).output| ==> |SecondRun(s, commands).output[i].hack| == 16
  {
    if commands != [] {
      SecondRunWidth(s, commands[..|commands| - 1]);
    }
  }

  // Variables

  /** The variables of the commands: symbols that are not numbers and not in `symbols`, in order of first use. */
  function NewSymbols(symbols: map<string, int>, commands: seq<Command>): (names: seq<string>)
    ensures forall i :: 0 <= i < |names| ==> names[i] !in symbols && ParseInt(names[i]).None?
    ensures forall i, j :: 0 <= i < j < |names| ==> names[i] != names[j]
  {
    if commands == [] then []
    else
      var earlier := NewSymbols(symbols, commands[..|commands| - 1]);
      var c := commands[|commands| - 1];
      if c.AddressCommand? && ParseInt(c.symbol).None? && c.symbol !in symbols && c.symbol !in earlier then
        earlier + [c.symbol]
      else
        earlier
  }

  /** Every symbolic A-command whose symbol is not in `symbols` names a variable, and every variable is such a symbol. */
  lemma {:induction false} NewSymbolsAreTheVariables(symbols: map<string, int>, commands: seq<Command>, name: string)
    ensures name in NewSymbols(symbols, commands) <==>
      name !in symbols && ParseInt(name).None? &&
      exists k :: 0 <= k < |commands| && commands[k].AddressCommand? && commands[k].symbol == name
  {
    if commands != [] {
      var prefix := commands[..|commands| - 1];
      NewSymbolsAreTheVariables(symbols, prefix, name);
      if exists k :: 0 <= k < |commands| && commands[k].AddressCommand? && commands[k].symbol == name {
        var k :| 0 <= k < |commands| && commands[k].AddressCommand? && commands[k].symbol == name;
        if k < |prefix| {
          assert prefix[k] == commands[k];
        }
      }
    }
  }

  /** `names[i]` gets the address `base + i`, each replacing any earlier entry. */
  function Allocate(symbols: map<string, int>, names: seq<string>, base: int): map<string, int> {
    if names == [] then symbols
    else Allocate(symbols, names[..|names| - 1], base)[names[|names| - 1] := base + |names| - 1]
  }

  /** Distinct names get consecutive addresses from `base`; every other entry is kept. */
  lemma {:induction false} Allocated(symbols: map<string, int>, names: seq<string>, base: int)
    requires forall i, j :: 0 <= i < j < |names| ==> names[i] != names[j]
    ensures forall i :: 0 <= i < |names| ==> names[i] in Allocate(symbols, names, base) && Allocate(symbols, names, base)[names[i]] == base + i
    ensures forall key :: key !in names ==> (key in Allocate(symbols, names, base) <==> key in symbols)
    ensures forall key :: key !in names && key in symbols ==> Allocate(symbols, names, base)[key] == symbols[key]
  {
    if names != [] {
      var prefix := names[..|names| - 1];
      Allocated(symbols, prefix, base);
      forall key | key in prefix
        ensures key in names
      {
        var i :| 0 <= i < |prefix| && prefix[i] == key;
        assert names[i] == key;
      }
    }
  }

  /**
   * The table after the second pass is the one it started with plus the
   * variables at consecutive addresses from where it started, in order of
   * first use, and the next free address has moved past them.
   */
  lemma {:induction false} SecondRunAllocates(s: SecondState, commands: seq<Command>)
    ensures SecondRun(s, commands).symbols == Allocate(s.symbols, NewSymbols(s.symbols, commands), s.nextFreeRAMAddress)
    ensures SecondRun(s, commands).nextFreeRAMAddress == s.nextFreeRAMAddress + |NewSymbols(s.symbols, commands)|
  {
    if commands != [] {
      var prefix, c := commands[..|commands| - 1], commands[|commands| - 1];
      SecondRunAllocates(s, prefix);
      var earlier := NewSymbols(s.symbols, prefix);
      if c.AddressCommand? {
        AllocateKeys(s.symbols, earlier, s.nextFreeRAMAddress, c.symbol);
        if ParseInt(c.symbol).None? && c.symbol !in s.symbols && c.symbol !in earlier {
          assert (earlier + [c.symbol])[..|earlier|] == earlier;
        }
      }
    }
  }

  lemma {:induction false} AllocateKeys(symbols: map<string, int>, names: seq<string>, base: int, key: string)
    ensures key in Allocate(symbols, names, base) <==> key in symbols || key in names
  {
    if names != [] {
      var prefix := names[..|names| - 1];
      AllocateKeys(symbols, prefix, base, key);
      assert names == prefix + [names[|names| - 1]];
    }
  }

  // Encoding

  /** Whether a command's address can be found: it is a number or its symbol is in the table. */
  predicate Resolves(c: Command, symbols: map<string, int>) {
    c.AddressCommand? && ParseInt(c.symbol).None? ==> c.symbol in symbols
  }

  /** The encoding of an instruction against a finished table. */
  function Encoding(c: Command, symbols: map<string, int>): string
    requires IsInstruction(c) && Resolves(c, symbols)
  {
    match c
    case AddressCommand(symbol, _) =>
      AInstruction(match ParseInt(symbol) case Some(value) => value case None => symbols[symbol])
    case ComputeCommand(_, bits) => bits
  }

  /** `bigger` has every entry of `smaller`, with the same address. */
  predicate Extends(bigger: map<string, int>, smaller: map<string, int>) {
    forall key :: key in smaller ==> key in bigger && bigger[key] == smaller[key]
  }

  lemma {:induction false} SecondRunExtends(s: SecondState, commands: seq<Command>)
    ensures Extends(SecondRun(s, commands).symbols, s.symbols)
  {
    if commands != [] {
      SecondRunExtends(s, commands[..|commands| - 1]);
    }
  }

  /** The last instruction a step adds is its command's encoding against the table after the step. */
  lemma StepEncodes(s: SecondState, c: Command)
    requires IsInstruction(c)
    ensures Resolves(c, SecondStep(s, c).symbols)
    ensures |SecondStep(s, c).output| == |s.output| + 1
    ensures SecondStep(s, c).output[|s.output|].hack == Encoding(c, SecondStep(s, c).symbols)
  {
  }

  /**
   * Every instruction the second pass emits is its command's encoding
   * against the final table: a variable's later uses get the address its
   * first use was given, and every symbol used has an entry by the end.
   */
  lemma {:induction false} SecondRunEncodes(s: SecondState, commands: seq<Command>)
    ensures forall k :: 0 <= k < |Instructions(commands)| ==>
      Resolves(Instructions(commands)[k], SecondRun(s, commands).symbols)
    ensures |SecondRun(s, commands).output| == |s.output| + |Instructions(commands)|
    ensures forall k :: 0 <= k < |Instructions(commands)| ==>
      SecondRun(s, commands).output[|s.output| + k].hack == Encoding(Instructions(commands)[k], SecondRun(s, commands).symbols)
  {
    SecondRunOutput(s, commands);
    if commands != [] {
      var prefix, c := commands[..|commands| - 1], commands[|commands| - 1];
      SecondRunEncodes(s, prefix);
      var before := SecondRun(s, prefix);
      var after := SecondStep(before, c);
      assert after == SecondRun(s, commands);
      SecondRunExtends(before, [c]);
      assert SecondRun(before, [c]) == after by {
        assert [c][..0] == [];
      }
      assert after.output[..|before.output|] == before.output;
      var instructions := Instructions(prefix);
      forall k | 0 <= k < |instructions|
        ensures Resolves(instructions[k], after.symbols)
        ensures after.output[|s.output| + k].hack == Encoding(instructions[k], after.symbols)
      {
        EncodingKept(instructions[k], before.symbols, after.symbols);
        assert after.output[|s.output| + k] == before.output[|s.output| + k];
      }
      if IsInstruction(c) {
        assert Instructions(commands) == instructions + [c];
        StepEncodes(before, c);
      }
    }
  }

  /** A growing table does not change an encoding already resolved. */
  lemma EncodingKept(c: Command, smaller: map<string, int>, bigger: map<string, int>)
    requires IsInstruction(c) && Resolves(c, smaller) && Extends(bigger, smaller)
    ensures Resolves(c, bigger) && Encoding(c, bigger) == Encoding(c, smaller)
  {
  }

  lemma WholePrefix(commands: seq<Command>)
    ensures commands[..|commands|] == commands
  {
  }

  // -----------------------------------------------------------------------
  // The passes

  /** Lines before the cursor's starting line are not commands, so both passes start with nothing done. */
  lemma StartSkipsNonCommands(lines: seq<Line>, first: FirstState, second: SecondState)
    requires |lines| > 0
    ensures FirstRun(first, Commands(lines)[..Cursor.StartIndex(Validity(lines))]) == first
    ensures SecondRun(second, Commands(lines)[..Cursor.StartIndex(Validity(lines))]) == second
  {
    var commands, start := Commands(lines), Cursor.StartIndex(Validity(lines));
    SkippedLines(lines, -1, start);
    FirstRunSkips(first, commands, 0, start);
    SecondRunSkips(second, commands, 0, start);
    assert commands[..0] == [];
  }

  /** `firstPass`: walk the commands, giving each label the address of the next instruction. */
  method FirstPass(inputLines: seq<string>, symbolTable: SymbolTable)
    requires |inputLines| > 0
    modifies symbolTable
    ensures symbolTable.symbols == FirstRun(FirstState(old(symbolTable.symbols), 0), Commands(Lines(inputLines))).symbols
  {
    var parser := new Parser(inputLines);
    ghost var commands := Commands(parser.lines);
    ghost var start := FirstState(symbolTable.symbols, 0);
    StartSkipsNonCommands(parser.lines, start, SecondState(map[], 0, []));
    var nextROMAddress := 0;
    var more := true;
    while more
      invariant parser.Valid()
      invariant more ==> FirstState(symbolTable.symbols, nextROMAddress) == FirstRun(start, commands[..parser.currentIndex])
      invariant !more ==> FirstState(symbolTable.symbols, nextROMAddress) == FirstRun(start, commands)
      decreases |commands| - parser.currentIndex, more
    {
      nextROMAddress, more := FirstPassTurn(parser, symbolTable, nextROMAddress, start);
    }
  }

  /** One turn of the first pass's loop: the current command, then the move to the next one if there is one. */
  method FirstPassTurn(parser: Parser, symbolTable: SymbolTable, nextROMAddress: int, ghost start: FirstState)
    returns (newROMAddress: int, more: bool)
    requires parser.Valid()
    requires FirstState(symbolTable.symbols, nextROMAddress) == FirstRun(start, Commands(parser.lines)[..parser.currentIndex])
    modifies parser, symbolTable
    ensures parser.Valid()
    ensures more ==> old(parser.currentIndex) < parser.currentIndex
    ensures !more ==> parser.currentIndex == old(parser.currentIndex)
    ensures more ==> FirstState(symbolTable.symbols, newROMAddress) == FirstRun(start, Commands(parser.lines)[..parser.currentIndex])
    ensures !more ==> FirstState(symbolTable.symbols, newROMAddress) == FirstRun(start, Commands(parser.lines))
  {
    ghost var commands, index := Commands(parser.lines), parser.currentIndex;
    newROMAddress := nextROMAddress;
    var commandType := parser.CommandType();
    if commandType.Some? {
      if commandType.value == Pseudo {
        symbolTable.AddEntry(parser.Symbol(), newROMAddress);
      } else {
        newROMAddress := newROMAddress + 1;
      }
    }
    assert FirstState(symbolTable.symbols, newROMAddress) == FirstStep(FirstRun(start, commands[..index]), commands[index]);
    if parser.HasMoreCommands() {
      parser.Advance();
      more := true;
      SkippedLines(parser.lines, index, parser.currentIndex);
      FirstRunAdvances(start, commands, index, parser.currentIndex);
    } else {
      more := false;
      SkippedLines(parser.lines, index, |parser.lines|);
      FirstRunAdvances(start, commands, index, |commands|);
      WholePrefix(commands);
    }
  }

  /**
   * `secondPass`: walk the commands with a copy of the first pass's table,
   * encoding each instruction and giving each new variable the next free
   * RAM address from 16.
   */
  method SecondPass(symbolTableWithPseudoCommands: SymbolTable, inputLines: seq<string>) returns (output: seq<Instruction>)
    requires |inputLines| > 0
    ensures output == SecondRun(SecondState(symbolTableWithPseudoCommands.symbols, RamAddressStart, []), Commands(Lines(inputLines))).output
  {
    var parser := new Parser(inputLines);
    output := [];
    var symbolTable := new SymbolTable.Copy(symbolTableWithPseudoCommands);
    var nextFreeRAMAddress := RamAddressStart;
    ghost var commands := Commands(parser.lines);
    ghost var start := SecondState(symbolTable.symbols, nextFreeRAMAddress, output);
    StartSkipsNonCommands(parser.lines, FirstState(map[], 0), start);
    var more := true;
    while more
      invariant parser.Valid() && fresh(symbolTable)
      invariant more ==> SecondState(symbolTable.symbols, nextFreeRAMAddress, output) == SecondRun(start, commands[..parser.currentIndex])
      invariant !more ==> SecondState(symbolTable.symbols, nextFreeRAMAddress, output) == SecondRun(start, commands)
      decreases |commands| - parser.currentIndex, more
    {
      nextFreeRAMAddress, output, more := SecondPassTurn(parser, symbolTable, nextFreeRAMAddress, output, start);
    }
  }

  /** One turn of the second pass's loop: the current command, then the move to the next one if there is one. */
  method SecondPassTurn(parser: Parser, symbolTable: SymbolTable, nextFreeRAMAddress: int, output: seq<Instruction>,
                        ghost start: SecondState)
    returns (newFreeRAMAddress: int, newOutput: seq<Instruction>, more: bool)
    requires parser.Valid()
    requires SecondState(symbolTable.symbols, nextFreeRAMAddress, output) == SecondRun(start, Commands(parser.lines)[..parser.currentIndex])
    modifies parser, symbolTable
    ensures parser.Valid()
    ensures more ==> old(parser.currentIndex) < parser.currentIndex
    ensures !more ==> parser.currentIndex == old(parser.currentIndex)
    ensures more ==> SecondState(symbolTable.symbols, newFreeRAMAddress, newOutput) == SecondRun(start, Commands(parser.lines)[..parser.currentIndex])
    ensures !more ==> SecondState(symbolTable.symbols, newFreeRAMAddress, newOutput) == SecondRun(start, Commands(parser.lines))
  {
    ghost var commands, index := Commands(parser.lines), parser.currentIndex;
    newFreeRAMAddress, newOutput := nextFreeRAMAddress, output;
    newFreeRAMAddress, newOutput := EncodeCurrentCommand(parser, symbolTable, newFreeRAMAddress, newOutput);
    if parser.HasMoreCommands() {
      parser.Advance();
      more := true;
      SkippedLines(parser.lines, index, parser.currentIndex);
      SecondRunAdvances(start, commands, index, parser.currentIndex);
    } else {
      more := false;
      SkippedLines(parser.lines, index, |parser.lines|);
      SecondRunAdvances(start, commands, index, |commands|);
      WholePrefix(commands);
    }
  }

  /** The body of the second pass's loop on the current command. */
  method EncodeCurrentCommand(parser: Parser, symbolTable: SymbolTable, nextFreeRAMAddress: int, output: seq<Instruction>)
    returns (newFreeRAMAddress: int, newOutput: seq<Instruction>)
    requires parser.Valid()
    modifies symbolTable
    ensures SecondState(symbolTable.symbols, newFreeRAMAddress, newOutput)
         == SecondStep(SecondState(old(symbolTable.symbols), nextFreeRAMAddress, output), CommandOf(parser.CurrentLine()))
  {
    newFreeRAMAddress, newOutput := nextFreeRAMAddress, output;
    var commandType := parser.CommandType();
    if commandType.Some? {
      if commandType.value == Address {
        var ramAddress: Option<int> := None;
        var addressValue := ParseInt(parser.Symbol());
        if addressValue.Some? {
          ramAddress := addressValue;
        } else {
          var retrievedAddress := symbolTable.GetAddress(parser.Symbol());
          if retrievedAddress.Some? {
            ramAddress := retrievedAddress;
          } else {
            ramAddress := Some(newFreeRAMAddress);
            symbolTable.AddEntry(parser.Symbol(), newFreeRAMAddress);
            newFreeRAMAddress := newFreeRAMAddress + 1;
          }
        }
        if ramAddress.Some? {
          var instruction := "0" + Code.Address(ramAddress.value);
          newOutput := newOutput + [Instruction(parser.CurrentCommand(), instruction)];
        }
      } else if commandType.value == Compute {
        var instruction := "111" + Code.Comp(parser.Comp()) + Code.Dest(parser.Dest()) + Code.Jump(parser.Jump());
        newOutput := newOutput + [Instruction(parser.CurrentCommand(), instruction)];
      }
    }
  }

  // -----------------------------------------------------------------------
  // Output

  /** `transformForOutput`: each instruction's bits, or its debugging line. */
  function TransformForOutput(outputList: seq<Instruction>, debug: bool): (r: seq<string>)
    ensures |r| == |outputList|
    ensures forall k :: 0 <= k < |outputList| ==> r[k] == if debug then outputList[k].DebugPrint() else outputList[k].hack
  {
    seq(|outputList|, k requires 0 <= k < |outputList| => if debug then outputList[k].DebugPrint() else outputList[k].hack)
  }

  /** The table after the first pass. */
  function LabelTable(seed: map<string, int>, commands: seq<Command>): map<string, int> {
    FirstRun(FirstState(seed, 0), commands).symbols
  }

  /** The table at the end of the second pass. */
  function FinalTable(seed: map<string, int>, commands: seq<Command>): map<string, int> {
    var labels := LabelTable(seed, commands);
    Allocate(labels, NewSymbols(labels, commands), RamAddressStart)
  }

  /** `parse(input:)` for a revision whose symbol table starts as `seed`. */
  function Assembled(seed: map<string, int>, inputLines: seq<string>, debug: bool): seq<string> {
    var commands := Commands(Lines(inputLines));
    TransformForOutput(SecondRun(SecondState(LabelTable(seed, commands), RamAddressStart, []), commands).output, debug)
  }

  /**
   * The assembled program: one 16-bit word per A- or C-command, in order,
   * each the encoding of its command against the final table.
   */
  lemma AssembledProgram(seed: map<string, int>, inputLines: seq<string>)
    ensures var commands := Commands(Lines(inputLines));
      |Assembled(seed, inputLines, false)| == |Instructions(commands)|
    ensures forall k :: 0 <= k < |Assembled(seed, inputLines, false)| ==> |Assembled(seed, inputLines, false)[k]| == 16
    ensures var commands := Commands(Lines(inputLines));
      forall k :: 0 <= k < |Instructions(commands)| ==>
        Resolves(Instructions(commands)[k], FinalTable(seed, commands)) &&
        Assembled(seed, inputLines, false)[k] == Encoding(Instructions(commands)[k], FinalTable(seed, commands))
  {
    var commands := Commands(Lines(inputLines));
    var start := SecondState(LabelTable(seed, commands), RamAddressStart, []);
    SecondRunEncodes(start, commands);
    SecondRunAllocates(start, commands);
    SecondRunWidth(start, commands);
  }

  /** With debugging on, each line is the same instruction's debugging form, with its command's text. */
  lemma AssembledDebug(seed: map<string, int>, inputLines: seq<string>)
    ensures |Assembled(seed, inputLines, true)| == |Assembled(seed, inputLines, false)|
    ensures |Assembled(seed, inputLines, true)| == |Instructions(Commands(Lines(inputLines)))|
    ensures var commands := Commands(Lines(inputLines));
      forall k :: 0 <= k < |Assembled(seed, inputLines, true)| ==>
        Assembled(seed, inputLines, true)[k] == Instruction(Instructions(commands)[k].asm, Assembled(seed, inputLines, false)[k]).DebugPrint()
  {
    var commands := Commands(Lines(inputLines));
    var start := SecondState(LabelTable(seed, commands), RamAddressStart, []);
    SecondRunOutput(start, commands);
    var out := SecondRun(start, commands).output;
    var withDebug, plain := Assembled(seed, inputLines, true), Assembled(seed, inputLines, false);
    assert withDebug == TransformForOutput(out, true) && plain == TransformForOutput(out, false);
    forall k | 0 <= k < |withDebug|
      ensures withDebug[k] == Instruction(Instructions(commands)[k].asm, plain[k]).DebugPrint()
    {
      assert out[0 + k].asm == Instructions(commands)[k].asm;
      assert out[k] == Instruction(Instructions(commands)[k].asm, plain[k]);
    }
  }

  /**
   * In the final table a label holds the number of instructions before its
   * last declaration, the n-th variable holds 16 + n, and every other entry
   * of the starting table is kept.
   */
  lemma FinalTableContents(seed: map<string, int>, commands: seq<Command>, name: string)
    ensures LastDeclaration(commands, name).Some? ==>
      name in FinalTable(seed, commands) &&
      FinalTable(seed, commands)[name] == |Instructions(commands[..LastDeclaration(commands, name).value])|
    ensures var variables := NewSymbols(LabelTable(seed, commands), commands);
      forall i :: 0 <= i < |variables| ==> variables[i] in FinalTable(seed, commands) && FinalTable(seed, commands)[variables[i]] == RamAddressStart + i
    ensures LastDeclaration(commands, name).None? && name in seed ==>
      name in FinalTable(seed, commands) && FinalTable(seed, commands)[name] == seed[name]
  {
    var labels := LabelTable(seed, commands);
    FirstRunLabels(FirstState(seed, 0), commands, name);
    Allocated(labels, NewSymbols(labels, commands), RamAddressStart);
  }
}
