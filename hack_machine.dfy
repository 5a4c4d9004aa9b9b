/**
 * A Hack computer that runs assembly listings: enough of the machine to say
 * what the code generator's arithmetic templates do to the VM stack. A
 * program is a sequence of instructions whose text is what the generator
 * writes; labels are resolved through a symbol table given to the machine.
 */
module HackMachine {
  import opened Wrappers
  import Code
  import CodeWriting

  /** A 16-bit Hack word, as its unsigned value. */
  type Word = w: int | 0 <= w < 0x1_0000

  /** A sum or difference of two words, wrapped around at 16 bits. */
  function Wrap(n: int): Word
    requires -0x1_0000 <= n < 0x2_0000
  {
    if n < 0 then n + 0x1_0000 else if n < 0x1_0000 then n else n - 0x1_0000
  }

  function Not(w: Word): Word {
    0xFFFF - w
  }

  function And(x: Word, y: Word): Word {
    ((x as bv16) & (y as bv16)) as int
  }

  function Or(x: Word, y: Word): Word {
    ((x as bv16) | (y as bv16)) as int
  }

  /** One assembly line, split into its parts. */
  datatype Instruction =
    | Load(symbol: string)                                               // `@symbol`
    | Compute(comp: string, dest: Option<string>, jump: Option<string>)  // `dest=comp;jump`
    | Mark(name: string)                                                 // `(label)`

  /** The line the generator writes for an instruction. */
  function Text(i: Instruction): string {
    match i
    case Load(symbol) => CodeWriting.ACommandText(symbol)
    case Compute(comp, dest, jump) => CodeWriting.CCommandText(comp, dest, jump)
    case Mark(name) => CodeWriting.LabelCommandText(name)
  }

  function Listing(p: seq<Instruction>): (r: seq<string>)
    ensures |r| == |p| && forall i :: 0 <= i < |p| ==> r[i] == Text(p[i])
  {
    seq(|p|, i requires 0 <= i < |p| => Text(p[i]))
  }

  lemma ListingAppend(p: seq<Instruction>, q: seq<Instruction>)
    ensures Listing(p + q) == Listing(p) + Listing(q)
  {
    assert forall i :: 0 <= i < |p + q| ==> Listing(p + q)[i] == (Listing(p) + Listing(q))[i];
  }

  // -----------------------------------------------------------------------
  // The machine

  /** The registers, the data memory and the program counter. */
  datatype Machine = Machine(a: Word, d: Word, ram: map<int, Word>, pc: nat)

  /** A memory cell never written holds 0. */
  function Read(ram: map<int, Word>, address: Word): Word {
    if address in ram then ram[address] else 0
  }

  function Write(ram: map<int, Word>, address: Word, value: Word): map<int, Word> {
    ram[address := value]
  }

  /** The two's-complement value of a word, which the jump conditions test. */
  function Signed(v: Word): (r: int)
    ensures -0x8000 <= r < 0x8000
    ensures r < 0 <==> v >= 0x8000
    ensures r == 0 <==> v == 0
  {
    if v < 0x8000 then v else v - 0x1_0000
  }

  /** What the ALU computes for each comp mnemonic; None for a mnemonic that is not one. */
  function Evaluate(comp: string, a: Word, d: Word, m: Word): Option<Word> {
    match comp
    case "0" => Some(0)
    case "1" => Some(1)
    case "-1" => Some(0xFFFF)
    case "D" => Some(d)
    case "A" => Some(a)
    case "!D" => Some(Not(d))
    case "!A" => Some(Not(a))
    case "-D" => Some(Wrap(0 - d as int))
    case "-A" => Some(Wrap(0 - a as int))
    case "D+1" => Some(Wrap(d + 1))
    case "A+1" => Some(Wrap(a + 1))
    case "D-1" => Some(Wrap(d - 1))
    case "A-1" => Some(Wrap(a - 1))
    case "D+A" => Some(Wrap(d + a))
    case "D-A" => Some(Wrap(d - a))
    case "A-D" => Some(Wrap(a - d))
    case "D&A" => Some(And(d, a))
    case "D|A" => Some(Or(d, a))
    case "M" => Some(m)
    case "!M" => Some(Not(m))
    case "-M" => Some(Wrap(0 - m as int))
    case "M+1" => Some(Wrap(m + 1))
    case "M-1" => Some(Wrap(m - 1))
    case "D+M" => Some(Wrap(d + m))
    case "D-M" => Some(Wrap(d - m))
    case "M-D" => Some(Wrap(m - d))
    case "D&M" => Some(And(d, m))
    case "D|M" => Some(Or(d, m))
    case _ => None
  }

  /**
   * One instruction, executed with the counter at `m.pc`. All reads see the
   * state before it: a store to M goes to the old A, and a jump goes to the
   * old A. An instruction the machine cannot execute (an unknown symbol,
   * comp or jump) leaves the state as it is.
   */
  function Exec(i: Instruction, symbols: map<string, Word>, m: Machine): Machine {
    match i
    case Mark(_) => m.(pc := m.pc + 1)
    case Load(symbol) =>
      if symbol in symbols then m.(a := symbols[symbol], pc := m.pc + 1) else m
    case Compute(comp, dest, jump) =>
      var value := Evaluate(comp, m.a, m.d, Read(m.ram, m.a));
      if value.None? || (jump.Some? && jump.value !in Code.JumpMappings) then m
      else
        var stores := if dest.Some? then dest.value else "";
        var jumps := jump.Some? && Code.JumpsOn(jump.value, Signed(value.value));
        Machine(
          if 'A' in stores then value.value else m.a,
          if 'D' in stores then value.value else m.d,
          if 'M' in stores then Write(m.ram, m.a, value.value) else m.ram,
          if jumps then m.a else m.pc + 1)
  }

  /** The instruction the counter points at. */
  function Step(p: seq<Instruction>, symbols: map<string, Word>, m: Machine): Machine
    requires m.pc < |p|
  {
    Exec(p[m.pc], symbols, m)
  }

  /**
   * At most `steps` instructions, stopping once the counter leaves the
   * program. Run is written in three layers (no step left; the counter
   * outside the program; one instruction and the rest) so that a proof sees
   * an instruction executed only where it unfolds a run on purpose, through
   * RunUnfold.
   */
  function Run(p: seq<Instruction>, symbols: map<string, Word>, m: Machine, steps: nat): Machine
    decreases steps, 2
  {
    if steps == 0 then m else RunInside(p, symbols, m, steps)
  }

  function RunInside(p: seq<Instruction>, symbols: map<string, Word>, m: Machine, steps: nat): Machine
    requires steps > 0
    decreases steps, 1
  {
    if m.pc >= |p| then m else RunOn(p, symbols, m, steps)
  }

  function RunOn(p: seq<Instruction>, symbols: map<string, Word>, m: Machine, steps: nat): Machine
    requires steps > 0 && m.pc < |p|
    decreases steps, 0
  {
    Run(p, symbols, Step(p, symbols, m), steps - 1)
  }

  /** A run is its first instruction followed by the rest of the run. */
  lemma RunUnfold(p: seq<Instruction>, symbols: map<string, Word>, m: Machine, steps: nat)
    ensures Run(p, symbols, m, steps)
      == if steps == 0 || m.pc >= |p| then m else Run(p, symbols, Step(p, symbols, m), steps - 1)
  {
    if steps != 0 {
      assert Run(p, symbols, m, steps) == RunInside(p, symbols, m, steps);
      if m.pc < |p| {
        assert RunInside(p, symbols, m, steps) == RunOn(p, symbols, m, steps);
      }
    }
  }

  lemma {:induction false} RunSplit(p: seq<Instruction>, symbols: map<string, Word>, m: Machine, i: nat, j: nat)
    ensures Run(p, symbols, m, i + j) == Run(p, symbols, Run(p, symbols, m, i), j)
    decreases i
  {
    RunUnfold(p, symbols, m, i + j);
    RunUnfold(p, symbols, m, i);
    if i != 0 && m.pc < |p| {
      RunSplit(p, symbols, Step(p, symbols, m), i - 1, j);
    } else if i != 0 {
      RunUnfold(p, symbols, m, j);
    }
  }

  /** `block` sits in `p` from position `k` on. */
  predicate Holds(p: seq<Instruction>, k: nat, block: seq<Instruction>) {
    k + |block| <= |p| && forall i :: 0 <= i < |block| ==> p[k + i] == block[i]
  }

  lemma HoldsSplit(p: seq<Instruction>, k: nat, front: seq<Instruction>, back: seq<Instruction>)
    requires Holds(p, k, front + back)
    ensures Holds(p, k, front) && Holds(p, k + |front|, back)
  {
    forall i | 0 <= i < |front|
      ensures p[k + i] == front[i]
    {
      assert p[k + i] == (front + back)[i];
    }
    forall i | 0 <= i < |back|
      ensures p[(k + |front|) + i] == back[i]
    {
      assert p[k + (|front| + i)] == (front + back)[|front| + i];
    }
  }

  /**
   * A block run straight through, one instruction after another; None when
   * an instruction does not hand over to the next one (it jumps or is stuck).
   */
  function Flow(block: seq<Instruction>, symbols: map<string, Word>, m: Machine): Option<Machine>
    decreases |block|
  {
    if block == [] then Some(m)
    else
      var next := Exec(block[0], symbols, m);
      if next.pc != m.pc + 1 then None else Flow(block[1..], symbols, next)
  }

  /** A block that runs straight through does, inside any program that holds it, what `Flow` says. */
  lemma {:induction false} RunFlow(p: seq<Instruction>, symbols: map<string, Word>, m: Machine, block: seq<Instruction>)
    requires Holds(p, m.pc, block) && Flow(block, symbols, m).Some?
    ensures Run(p, symbols, m, |block|) == Flow(block, symbols, m).value
    decreases |block|
  {
    RunUnfold(p, symbols, m, |block|);
    if block != [] {
      assert p[m.pc + 0] == block[0];
      var next := Exec(block[0], symbols, m);
      forall i | 0 <= i < |block[1..]|
        ensures p[next.pc + i] == block[1..][i]
      {
        assert p[m.pc + (1 + i)] == block[1 + i];
      }
      RunFlow(p, symbols, next, block[1..]);
    }
  }

  /** A run that stopped at `start`, followed by a block that runs straight through from there. */
  lemma RunThenFlow(p: seq<Instruction>, symbols: map<string, Word>, m: Machine, steps: nat,
                    start: Machine, block: seq<Instruction>, last: Machine)
    requires Run(p, symbols, m, steps) == start
    requires Holds(p, start.pc, block) && Flow(block, symbols, start) == Some(last)
    ensures Run(p, symbols, m, steps + |block|) == last
  {
    RunFlow(p, symbols, start, block);
    RunSplit(p, symbols, m, steps, |block|);
  }

  lemma {:induction false} FlowAppend(front: seq<Instruction>, back: seq<Instruction>, symbols: map<string, Word>, m: Machine)
    ensures Flow(front + back, symbols, m)
      == match Flow(front, symbols, m) case None => None case Some(m1) => Flow(back, symbols, m1)
    decreases |front|
  {
    if front == [] {
      assert front + back == back;
    } else {
      assert (front + back)[1..] == front[1..] + back;
      FlowAppend(front[1..], back, symbols, Exec(front[0], symbols, m));
    }
  }

  predicate StackPointerDefined(symbols: map<string, Word>) {
    "SP" in symbols && symbols["SP"] == 0
  }

  // -----------------------------------------------------------------------
  // The generator's templates as instructions

  function LoadSP(): seq<Instruction> {
    [Load("SP"), Compute("M", Some("A"), None)]
  }

  function IncrementSP(): seq<Instruction> {
    [Load("SP"), Compute("M+1", Some("M"), None)]
  }

  function DecrementSP(): seq<Instruction> {
    [Load("SP"), Compute("M-1", Some("M"), None)]
  }

  function StackTo(dest: string): seq<Instruction> {
    LoadSP() + [Compute("M", Some(dest), None)]
  }

  function CompToStack(comp: string): seq<Instruction> {
    LoadSP() + [Compute(comp, Some("M"), None)]
  }

  function PopOperands(): seq<Instruction> {
    DecrementSP() + StackTo("D") + DecrementSP() + StackTo("A")
  }

  function Binary(comp: string): seq<Instruction> {
    PopOperands() + [Compute(comp, Some("D"), None)] + CompToStack("D") + IncrementSP()
  }

  function Unary(comp: string): seq<Instruction> {
    DecrementSP() + StackTo("D") + [Compute(comp, Some("D"), None)] + CompToStack("D") + IncrementSP()
  }

  /** Both operands popped, their difference in D, the true label in A. */
  function CompareTest(difference: string, trueLabel: string): seq<Instruction> {
    PopOperands() + [Compute(difference, Some("D"), None), Load(trueLabel)]
  }

  function FalseArm(endLabel: string): seq<Instruction> {
    CompToStack("0") + [Load(endLabel)]
  }

  function TrueArm(trueLabel: string, truth: string): seq<Instruction> {
    [Mark(trueLabel)] + CompToStack(truth)
  }

  /**
   * The comparison template, with the difference it tests, the value it
   * stores for true and the stack-pointer update it ends with left open.
   */
  function CompareWith(difference: string, truth: string, finish: seq<Instruction>,
                       jump: string, trueLabel: string, endLabel: string): seq<Instruction> {
    CompareTest(difference, trueLabel) + [Compute("D", None, Some(jump))]
      + FalseArm(endLabel) + [Compute("0", None, Some("JMP"))]
      + TrueArm(trueLabel, truth) + ([Mark(endLabel)] + finish)
  }

  /** The comparison as the generator writes it. */
  function Compare(jump: string, trueLabel: string, endLabel: string): seq<Instruction> {
    CompareWith("D-A", "1", DecrementSP(), jump, trueLabel, endLabel)
  }

  /** The comparison the VM language calls for: X - Y tested, -1 for true, one cell pushed. */
  function IntendedCompare(jump: string, trueLabel: string, endLabel: string): seq<Instruction> {
    CompareWith("A-D", "-1", IncrementSP(), jump, trueLabel, endLabel)
  }

  lemma HelperListings(dest: string, comp: string)
    ensures Listing(LoadSP()) == CodeWriting.LoadSPCode()
    ensures Listing(IncrementSP()) == CodeWriting.IncrementSPCode()
    ensures Listing(DecrementSP()) == CodeWriting.DecrementSPCode()
    ensures Listing(StackTo(dest)) == CodeWriting.StackToCode(dest)
    ensures Listing(CompToStack(comp)) == CodeWriting.CompToStackCode(comp)
  {
    ListingAppend(LoadSP(), [Compute("M", Some(dest), None)]);
    ListingAppend(LoadSP(), [Compute(comp, Some("M"), None)]);
  }

  lemma PopOperandsListing()
    ensures Listing(PopOperands()) == CodeWriting.PopOperandsCode()
  {
    HelperListings("D", "D");
    HelperListings("A", "D");
    ListingAppend(DecrementSP(), StackTo("D"));
    ListingAppend(DecrementSP() + StackTo("D"), DecrementSP());
    ListingAppend(DecrementSP() + StackTo("D") + DecrementSP(), StackTo("A"));
  }

  /** The binary template's instructions are, line for line, the code the generator writes. */
  lemma BinaryListing(comp: string)
    ensures Listing(Binary(comp)) == CodeWriting.BinaryCode(comp)
  {
    HelperListings("D", "D");
    PopOperandsListing();
    ListingAppend(PopOperands(), [Compute(comp, Some("D"), None)]);
    ListingAppend(PopOperands() + [Compute(comp, Some("D"), None)], CompToStack("D"));
    ListingAppend(PopOperands() + [Compute(comp, Some("D"), None)] + CompToStack("D"), IncrementSP());
  }

  /** The unary template's instructions are, line for line, the code the generator writes. */
  lemma UnaryListing(comp: string)
    ensures Listing(Unary(comp)) == CodeWriting.UnaryCode(comp)
  {
    HelperListings("D", "D");
    ListingAppend(DecrementSP(), StackTo("D"));
    ListingAppend(DecrementSP() + StackTo("D"), [Compute(comp, Some("D"), None)]);
    ListingAppend(DecrementSP() + StackTo("D") + [Compute(comp, Some("D"), None)], CompToStack("D"));
    ListingAppend(DecrementSP() + StackTo("D") + [Compute(comp, Some("D"), None)] + CompToStack("D"), IncrementSP());
  }

  /** The comparison template's listing, segment by segment. */
  lemma CompareListingSegments(jump: string, trueLabel: string, endLabel: string)
    ensures Listing(Compare(jump, trueLabel, endLabel))
      == Listing(CompareTest("D-A", trueLabel)) + [CodeWriting.CCommandText("D", None, Some(jump))]
        + Listing(FalseArm(endLabel)) + [CodeWriting.CCommandText("0", None, Some("JMP"))]
        + Listing(TrueArm(trueLabel, "1")) + Listing([Mark(endLabel)] + DecrementSP())
  {
    var test := CompareTest("D-A", trueLabel);
    var jumpTo := [Compute("D", None, Some(jump))];
    var jmp := [Compute("0", None, Some("JMP"))];
    ListingAppend(test, jumpTo);
    ListingAppend(test + jumpTo, FalseArm(endLabel));
    ListingAppend(test + jumpTo + FalseArm(endLabel), jmp);
    ListingAppend(test + jumpTo + FalseArm(endLabel) + jmp, TrueArm(trueLabel, "1"));
    ListingAppend(test + jumpTo + FalseArm(endLabel) + jmp + TrueArm(trueLabel, "1"), [Mark(endLabel)] + DecrementSP());
  }

  /** The comparison template's instructions are, line for line, the code the generator writes. */
  lemma CompareListing(jump: string, trueLabel: string, endLabel: string)
    ensures Listing(Compare(jump, trueLabel, endLabel)) == CodeWriting.CompareCode(jump, trueLabel, endLabel)
  {
    assert Listing(CompareTest("D-A", trueLabel))
      == CodeWriting.PopOperandsCode() + [CodeWriting.CCommandText("D-A", Some("D"), None), CodeWriting.ACommandText(trueLabel)] by {
      PopOperandsListing();
      ListingAppend(PopOperands(), [Compute("D-A", Some("D"), None), Load(trueLabel)]);
    }
    assert Listing(FalseArm(endLabel)) == CodeWriting.CompToStackCode("0") + [CodeWriting.ACommandText(endLabel)] by {
      HelperListings("D", "0");
      ListingAppend(CompToStack("0"), [Load(endLabel)]);
    }
    assert Listing(TrueArm(trueLabel, "1")) == [CodeWriting.LabelCommandText(trueLabel)] + CodeWriting.CompToStackCode("1") by {
      HelperListings("D", "1");
      ListingAppend([Mark(trueLabel)], CompToStack("1"));
    }
    assert Listing([Mark(endLabel)] + DecrementSP()) == [CodeWriting.LabelCommandText(endLabel)] + CodeWriting.DecrementSPCode() by {
      HelperListings("D", "D");
      ListingAppend([Mark(endLabel)], DecrementSP());
    }
    CompareListingSegments(jump, trueLabel, endLabel);
    CodeWriting.CompareCodeSegments(jump, trueLabel, endLabel);
  }

  /** The machine program for one arithmetic command, or None when the mnemonic is not one. */
  function ArithmeticTemplate(command: string, customLabelCount: nat): Option<seq<Instruction>> {
    if CodeWriting.BinaryComp(command).Some? then Some(Binary(CodeWriting.BinaryComp(command).value))
    else if CodeWriting.UnaryComp(command).Some? then Some(Unary(CodeWriting.UnaryComp(command).value))
    else if CodeWriting.CompareJump(command).Some? then
      Some(Compare(CodeWriting.CompareJump(command).value,
                   CodeWriting.LabelName("COMPARE_RESULT_TRUE", customLabelCount + 1),
                   CodeWriting.LabelName("COMPARE_END", customLabelCount + 2)))
    else None
  }

  /** The generator writes, for every arithmetic command, exactly the listing of its machine program. */
  lemma ArithmeticListing(command: string, customLabelCount: nat)
    ensures CodeWriting.ArithmeticCode(command, customLabelCount).Some? <==> ArithmeticTemplate(command, customLabelCount).Some?
    ensures ArithmeticTemplate(command, customLabelCount).Some? ==>
      CodeWriting.ArithmeticCode(command, customLabelCount).value == Listing(ArithmeticTemplate(command, customLabelCount).value)
  {
    if CodeWriting.BinaryComp(command).Some? {
      BinaryListing(CodeWriting.BinaryComp(command).value);
    } else if CodeWriting.UnaryComp(command).Some? {
      UnaryListing(CodeWriting.UnaryComp(command).value);
    } else if CodeWriting.CompareJump(command).Some? {
      CompareListing(CodeWriting.CompareJump(command).value,
                     CodeWriting.LabelName("COMPARE_RESULT_TRUE", customLabelCount + 1),
                     CodeWriting.LabelName("COMPARE_END", customLabelCount + 2));
    }
  }

  // -----------------------------------------------------------------------
  // The stack helpers, run straight through

  /** `@SP` then one C-instruction: the first step of every stack helper. */
  lemma SPThen(symbols: map<string, Word>, m: Machine, second: Instruction)
    requires StackPointerDefined(symbols)
    ensures Flow([Load("SP"), second], symbols, m) == Flow([second], symbols, m.(a := 0, pc := m.pc + 1))
  {
    assert [Load("SP"), second][1..] == [second];
  }

  /** One C-instruction that stores and does not jump. */
  lemma ComputeFlow(symbols: map<string, Word>, m: Machine, comp: string, dest: string)
    requires Evaluate(comp, m.a, m.d, Read(m.ram, m.a)).Some?
    ensures var v := Evaluate(comp, m.a, m.d, Read(m.ram, m.a)).value;
      Flow([Compute(comp, Some(dest), None)], symbols, m)
        == Some(Machine(
             if 'A' in dest then v else m.a,
             if 'D' in dest then v else m.d,
             if 'M' in dest then Write(m.ram, m.a, v) else m.ram,
             m.pc + 1))
  {
    assert [Compute(comp, Some(dest), None)][1..] == [];
  }

  /** `@SP`, `A=M`: A holds SP. */
  lemma LoadSPFlow(symbols: map<string, Word>, m: Machine)
    requires StackPointerDefined(symbols)
    ensures Flow(LoadSP(), symbols, m) == Some(m.(a := Read(m.ram, 0), pc := m.pc + 2))
  {
    SPThen(symbols, m, Compute("M", Some("A"), None));
    ComputeFlow(symbols, m.(a := 0, pc := m.pc + 1), "M", "A");
  }

  /** `@SP`, `M=M-1`: SP moves one cell down; A holds 0. */
  lemma DecrementSPFlow(symbols: map<string, Word>, m: Machine)
    requires StackPointerDefined(symbols)
    ensures Flow(DecrementSP(), symbols, m) == Some(m.(a := 0, ram := Write(m.ram, 0, Wrap(Read(m.ram, 0) - 1)), pc := m.pc + 2))
  {
    SPThen(symbols, m, Compute("M-1", Some("M"), None));
    ComputeFlow(symbols, m.(a := 0, pc := m.pc + 1), "M-1", "M");
  }

  /** `@SP`, `M=M+1`: SP moves one cell up; A holds 0. */
  lemma IncrementSPFlow(symbols: map<string, Word>, m: Machine)
    requires StackPointerDefined(symbols)
    ensures Flow(IncrementSP(), symbols, m) == Some(m.(a := 0, ram := Write(m.ram, 0, Wrap(Read(m.ram, 0) + 1)), pc := m.pc + 2))
  {
    SPThen(symbols, m, Compute("M+1", Some("M"), None));
    ComputeFlow(symbols, m.(a := 0, pc := m.pc + 1), "M+1", "M");
  }

  /** The cell SP points at goes into D (A keeps SP) or into A. */
  lemma StackToFlow(symbols: map<string, Word>, m: Machine, dest: string)
    requires StackPointerDefined(symbols)
    requires dest == "A" || dest == "D"
    ensures var sp := Read(m.ram, 0);
      Flow(StackTo(dest), symbols, m)
        == Some(if dest == "D" then m.(a := sp, d := Read(m.ram, sp), pc := m.pc + 3)
                else m.(a := Read(m.ram, sp), pc := m.pc + 3))
  {
    LoadSPFlow(symbols, m);
    FlowAppend(LoadSP(), [Compute("M", Some(dest), None)], symbols, m);
    ComputeFlow(symbols, m.(a := Read(m.ram, 0), pc := m.pc + 2), "M", dest);
  }

  /** The value of `comp` goes into the cell SP points at; A holds SP. */
  lemma CompToStackFlow(symbols: map<string, Word>, m: Machine, comp: string)
    requires StackPointerDefined(symbols)
    requires Evaluate(comp, Read(m.ram, 0), m.d, Read(m.ram, Read(m.ram, 0))).Some?
    ensures var sp := Read(m.ram, 0);
      Flow(CompToStack(comp), symbols, m)
        == Some(m.(a := sp, ram := Write(m.ram, sp, Evaluate(comp, sp, m.d, Read(m.ram, sp)).value), pc := m.pc + 3))
  {
    LoadSPFlow(symbols, m);
    FlowAppend(LoadSP(), [Compute(comp, Some("M"), None)], symbols, m);
    ComputeFlow(symbols, m.(a := Read(m.ram, 0), pc := m.pc + 2), comp, "M");
  }

  /** One cell popped: SP moves down and the cell it now points at goes into D (A keeps SP) or into A. */
  lemma PopFlow(symbols: map<string, Word>, m: Machine, dest: string)
    requires StackPointerDefined(symbols)
    requires dest == "A" || dest == "D"
    requires Read(m.ram, 0) > 1
    ensures var sp := Read(m.ram, 0) - 1;
      var ram := Write(m.ram, 0, sp);
      Flow(DecrementSP() + StackTo(dest), symbols, m)
        == Some(if dest == "D" then m.(a := sp, d := Read(m.ram, sp), ram := ram, pc := m.pc + 5)
                else m.(a := Read(m.ram, sp), ram := ram, pc := m.pc + 5))
  {
    var sp := Read(m.ram, 0) - 1;
    DecrementSPFlow(symbols, m);
    FlowAppend(DecrementSP(), StackTo(dest), symbols, m);
    var m1 := m.(a := 0, ram := Write(m.ram, 0, sp), pc := m.pc + 2);
    StackToFlow(symbols, m1, dest);
  }

  /** Y into D and X into A; SP ends at X's cell. */
  lemma PopOperandsFlow(symbols: map<string, Word>, m: Machine)
    requires StackPointerDefined(symbols)
    requires Read(m.ram, 0) > 2  // both operands lie above the SP cell
    ensures var sp := Read(m.ram, 0);
      Flow(PopOperands(), symbols, m)
        == Some(m.(a := Read(m.ram, sp - 2), d := Read(m.ram, sp - 1), ram := Write(m.ram, 0, sp - 2), pc := m.pc + 10))
  {
    var sp := Read(m.ram, 0);
    var m1 := m.(a := sp - 1, d := Read(m.ram, sp - 1), ram := Write(m.ram, 0, sp - 1), pc := m.pc + 5);
    var m2 := m1.(a := Read(m.ram, sp - 2), ram := Write(m.ram, 0, sp - 2), pc := m.pc + 10);
    assert Flow(DecrementSP() + StackTo("D"), symbols, m) == Some(m1) by {
      PopFlow(symbols, m, "D");
    }
    assert Flow(DecrementSP() + StackTo("A"), symbols, m1) == Some(m2) by {
      assert Read(m1.ram, 0) == sp - 1 && Read(m1.ram, sp - 2) == Read(m.ram, sp - 2);
      assert Write(m1.ram, 0, sp - 2) == Write(m.ram, 0, sp - 2);
      PopFlow(symbols, m1, "A");
    }
    assert PopOperands() == (DecrementSP() + StackTo("D")) + (DecrementSP() + StackTo("A"));
    FlowAppend(DecrementSP() + StackTo("D"), DecrementSP() + StackTo("A"), symbols, m);
  }

  // -----------------------------------------------------------------------
  // The arithmetic templates

  /** What the VM language leaves on the stack for a binary command with operands `x` (deeper) and `y`. */
  function BinaryMeaning(command: string, x: Word, y: Word): Word
    requires CodeWriting.BinaryComp(command).Some?
  {
    if command == "add" then Wrap(x + y)
    else if command == "sub" then Wrap(x - y)
    else if command == "and" then And(x, y)
    else Or(x, y)
  }

  /** What the VM language leaves on the stack for a unary command with operand `y`. */
  function UnaryMeaning(command: string, y: Word): Word
    requires CodeWriting.UnaryComp(command).Some?
  {
    if command == "neg" then Wrap(0 - y) else Not(y)
  }

  /** The comp of each binary command computes the command's meaning from D = Y and A = X. */
  lemma BinaryCompMeaning(command: string, x: Word, y: Word, m: Word)
    requires CodeWriting.BinaryComp(command).Some?
    ensures Evaluate(CodeWriting.BinaryComp(command).value, x, y, m) == Some(BinaryMeaning(command, x, y))
  {
  }

  /** Pushing D: the cell SP points at receives D and SP moves up by one. */
  lemma PushDFlow(symbols: map<string, Word>, m: Machine)
    requires StackPointerDefined(symbols)
    requires Read(m.ram, 0) > 0
    ensures var sp := Read(m.ram, 0);
      Flow(CompToStack("D") + IncrementSP(), symbols, m)
        == Some(Machine(0, m.d, Write(Write(m.ram, sp, m.d), 0, Wrap(sp + 1)), m.pc + 5))
  {
    var sp := Read(m.ram, 0);
    var m1 := m.(a := sp, ram := Write(m.ram, sp, m.d), pc := m.pc + 3);
    assert Flow(CompToStack("D"), symbols, m) == Some(m1) by {
      CompToStackFlow(symbols, m, "D");
    }
    assert Read(m1.ram, 0) == sp;
    IncrementSPFlow(symbols, m1);
    FlowAppend(CompToStack("D"), IncrementSP(), symbols, m);
  }

  /** A computation into D followed by a push of D. */
  lemma ComputePushFlow(symbols: map<string, Word>, m: Machine, comp: string, result: Word)
    requires StackPointerDefined(symbols)
    requires Read(m.ram, 0) > 0
    requires Evaluate(comp, m.a, m.d, Read(m.ram, m.a)) == Some(result)
    ensures var sp := Read(m.ram, 0);
      Flow([Compute(comp, Some("D"), None)] + (CompToStack("D") + IncrementSP()), symbols, m)
        == Some(Machine(0, result, Write(Write(m.ram, sp, result), 0, Wrap(sp + 1)), m.pc + 6))
  {
    ComputeFlow(symbols, m, comp, "D");
    PushDFlow(symbols, m.(d := result, pc := m.pc + 1));
    FlowAppend([Compute(comp, Some("D"), None)], CompToStack("D") + IncrementSP(), symbols, m);
  }

  /** Whatever follows the operand pops runs from the state they leave: Y in D, X in A, SP two lower. */
  lemma PopOperandsThen(symbols: map<string, Word>, m: Machine, rest: seq<Instruction>)
    requires StackPointerDefined(symbols)
    requires Read(m.ram, 0) > 2
    ensures var sp := Read(m.ram, 0);
      Flow(PopOperands() + rest, symbols, m)
        == Flow(rest, symbols, m.(a := Read(m.ram, sp - 2), d := Read(m.ram, sp - 1), ram := Write(m.ram, 0, sp - 2), pc := m.pc + 10))
  {
    PopOperandsFlow(symbols, m);
    FlowAppend(PopOperands(), rest, symbols, m);
  }

  /** The binary template over any comp: it pops Y into D and X into A, computes, and pushes the value. */
  lemma BinaryTemplateFlow(symbols: map<string, Word>, m: Machine, comp: string, result: Word)
    requires StackPointerDefined(symbols)
    requires Read(m.ram, 0) > 2  // both operands lie above the SP cell
    requires var sp := Read(m.ram, 0);
      var x := Read(m.ram, sp - 2);
      Evaluate(comp, x, Read(m.ram, sp - 1), Read(Write(m.ram, 0, sp - 2), x)) == Some(result)
    ensures var sp := Read(m.ram, 0);
      Flow(Binary(comp), symbols, m)
        == Some(Machine(0, result, Write(Write(m.ram, 0, sp - 1), sp - 2, result), m.pc + 16))
  {
    var sp := Read(m.ram, 0);
    var rest := [Compute(comp, Some("D"), None)] + (CompToStack("D") + IncrementSP());
    var m1 := m.(a := Read(m.ram, sp - 2), d := Read(m.ram, sp - 1), ram := Write(m.ram, 0, sp - 2), pc := m.pc + 10);
    assert Binary(comp) == PopOperands() + rest;
    PopOperandsThen(symbols, m, rest);
    ComputePushFlow(symbols, m1, comp, result);
    assert Write(Write(m1.ram, sp - 2, result), 0, sp - 1) == Write(Write(m.ram, 0, sp - 1), sp - 2, result);
  }

  lemma BinaryFlow(symbols: map<string, Word>, m: Machine, command: string)
    requires CodeWriting.BinaryComp(command).Some?
    requires StackPointerDefined(symbols)
    requires Read(m.ram, 0) > 2
    ensures var sp := Read(m.ram, 0);
      var result := BinaryMeaning(command, Read(m.ram, sp - 2), Read(m.ram, sp - 1));
      Flow(Binary(CodeWriting.BinaryComp(command).value), symbols, m)
        == Some(Machine(0, result, Write(Write(m.ram, 0, sp - 1), sp - 2, result), m.pc + 16))
  {
    var sp := Read(m.ram, 0);
    var x, y := Read(m.ram, sp - 2), Read(m.ram, sp - 1);
    BinaryCompMeaning(command, x, y, Read(Write(m.ram, 0, sp - 2), x));
    BinaryTemplateFlow(symbols, m, CodeWriting.BinaryComp(command).value, BinaryMeaning(command, x, y));
  }

  /** The comp of each unary command computes the command's meaning from D = Y. */
  lemma UnaryCompMeaning(command: string, a: Word, y: Word, m: Word)
    requires CodeWriting.UnaryComp(command).Some?
    ensures Evaluate(CodeWriting.UnaryComp(command).value, a, y, m) == Some(UnaryMeaning(command, y))
  {
  }

  /** The unary template over any comp: it pops Y into D, computes, and pushes the value. */
  lemma UnaryTemplateFlow(symbols: map<string, Word>, m: Machine, comp: string, result: Word)
    requires StackPointerDefined(symbols)
    requires Read(m.ram, 0) > 1  // the operand lies above the SP cell
    requires var sp := Read(m.ram, 0);
      Evaluate(comp, sp - 1, Read(m.ram, sp - 1), Read(Write(m.ram, 0, sp - 1), sp - 1)) == Some(result)
    ensures var sp := Read(m.ram, 0);
      Flow(Unary(comp), symbols, m) == Some(Machine(0, result, Write(m.ram, sp - 1, result), m.pc + 11))
  {
    var sp := Read(m.ram, 0);
    var m1 := m.(a := sp - 1, d := Read(m.ram, sp - 1), ram := Write(m.ram, 0, sp - 1), pc := m.pc + 5);
    PopFlow(symbols, m, "D");
    ComputePushFlow(symbols, m1, comp, result);
    FlowAppend(DecrementSP() + StackTo("D"), [Compute(comp, Some("D"), None)] + (CompToStack("D") + IncrementSP()), symbols, m);
    assert Unary(comp) == (DecrementSP() + StackTo("D")) + ([Compute(comp, Some("D"), None)] + (CompToStack("D") + IncrementSP()));
    assert 0 in m.ram && m.ram[0] == sp;
    assert Write(Write(m1.ram, sp - 1, result), 0, sp) == Write(m.ram, sp - 1, result);
  }

  lemma UnaryFlow(symbols: map<string, Word>, m: Machine, command: string)
    requires CodeWriting.UnaryComp(command).Some?
    requires StackPointerDefined(symbols)
    requires Read(m.ram, 0) > 1
    ensures var sp := Read(m.ram, 0);
      var result := UnaryMeaning(command, Read(m.ram, sp - 1));
      Flow(Unary(CodeWriting.UnaryComp(command).value), symbols, m)
        == Some(Machine(0, result, Write(m.ram, sp - 1, result), m.pc + 11))
  {
    var sp := Read(m.ram, 0);
    var y := Read(m.ram, sp - 1);
    UnaryCompMeaning(command, sp - 1, y, Read(Write(m.ram, 0, sp - 1), sp - 1));
    UnaryTemplateFlow(symbols, m, CodeWriting.UnaryComp(command).value, UnaryMeaning(command, y));
  }

  /**
   * A binary command's code placed at the counter: 16 steps later the value
   * the VM command computes from X and Y is in X's cell, SP points just above
   * it, and the counter is past the template.
   */
  lemma BinaryRun(p: seq<Instruction>, symbols: map<string, Word>, m: Machine, command: string)
    requires CodeWriting.BinaryComp(command).Some? && StackPointerDefined(symbols)
    requires Read(m.ram, 0) > 2  // both operands lie above the SP cell
    requires Holds(p, m.pc, Binary(CodeWriting.BinaryComp(command).value))
    ensures var sp := Read(m.ram, 0);
      var result := BinaryMeaning(command, Read(m.ram, sp - 2), Read(m.ram, sp - 1));
      Run(p, symbols, m, 16) == Machine(0, result, Write(Write(m.ram, 0, sp - 1), sp - 2, result), m.pc + 16)
  {
    BinaryFlow(symbols, m, command);
    RunFlow(p, symbols, m, Binary(CodeWriting.BinaryComp(command).value));
  }

  /**
   * A unary command's code placed at the counter: 11 steps later the value
   * the VM command computes from Y is in Y's cell, SP is where it was, and the
   * counter is past the template.
   */
  lemma UnaryRun(p: seq<Instruction>, symbols: map<string, Word>, m: Machine, command: string)
    requires CodeWriting.UnaryComp(command).Some? && StackPointerDefined(symbols)
    requires Read(m.ram, 0) > 1  // the operand lies above the SP cell
    requires Holds(p, m.pc, Unary(CodeWriting.UnaryComp(command).value))
    ensures var sp := Read(m.ram, 0);
      var result := UnaryMeaning(command, Read(m.ram, sp - 1));
      Run(p, symbols, m, 11) == Machine(0, result, Write(m.ram, sp - 1, result), m.pc + 11)
  {
    UnaryFlow(symbols, m, command);
    RunFlow(p, symbols, m, Unary(CodeWriting.UnaryComp(command).value));
  }

  // -----------------------------------------------------------------------
  // The comparison template

  /** A label line does nothing but hand over to the next line. */
  lemma MarkThen(symbols: map<string, Word>, m: Machine, name: string, rest: seq<Instruction>)
    ensures Flow([Mark(name)] + rest, symbols, m) == Flow(rest, symbols, m.(pc := m.pc + 1))
  {
    assert ([Mark(name)] + rest)[1..] == rest;
  }

  /** One instruction run from inside a program is that instruction executed. */
  lemma RunOne(p: seq<Instruction>, symbols: map<string, Word>, m: Machine)
    requires m.pc < |p|
    ensures Run(p, symbols, m, 1) == Step(p, symbols, m)
  {
    RunUnfold(p, symbols, m, 1);
    RunUnfold(p, symbols, Step(p, symbols, m), 0);
  }

  /** `D;jump` jumps to A exactly when D passes the jump's test. */
  lemma TestJumpExec(symbols: map<string, Word>, m: Machine, jump: string)
    requires jump in Code.JumpMappings
    ensures Exec(Compute("D", None, Some(jump)), symbols, m)
      == m.(pc := if Code.JumpsOn(jump, Signed(m.d)) then m.a else m.pc + 1)
  {
  }

  /** `0;JMP` always jumps to A. */
  lemma GotoExec(symbols: map<string, Word>, m: Machine)
    ensures Exec(Compute("0", None, Some("JMP")), symbols, m) == m.(pc := m.a)
  {
    assert "JMP" in Code.JumpMappings;
  }

  lemma CompareTestFlow(symbols: map<string, Word>, m: Machine, difference: string, trueLabel: string, v: Word)
    requires StackPointerDefined(symbols) && trueLabel in symbols
    requires Read(m.ram, 0) > 2
    requires var sp := Read(m.ram, 0);
      var x := Read(m.ram, sp - 2);
      Evaluate(difference, x, Read(m.ram, sp - 1), Read(Write(m.ram, 0, sp - 2), x)) == Some(v)
    ensures var sp := Read(m.ram, 0);
      Flow(CompareTest(difference, trueLabel), symbols, m)
        == Some(Machine(symbols[trueLabel], v, Write(m.ram, 0, sp - 2), m.pc + 12))
  {
    var sp := Read(m.ram, 0);
    var m1 := m.(a := Read(m.ram, sp - 2), d := Read(m.ram, sp - 1), ram := Write(m.ram, 0, sp - 2), pc := m.pc + 10);
    var rest := [Compute(difference, Some("D"), None)] + [Load(trueLabel)];
    assert CompareTest(difference, trueLabel) == PopOperands() + rest;
    PopOperandsThen(symbols, m, rest);
    assert Flow([Compute(difference, Some("D"), None)], symbols, m1) == Some(m1.(d := v, pc := m.pc + 11)) by {
      ComputeFlow(symbols, m1, difference, "D");
    }
    assert [Load(trueLabel)][1..] == [];
    FlowAppend([Compute(difference, Some("D"), None)], [Load(trueLabel)], symbols, m1);
  }

  /** The false arm stores 0 at SP and loads the end label. */
  lemma FalseArmFlow(symbols: map<string, Word>, m: Machine, endLabel: string)
    requires StackPointerDefined(symbols) && endLabel in symbols
    ensures var sp := Read(m.ram, 0);
      Flow(FalseArm(endLabel), symbols, m) == Some(Machine(symbols[endLabel], m.d, Write(m.ram, sp, 0), m.pc + 4))
  {
    CompToStackFlow(symbols, m, "0");
    assert [Load(endLabel)][1..] == [];
    FlowAppend(CompToStack("0"), [Load(endLabel)], symbols, m);
  }

  /** The true arm stores the value of `truth` at SP. */
  lemma TrueArmFlow(symbols: map<string, Word>, m: Machine, trueLabel: string, truth: string, tv: Word)
    requires StackPointerDefined(symbols)
    requires var sp := Read(m.ram, 0); Evaluate(truth, sp, m.d, Read(m.ram, sp)) == Some(tv)
    ensures var sp := Read(m.ram, 0);
      Flow(TrueArm(trueLabel, truth), symbols, m) == Some(Machine(sp, m.d, Write(m.ram, sp, tv), m.pc + 4))
  {
    MarkThen(symbols, m, trueLabel, CompToStack(truth));
    CompToStackFlow(symbols, m.(pc := m.pc + 1), truth);
  }

  /** Where each part of a comparison template sits in a program that holds it at `k`. */
  lemma CompareWithHolds(p: seq<Instruction>, k: nat, difference: string, truth: string, finish: seq<Instruction>,
                         jump: string, trueLabel: string, endLabel: string)
    requires Holds(p, k, CompareWith(difference, truth, finish, jump, trueLabel, endLabel))
    ensures Holds(p, k, CompareTest(difference, trueLabel))
    ensures k + 12 < |p| && p[k + 12] == Compute("D", None, Some(jump))
    ensures Holds(p, k + 13, FalseArm(endLabel))
    ensures k + 17 < |p| && p[k + 17] == Compute("0", None, Some("JMP"))
    ensures Holds(p, k + 18, TrueArm(trueLabel, truth))
    ensures Holds(p, k + 22, [Mark(endLabel)] + finish)
  {
    var test := CompareTest(difference, trueLabel);
    var jumpTo := [Compute("D", None, Some(jump))];
    var jmp := [Compute("0", None, Some("JMP"))];
    assert |test| == 12;
    HoldsSplit(p, k, test + jumpTo + FalseArm(endLabel) + jmp + TrueArm(trueLabel, truth), [Mark(endLabel)] + finish);
    HoldsSplit(p, k, test + jumpTo + FalseArm(endLabel) + jmp, TrueArm(trueLabel, truth));
    HoldsSplit(p, k, test + jumpTo + FalseArm(endLabel), jmp);
    HoldsSplit(p, k, test + jumpTo, FalseArm(endLabel));
    HoldsSplit(p, k, test, jumpTo);
    assert p[(k + 12) + 0] == jumpTo[0];
    assert p[(k + 17) + 0] == jmp[0];
  }

  /** The conditional jump after the 12 steps of the test: the 13th step lands on the true arm or on the false arm. */
  lemma CompareHeadRun(p: seq<Instruction>, symbols: map<string, Word>, m: Machine, jump: string, after: Machine)
    requires jump in Code.JumpMappings
    requires Run(p, symbols, m, 12) == after
    requires after.pc < |p| && p[after.pc] == Compute("D", None, Some(jump))
    ensures Run(p, symbols, m, 13)
      == after.(pc := if Code.JumpsOn(jump, Signed(after.d)) then after.a else after.pc + 1)
  {
    RunOne(p, symbols, after);
    TestJumpExec(symbols, after, jump);
    RunSplit(p, symbols, m, 12, 1);
  }

  /** The false arm and the jump over the true arm: 5 steps, landing on the end label. */
  lemma FalseArmRun(p: seq<Instruction>, symbols: map<string, Word>, m: Machine, endLabel: string)
    requires StackPointerDefined(symbols) && endLabel in symbols
    requires Holds(p, m.pc, FalseArm(endLabel))
    requires m.pc + 4 < |p| && p[m.pc + 4] == Compute("0", None, Some("JMP"))
    ensures var sp := Read(m.ram, 0);
      Run(p, symbols, m, 5) == Machine(symbols[endLabel], m.d, Write(m.ram, sp, 0), symbols[endLabel])
  {
    var sp := Read(m.ram, 0);
    var stored := Machine(symbols[endLabel], m.d, Write(m.ram, sp, 0), m.pc + 4);
    assert Run(p, symbols, m, 4) == stored by {
      FalseArmFlow(symbols, m, endLabel);
      RunFlow(p, symbols, m, FalseArm(endLabel));
    }
    assert Run(p, symbols, stored, 1) == stored.(pc := symbols[endLabel]) by {
      RunOne(p, symbols, stored);
      GotoExec(symbols, stored);
    }
    RunSplit(p, symbols, m, 4, 1);
  }

  /**
   * Where a comparison template runs: its jump is a known one, SP lives in
   * cell 0 above both operands, and its two labels name its own lines 18
   * and 22.
   */
  predicate CompareSetting(symbols: map<string, Word>, m: Machine, jump: string, trueLabel: string, endLabel: string) {
    && jump in Code.JumpMappings && StackPointerDefined(symbols) && Read(m.ram, 0) > 2
    && trueLabel in symbols && symbols[trueLabel] == m.pc + 18
    && endLabel in symbols && symbols[endLabel] == m.pc + 22
  }

  /** The test and the conditional jump of a comparison: 13 steps, landing on the true arm or on the false arm. */
  lemma CompareTestRun(p: seq<Instruction>, symbols: map<string, Word>, m: Machine,
                        difference: string, truth: string, finish: seq<Instruction>,
                        jump: string, trueLabel: string, endLabel: string, v: Word)
    requires CompareSetting(symbols, m, jump, trueLabel, endLabel)
    requires Holds(p, m.pc, CompareWith(difference, truth, finish, jump, trueLabel, endLabel))
    requires var sp := Read(m.ram, 0);
      Flow(CompareTest(difference, trueLabel), symbols, m) == Some(Machine(m.pc + 18, v, Write(m.ram, 0, sp - 2), m.pc + 12))
    ensures var sp := Read(m.ram, 0);
      Run(p, symbols, m, 13)
        == Machine(m.pc + 18, v, Write(m.ram, 0, sp - 2), if Code.JumpsOn(jump, Signed(v)) then m.pc + 18 else m.pc + 13)
  {
    var k, sp := m.pc, Read(m.ram, 0);
    var after := Machine(k + 18, v, Write(m.ram, 0, sp - 2), k + 12);
    assert Run(p, symbols, m, 12) == after by {
      CompareWithHolds(p, k, difference, truth, finish, jump, trueLabel, endLabel);
      assert |CompareTest(difference, trueLabel)| == 12;
      RunFlow(p, symbols, m, CompareTest(difference, trueLabel));
    }
    CompareWithHolds(p, k, difference, truth, finish, jump, trueLabel, endLabel);
    CompareHeadRun(p, symbols, m, jump, after);
  }

  /** A comparison whose test passes: the true arm stores `tv` in X's cell, 17 steps in all. */
  lemma ComparePassRun(p: seq<Instruction>, symbols: map<string, Word>, m: Machine,
                        difference: string, truth: string, finish: seq<Instruction>,
                        jump: string, trueLabel: string, endLabel: string, v: Word, tv: Word)
    requires CompareSetting(symbols, m, jump, trueLabel, endLabel)
    requires Holds(p, m.pc, CompareWith(difference, truth, finish, jump, trueLabel, endLabel))
    requires var sp := Read(m.ram, 0);
      Flow(CompareTest(difference, trueLabel), symbols, m) == Some(Machine(m.pc + 18, v, Write(m.ram, 0, sp - 2), m.pc + 12))
    requires var sp := Read(m.ram, 0);
      Flow(TrueArm(trueLabel, truth), symbols, Machine(m.pc + 18, v, Write(m.ram, 0, sp - 2), m.pc + 18))
        == Some(Machine(sp - 2, v, Write(Write(m.ram, 0, sp - 2), sp - 2, tv), m.pc + 22))
    requires Code.JumpsOn(jump, Signed(v))
    ensures var sp := Read(m.ram, 0);
      Run(p, symbols, m, 17) == Machine(sp - 2, v, Write(Write(m.ram, 0, sp - 2), sp - 2, tv), m.pc + 22)
  {
    var k, sp := m.pc, Read(m.ram, 0);
    var arm := Machine(k + 18, v, Write(m.ram, 0, sp - 2), k + 18);
    CompareTestRun(p, symbols, m, difference, truth, finish, jump, trueLabel, endLabel, v);
    assert Run(p, symbols, arm, 4) == Machine(sp - 2, v, Write(Write(m.ram, 0, sp - 2), sp - 2, tv), k + 22) by {
      CompareWithHolds(p, k, difference, truth, finish, jump, trueLabel, endLabel);
      RunFlow(p, symbols, arm, TrueArm(trueLabel, truth));
    }
    RunSplit(p, symbols, m, 13, 4);
  }

  /** A comparison whose test fails: the false arm stores 0 in X's cell and jumps to the end, 18 steps in all. */
  lemma CompareFailRun(p: seq<Instruction>, symbols: map<string, Word>, m: Machine,
                        difference: string, truth: string, finish: seq<Instruction>,
                        jump: string, trueLabel: string, endLabel: string, v: Word)
    requires CompareSetting(symbols, m, jump, trueLabel, endLabel)
    requires Holds(p, m.pc, CompareWith(difference, truth, finish, jump, trueLabel, endLabel))
    requires var sp := Read(m.ram, 0);
      Flow(CompareTest(difference, trueLabel), symbols, m) == Some(Machine(m.pc + 18, v, Write(m.ram, 0, sp - 2), m.pc + 12))
    requires !Code.JumpsOn(jump, Signed(v))
    ensures var sp := Read(m.ram, 0);
      Run(p, symbols, m, 18) == Machine(m.pc + 22, v, Write(Write(m.ram, 0, sp - 2), sp - 2, 0), m.pc + 22)
  {
    var k, sp := m.pc, Read(m.ram, 0);
    var arm := Machine(k + 18, v, Write(m.ram, 0, sp - 2), k + 13);
    CompareTestRun(p, symbols, m, difference, truth, finish, jump, trueLabel, endLabel, v);
    assert Run(p, symbols, arm, 5) == Machine(k + 22, v, Write(Write(m.ram, 0, sp - 2), sp - 2, 0), k + 22) by {
      CompareWithHolds(p, k, difference, truth, finish, jump, trueLabel, endLabel);
      assert Read(arm.ram, 0) == sp - 2;
      FalseArmRun(p, symbols, arm, endLabel);
    }
    RunSplit(p, symbols, m, 13, 5);
  }

  /**
   * A comparison run from its first line to its end label, given what its
   * test computes (`v`) and what its true arm stores (`tv`): 17 steps when
   * the test passes and 18 when it fails, with `tv` or 0 stored in X's cell
   * and SP pointing at that cell.
   */
  lemma CompareReachEnd(p: seq<Instruction>, symbols: map<string, Word>, m: Machine,
                        difference: string, truth: string, finish: seq<Instruction>,
                        jump: string, trueLabel: string, endLabel: string, v: Word, tv: Word)
    requires CompareSetting(symbols, m, jump, trueLabel, endLabel)
    requires Holds(p, m.pc, CompareWith(difference, truth, finish, jump, trueLabel, endLabel))
    requires var sp := Read(m.ram, 0);
      Flow(CompareTest(difference, trueLabel), symbols, m) == Some(Machine(m.pc + 18, v, Write(m.ram, 0, sp - 2), m.pc + 12))
    requires var sp := Read(m.ram, 0);
      Flow(TrueArm(trueLabel, truth), symbols, Machine(m.pc + 18, v, Write(m.ram, 0, sp - 2), m.pc + 18))
        == Some(Machine(sp - 2, v, Write(Write(m.ram, 0, sp - 2), sp - 2, tv), m.pc + 22))
    ensures var sp := Read(m.ram, 0);
      var holds := Code.JumpsOn(jump, Signed(v));
      Run(p, symbols, m, if holds then 17 else 18)
        == Machine(if holds then sp - 2 else m.pc + 22, v, Write(Write(m.ram, 0, sp - 2), sp - 2, if holds then tv else 0), m.pc + 22)
    ensures Holds(p, m.pc + 22, [Mark(endLabel)] + finish)
  {
    if Code.JumpsOn(jump, Signed(v)) {
      ComparePassRun(p, symbols, m, difference, truth, finish, jump, trueLabel, endLabel, v, tv);
    } else {
      CompareFailRun(p, symbols, m, difference, truth, finish, jump, trueLabel, endLabel, v);
    }
    CompareWithHolds(p, m.pc, difference, truth, finish, jump, trueLabel, endLabel);
  }

  /** The end label, then SP one cell down. */
  lemma EndDecrementFlow(symbols: map<string, Word>, m: Machine, endLabel: string)
    requires StackPointerDefined(symbols)
    ensures Flow([Mark(endLabel)] + DecrementSP(), symbols, m)
      == Some(m.(a := 0, ram := Write(m.ram, 0, Wrap(Read(m.ram, 0) - 1)), pc := m.pc + 3))
  {
    MarkThen(symbols, m, endLabel, DecrementSP());
    DecrementSPFlow(symbols, m.(pc := m.pc + 1));
  }

  /** The end label, then SP one cell up. */
  lemma EndIncrementFlow(symbols: map<string, Word>, m: Machine, endLabel: string)
    requires StackPointerDefined(symbols)
    ensures Flow([Mark(endLabel)] + IncrementSP(), symbols, m)
      == Some(m.(a := 0, ram := Write(m.ram, 0, Wrap(Read(m.ram, 0) + 1)), pc := m.pc + 3))
  {
    MarkThen(symbols, m, endLabel, IncrementSP());
    IncrementSPFlow(symbols, m.(pc := m.pc + 1));
  }

  /** After a comparison stored `stored` in X's cell: the end label and SP one cell down, below X. */
  lemma CompareDecrementEnd(symbols: map<string, Word>, m: Machine, endLabel: string, a: Word, v: Word, stored: Word)
    requires StackPointerDefined(symbols) && Read(m.ram, 0) > 2
    ensures var sp := Read(m.ram, 0);
      Flow([Mark(endLabel)] + DecrementSP(), symbols, Machine(a, v, Write(Write(m.ram, 0, sp - 2), sp - 2, stored), m.pc + 22))
        == Some(Machine(0, v, Write(Write(m.ram, 0, sp - 3), sp - 2, stored), m.pc + 25))
  {
    var sp := Read(m.ram, 0);
    var end := Machine(a, v, Write(Write(m.ram, 0, sp - 2), sp - 2, stored), m.pc + 22);
    EndDecrementFlow(symbols, end, endLabel);
    assert Read(end.ram, 0) == sp - 2;
    assert Write(end.ram, 0, sp - 3) == Write(Write(m.ram, 0, sp - 3), sp - 2, stored);
  }

  /** After a comparison stored `stored` in X's cell: the end label and SP one cell up, just above it. */
  lemma CompareIncrementEnd(symbols: map<string, Word>, m: Machine, endLabel: string, a: Word, v: Word, stored: Word)
    requires StackPointerDefined(symbols) && Read(m.ram, 0) > 2
    ensures var sp := Read(m.ram, 0);
      Flow([Mark(endLabel)] + IncrementSP(), symbols, Machine(a, v, Write(Write(m.ram, 0, sp - 2), sp - 2, stored), m.pc + 22))
        == Some(Machine(0, v, Write(Write(m.ram, 0, sp - 1), sp - 2, stored), m.pc + 25))
  {
    var sp := Read(m.ram, 0);
    var end := Machine(a, v, Write(Write(m.ram, 0, sp - 2), sp - 2, stored), m.pc + 22);
    EndIncrementFlow(symbols, end, endLabel);
    assert Read(end.ram, 0) == sp - 2;
    assert Write(end.ram, 0, sp - 1) == Write(Write(m.ram, 0, sp - 1), sp - 2, stored);
  }

  /** The end of the comparison as the generator writes it: SP drops one more cell, to below X. */
  lemma CompareDecrementFinish(p: seq<Instruction>, symbols: map<string, Word>, m: Machine,
                               jump: string, trueLabel: string, endLabel: string, v: Word, tv: Word, holds: bool)
    requires CompareSetting(symbols, m, jump, trueLabel, endLabel)
    requires Holds(p, m.pc + 22, [Mark(endLabel)] + DecrementSP())
    requires var sp := Read(m.ram, 0);
      Run(p, symbols, m, if holds then 17 else 18)
        == Machine(if holds then sp - 2 else m.pc + 22, v, Write(Write(m.ram, 0, sp - 2), sp - 2, if holds then tv else 0), m.pc + 22)
    ensures var sp := Read(m.ram, 0);
      Run(p, symbols, m, if holds then 20 else 21)
        == Machine(0, v, Write(Write(m.ram, 0, sp - 3), sp - 2, if holds then tv else 0), m.pc + 25)
  {
    var sp := Read(m.ram, 0);
    var stored: Word := if holds then tv else 0;
    var start := Machine(if holds then sp - 2 else m.pc + 22, v, Write(Write(m.ram, 0, sp - 2), sp - 2, stored), m.pc + 22);
    CompareDecrementEnd(symbols, m, endLabel, start.a, v, stored);
    RunThenFlow(p, symbols, m, if holds then 17 else 18, start, [Mark(endLabel)] + DecrementSP(),
                Machine(0, v, Write(Write(m.ram, 0, sp - 3), sp - 2, stored), m.pc + 25));
  }

  /** The end of the comparison the VM language calls for: SP moves back up, just above the result. */
  lemma CompareIncrementFinish(p: seq<Instruction>, symbols: map<string, Word>, m: Machine,
                               jump: string, trueLabel: string, endLabel: string, v: Word, tv: Word, holds: bool)
    requires CompareSetting(symbols, m, jump, trueLabel, endLabel)
    requires Holds(p, m.pc + 22, [Mark(endLabel)] + IncrementSP())
    requires var sp := Read(m.ram, 0);
      Run(p, symbols, m, if holds then 17 else 18)
        == Machine(if holds then sp - 2 else m.pc + 22, v, Write(Write(m.ram, 0, sp - 2), sp - 2, if holds then tv else 0), m.pc + 22)
    ensures var sp := Read(m.ram, 0);
      Run(p, symbols, m, if holds then 20 else 21)
        == Machine(0, v, Write(Write(m.ram, 0, sp - 1), sp - 2, if holds then tv else 0), m.pc + 25)
  {
    var sp := Read(m.ram, 0);
    var stored: Word := if holds then tv else 0;
    var start := Machine(if holds then sp - 2 else m.pc + 22, v, Write(Write(m.ram, 0, sp - 2), sp - 2, stored), m.pc + 22);
    CompareIncrementEnd(symbols, m, endLabel, start.a, v, stored);
    RunThenFlow(p, symbols, m, if holds then 17 else 18, start, [Mark(endLabel)] + IncrementSP(),
                Machine(0, v, Write(Write(m.ram, 0, sp - 1), sp - 2, stored), m.pc + 25));
  }

  /**
   * The comparison as the generator writes it, placed at the counter with its
   * labels resolved: it tests Y - X (not X - Y), stores 1 (not -1) for true
   * and 0 for false in X's cell, and leaves SP three cells lower, below X.
   * It takes 20 steps when the test passes and 21 when it fails.
   */
  lemma CompareRun(p: seq<Instruction>, symbols: map<string, Word>, m: Machine,
                   jump: string, trueLabel: string, endLabel: string)
    requires CompareSetting(symbols, m, jump, trueLabel, endLabel)
    requires Holds(p, m.pc, Compare(jump, trueLabel, endLabel))
    ensures var sp := Read(m.ram, 0);
      var x, y := Read(m.ram, sp - 2), Read(m.ram, sp - 1);
      var holds := Code.JumpsOn(jump, Signed(Wrap(y - x)));
      Run(p, symbols, m, if holds then 20 else 21)
        == Machine(0, Wrap(y - x), Write(Write(m.ram, 0, sp - 3), sp - 2, if holds then 1 else 0), m.pc + 25)
  {
    var k, sp := m.pc, Read(m.ram, 0);
    var v := Wrap(Read(m.ram, sp - 1) as int - Read(m.ram, sp - 2) as int);
    CompareTestFlow(symbols, m, "D-A", trueLabel, v);
    TrueArmFlow(symbols, Machine(k + 18, v, Write(m.ram, 0, sp - 2), k + 18), trueLabel, "1", 1);
    CompareReachEnd(p, symbols, m, "D-A", "1", DecrementSP(), jump, trueLabel, endLabel, v, 1);
    CompareDecrementFinish(p, symbols, m, jump, trueLabel, endLabel, v, 1, Code.JumpsOn(jump, Signed(v)));
  }

  /**
   * The comparison the VM language calls for: it tests X - Y, stores -1
   * (0xFFFF) for true and 0 for false in X's cell, and leaves SP one cell
   * lower, just above the result.
   */
  lemma IntendedCompareRun(p: seq<Instruction>, symbols: map<string, Word>, m: Machine,
                           jump: string, trueLabel: string, endLabel: string)
    requires CompareSetting(symbols, m, jump, trueLabel, endLabel)
    requires Holds(p, m.pc, IntendedCompare(jump, trueLabel, endLabel))
    ensures var sp := Read(m.ram, 0);
      var x, y := Read(m.ram, sp - 2), Read(m.ram, sp - 1);
      var holds := Code.JumpsOn(jump, Signed(Wrap(x - y)));
      Run(p, symbols, m, if holds then 20 else 21)
        == Machine(0, Wrap(x - y), Write(Write(m.ram, 0, sp - 1), sp - 2, if holds then 0xFFFF else 0), m.pc + 25)
  {
    var k, sp := m.pc, Read(m.ram, 0);
    var v := Wrap(Read(m.ram, sp - 2) as int - Read(m.ram, sp - 1) as int);
    CompareTestFlow(symbols, m, "A-D", trueLabel, v);
    TrueArmFlow(symbols, Machine(k + 18, v, Write(m.ram, 0, sp - 2), k + 18), trueLabel, "-1", 0xFFFF);
    CompareReachEnd(p, symbols, m, "A-D", "-1", IncrementSP(), jump, trueLabel, endLabel, v, 0xFFFF);
    CompareIncrementFinish(p, symbols, m, jump, trueLabel, endLabel, v, 0xFFFF, Code.JumpsOn(jump, Signed(v)));
  }

  /**
   * The jump of each comparison tests the difference of two words the way
   * the VM command compares them, as long as the signed difference does not
   * overflow: JEQ on X - Y means X = Y, JGT means X > Y, JLT means X < Y.
   */
  lemma CompareJumpVerdict(command: string, x: Word, y: Word)
    requires CodeWriting.CompareJump(command).Some?
    requires -0x8000 <= Signed(x) - Signed(y) < 0x8000
    ensures var holds := Code.JumpsOn(CodeWriting.CompareJump(command).value, Signed(Wrap(x - y)));
      && (command == "eq" ==> (holds <==> x == y))
      && (command == "gt" ==> (holds <==> Signed(x) > Signed(y)))
      && (command == "lt" ==> (holds <==> Signed(x) < Signed(y)))
  {
    assert Signed(Wrap(x - y)) == Signed(x) - Signed(y);
  }

  /**
   * `gt` on X = 1 and Y = 2, as written: the test passes, 1 lands in X's
   * cell (256) and SP drops from 258 to 255, where the VM language wants
   * false (0) in cell 256 and SP at 257.
   */
  lemma CompareAsWrittenGreaterThan()
    ensures var m := Machine(0, 0, map[0 := 258, 256 := 1, 257 := 2], 0);
      var symbols := map["SP" := 0, "TRUE" := 18, "END" := 22];
      var after := Run(Compare("JGT", "TRUE", "END"), symbols, m, 20);
      Read(after.ram, 256) == 1 && Read(after.ram, 0) == 255
  {
    var m := Machine(0, 0, map[0 := 258, 256 := 1, 257 := 2], 0);
    var symbols := map["SP" := 0, "TRUE" := 18, "END" := 22];
    var p := Compare("JGT", "TRUE", "END");
    assert Holds(p, 0, p);
    assert Code.JumpsOn("JGT", Signed(Wrap(2 - 1)));
    CompareRun(p, symbols, m, "JGT", "TRUE", "END");
  }

  /** The same `gt` on X = 1 and Y = 2, corrected: false (0) in cell 256 and SP at 257. */
  lemma IntendedCompareGreaterThan()
    ensures var m := Machine(0, 0, map[0 := 258, 256 := 1, 257 := 2], 0);
      var symbols := map["SP" := 0, "TRUE" := 18, "END" := 22];
      var after := Run(IntendedCompare("JGT", "TRUE", "END"), symbols, m, 21);
      Read(after.ram, 256) == 0 && Read(after.ram, 0) == 257
  {
    var m := Machine(0, 0, map[0 := 258, 256 := 1, 257 := 2], 0);
    var symbols := map["SP" := 0, "TRUE" := 18, "END" := 22];
    var p := IntendedCompare("JGT", "TRUE", "END");
    assert Holds(p, 0, p);
    assert !Code.JumpsOn("JGT", Signed(Wrap(1 - 2)));
    IntendedCompareRun(p, symbols, m, "JGT", "TRUE", "END");
  }
}
