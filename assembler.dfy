/**
 * The assembler revision whose symbol table starts with the predefined
 * symbols and R0 to R15.
 */
module HackAssembler {
  import opened AssemblerPasses
  import opened SymbolTables

  /** `parse(input:)`: the first pass, the second pass, then the output form. */
  method Parse(inputLines: seq<string>, debug: bool) returns (outputLines: seq<string>)
    requires |inputLines| > 0
    ensures outputLines == Assembled(InitialSymbols(), inputLines, debug)
  {
    var symbolTable := new SymbolTable.Predefined();
    FirstPass(inputLines, symbolTable);
    var outputList := SecondPass(symbolTable, inputLines);
    outputLines := TransformForOutput(outputList, debug);
  }
}
