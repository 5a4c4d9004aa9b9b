/**
 * The earlier assembler revision: its symbol table starts empty, and it
 * reads a command-line option letter.
 */
module LegacyAssembler {
  import opened AssemblerPasses
  import opened SymbolTables

  /** The command-line options: `o` and everything else. */
  datatype OptionType = Output | Unknown

  /** `OptionType(value:)`. */
  function OptionFor(value: string): (option: OptionType)
    ensures option == Output <==> value == "o"
    ensures option == Unknown <==> value != "o"
  {
    if value == "o" then Output else Unknown
  }

  /** `getOption(_:)`: the option the text names, with the text. */
  function GetOption(option: string): (r: (OptionType, string))
    ensures r.1 == option
    ensures r.0 == Output <==> option == "o"
  {
    (OptionFor(option), option)
  }

  /** `parse(input:)`: the first pass from an empty table, the second pass, then the output form. */
  method Parse(inputLines: seq<string>, debug: bool) returns (outputLines: seq<string>)
    requires |inputLines| > 0
    ensures outputLines == Assembled(map[], inputLines, debug)
  {
    var symbolTable := new SymbolTable.Empty();
    FirstPass(inputLines, symbolTable);
    var outputList := SecondPass(symbolTable, inputLines);
    outputLines := TransformForOutput(outputList, debug);
  }
}
