/**
 * The assembler's cursor over the lines of a source file: it starts on the
 * first command and moves forward over lines that are not commands.
 */
module AssemblyParser {
  import opened Wrappers
  import opened AssemblyLine
  import Cursor

  /** `inputLines.map({ Line($0) })`. */
  function Lines(inputLines: seq<string>): (lines: seq<Line>)
    ensures |lines| == |inputLines|
    ensures forall i :: 0 <= i < |inputLines| ==> lines[i] == Line(inputLines[i])
  {
    seq(|inputLines|, i requires 0 <= i < |inputLines| => Line(inputLines[i]))
  }

  /** Which lines are commands. */
  function Validity(lines: seq<Line>): (valid: seq<bool>)
    ensures |valid| == |lines|
    ensures forall i :: 0 <= i < |lines| ==> valid[i] == lines[i].IsValidCommand()
  {
    seq(|lines|, i requires 0 <= i < |lines| => lines[i].IsValidCommand())
  }

  class Parser {
    const lines: seq<Line>
    var currentIndex: nat

    predicate Valid()
      reads this
    {
      currentIndex < |lines|
    }

    /** Building the cursor on an empty file indexes `lines[0]` and traps, so a line is required. */
    constructor(inputLines: seq<string>)
      requires |inputLines| > 0
      ensures Valid()
      ensures lines == Lines(inputLines)
      ensures currentIndex == Cursor.StartIndex(Validity(lines))
    {
      lines := Lines(inputLines);
      new;
      currentIndex := 0;
      if !lines[0].IsValidCommand() {
        var next := NextValidCommandIndex();
        if next.Some? {
          currentIndex := next.value;
        }
      }
    }

    function CurrentLine(): Line
      reads this
      requires Valid()
    {
      lines[currentIndex]
    }

    /** The current command as text: the cleaned current line. */
    function CurrentCommand(): string
      reads this
      requires Valid()
    {
      CurrentLine().CleanLine()
    }

    function NextValidCommandIndex(): (r: Option<nat>)
      reads this
      ensures r == Cursor.NextValidIndex(Validity(lines), currentIndex)
    {
      Cursor.NextValidIndex(Validity(lines), currentIndex)
    }

    /** True exactly when some later line is a command. */
    predicate HasMoreCommands()
      reads this
      ensures HasMoreCommands() <==> exists j :: currentIndex < j < |lines| && Validity(lines)[j]
    {
      NextValidCommandIndex() != None
    }

    /** Move to the next command; calling it with none left is a fatal error, hence the precondition. */
    method Advance()
      requires Valid() && HasMoreCommands()
      modifies this
      ensures Valid()
      ensures old(currentIndex) < currentIndex
      ensures Validity(lines)[currentIndex]
      ensures forall j :: old(currentIndex) < j < currentIndex ==> !Validity(lines)[j]
    {
      currentIndex := NextValidCommandIndex().value;
    }

    function CommandType(): Option<CommandType>
      reads this
      requires Valid()
    {
      CurrentLine().CommandType()
    }

    function Symbol(): string
      reads this
      requires Valid()
    {
      CurrentLine().Symbol()
    }

    function Dest(): string
      reads this
      requires Valid()
    {
      CurrentLine().Dest()
    }

    function Comp(): string
      reads this
      requires Valid()
    {
      CurrentLine().Comp()
    }

    /** The comp field as the Hack syntax defines it, which the second pass encodes. */
    function CompField(): string
      reads this
      requires Valid()
    {
      CurrentLine().CompField()
    }

    function Jump(): string
      reads this
      requires Valid()
    {
      CurrentLine().Jump()
    }
  }
}
