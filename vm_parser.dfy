/**
 * The VM source cursor: the numbered lines of one file and the index of the
 * current one, moved forward over lines that are not commands.
 */
module VMParser {
  import opened Wrappers
  import opened Text
  import opened VMLine
  import Cursor

  /** Line `i` of the input becomes a `Line` numbered `i + 1`. */
  function Numbered(inputLines: seq<string>): (lines: seq<Line>)
    ensures |lines| == |inputLines|
    ensures forall i :: 0 <= i < |inputLines| ==> lines[i] == Line(inputLines[i], i + 1)
  {
    seq(|inputLines|, i requires 0 <= i < |inputLines| => Line(inputLines[i], i + 1))
  }

  /** Which lines are commands. */
  function Validity(lines: seq<Line>): (valid: seq<bool>)
    ensures |valid| == |lines|
    ensures forall i :: 0 <= i < |lines| ==> valid[i] == lines[i].IsValidCommand()
  {
    seq(|lines|, i requires 0 <= i < |lines| => lines[i].IsValidCommand())
  }

  /** The second space-separated piece of the cleaned line, if there is one. */
  function FirstArgument(line: Line): (r: Option<string>)
    ensures r == None <==> |Split(line.Cleaned(), ' ')| <= 1
    ensures r.Some? ==> r.value == Split(line.Cleaned(), ' ')[1]
  {
    var pieces := Split(line.Cleaned(), ' ');
    if |pieces| <= 1 then None else Some(pieces[1])
  }

  /** The third piece read as an `Int`, if there is one and it is a number. */
  function SecondArgument(line: Line): (r: Option<int>)
    ensures |Split(line.Cleaned(), ' ')| <= 2 ==> r == None
    ensures |Split(line.Cleaned(), ' ')| > 2 ==> r == ParseInt(Split(line.Cleaned(), ' ')[2])
  {
    var pieces := Split(line.Cleaned(), ' ');
    if |pieces| <= 2 then None else ParseInt(pieces[2])
  }

  /** The cleaned line holds no space, so neither argument is ever found. */
  lemma NoArgumentsInAnyLine(line: Line)
    ensures FirstArgument(line) == None && SecondArgument(line) == None
  {
    ClassifiedByWholeLine(line);
  }

  class Parser {
    const lines: seq<Line>
    var currentIndex: nat

    predicate Valid()
      reads this
    {
      currentIndex < |lines|
    }

    /** Building the cursor on an empty file indexes `lines[0]` and traps, so a line is required. */
    constructor(inputLines: seq<string>)
      requires |inputLines| > 0
      ensures Valid()
      ensures lines == Numbered(inputLines)
      ensures currentIndex == Cursor.StartIndex(Validity(lines))
    {
      lines := Numbered(inputLines);
      new;
      currentIndex := 0;
      if !lines[0].IsValidCommand() {
        var next := NextValidCommandIndex();
        if next.Some? {
          currentIndex := next.value;
        }
      }
    }

    function CurrentLine(): Line
      reads this
      requires Valid()
    {
      lines[currentIndex]
    }

    /** The current command as text: the cleaned current line. */
    function CurrentCommand(): (r: string)
      reads this
      requires Valid()
      ensures NoWhitespace(r)
    {
      CurrentLine().Cleaned()
    }

    function NextValidCommandIndex(): (r: Option<nat>)
      reads this
      ensures r == Cursor.NextValidIndex(Validity(lines), currentIndex)
    {
      Cursor.NextValidIndex(Validity(lines), currentIndex)
    }

    /** True exactly when some later line is a command. */
    predicate HasMoreCommands()
      reads this
      ensures HasMoreCommands() <==> exists j :: currentIndex < j < |lines| && Validity(lines)[j]
    {
      NextValidCommandIndex() != None
    }

    /** Move to the next command; calling it with none left is a fatal error, hence the precondition. */
    method Advance()
      requires Valid() && HasMoreCommands()
      modifies this
      ensures Valid()
      ensures old(currentIndex) < currentIndex
      ensures Validity(lines)[currentIndex]
      ensures forall j :: old(currentIndex) < j < currentIndex ==> !Validity(lines)[j]
    {
      currentIndex := NextValidCommandIndex().value;
    }

    function CommandType(): Option<VMLine.CommandType>
      reads this
      requires Valid()
    {
      CurrentLine().CommandType()
    }

    /** The first argument of the current command. */
    function Arg1(): Option<string>
      reads this
      requires Valid()
    {
      FirstArgument(CurrentLine())
    }

    /** The second argument of the current command. */
    function Arg2(): Option<int>
      reads this
      requires Valid()
    {
      SecondArgument(CurrentLine())
    }
  }
}
