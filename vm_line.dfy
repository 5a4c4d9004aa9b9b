/**
 * One line of a VM source file: the raw text, its 1-based line number, the
 * cleaned form and its classification by keyword.
 */
module VMLine {
  import opened Wrappers
  import opened Text

  /** The command kinds of the VM language. `If` exists but no keyword maps to it. */
  datatype CommandType = Arithmetic | Push | Pop | Label | Goto | If | Function | Return | Call

  const ArithmeticWords: set<string> := {"add", "sub", "neg", "eq", "gt", "lt", "and", "or", "not"}

  /** The keyword table of `commandType()`. */
  function Classify(word: string): Option<CommandType> {
    if word in ArithmeticWords then Some(Arithmetic)
    else if word == "push" then Some(Push)
    else if word == "pop" then Some(Pop)
    else if word == "label" then Some(Label)
    else if word == "goto" || word == "if-goto" then Some(Goto)
    else if word == "function" then Some(Function)
    else if word == "call" then Some(Call)
    else if word == "return" then Some(Return)
    else None
  }

  datatype Line = Line(original: string, lineNumber: nat) {

    /**
     * `original |> stripWhitespace |> stripComments`: every whitespace
     * character removed, then a `//.+` comment cut off.
     */
    function Cleaned(): (r: string)
      ensures NoWhitespace(r)
      ensures |r| <= |original|
    {
      StripComments(StripWhitespace(original))
    }

    /** The first space-separated piece of the cleaned line, looked up by keyword. */
    function CommandType(): Option<CommandType> {
      var pieces := Split(Cleaned(), ' ');
      if |pieces| == 0 then None else Classify(pieces[0])
    }

    predicate IsValidCommand() {
      CommandType() != None
    }
  }

  /** The keyword table in both directions; `If` is never produced. */
  lemma ClassifyTable(w: string)
    ensures Classify(w) == Some(Arithmetic) <==> w in ArithmeticWords
    ensures Classify(w) == Some(Push) <==> w == "push"
    ensures Classify(w) == Some(Pop) <==> w == "pop"
    ensures Classify(w) == Some(Label) <==> w == "label"
    ensures Classify(w) == Some(Goto) <==> w == "goto" || w == "if-goto"
    ensures Classify(w) == Some(Function) <==> w == "function"
    ensures Classify(w) == Some(Call) <==> w == "call"
    ensures Classify(w) == Some(Return) <==> w == "return"
    ensures Classify(w) != Some(If)
    ensures Classify(w) == None <==> w !in ArithmeticWords + {"push", "pop", "label", "goto", "if-goto", "function", "call", "return"}
  {
  }

  /**
   * The cleaned line holds no space, so splitting yields at most one piece and
   * the whole cleaned line is the keyword; an empty cleaned line is no command.
   */
  lemma ClassifiedByWholeLine(line: Line)
    ensures |Split(line.Cleaned(), ' ')| <= 1
    ensures line.CommandType() == if line.Cleaned() == [] then None else Classify(line.Cleaned())
  {
    var c := line.Cleaned();
    assert ' ' !in c;
    SplitWithoutSeparator(c, ' ');
  }

  /** Whitespace between three words disappears and the words are glued together. */
  lemma StripJoinsThreeWords(a: string, b: string, c: string)
    requires NoWhitespace(a) && NoWhitespace(b) && NoWhitespace(c)
    ensures StripWhitespace(a + " " + b + " " + c) == a + b + c
  {
    var sp := " ";
    assert StripWhitespace(sp) == [];
    var x1 := a + sp;
    StripWhitespaceAppend(a, sp);
    assert StripWhitespace(x1) == a;
    var x2 := x1 + b;
    StripWhitespaceAppend(x1, b);
    assert StripWhitespace(x2) == a + b;
    var x3 := x2 + sp;
    StripWhitespaceAppend(x2, sp);
    assert StripWhitespace(x3) == a + b;
    var x4 := x3 + c;
    StripWhitespaceAppend(x3, c);
    assert StripWhitespace(x4) == a + b + c;
  }

  /** No keyword begins with `push` or `pop` and goes on. */
  lemma LongerThanKeywordIsNone(keyword: string, rest: string)
    requires keyword == "push" || keyword == "pop"
    requires rest != []
    ensures Classify(keyword + rest) == None
  {
    var w := keyword + rest;
    assert w[0] == 'p' && w[1] == keyword[1];
    assert |w| > |keyword|;
  }

  /** Cleaning a push or pop written with two operands glues the three words together. */
  lemma CleanedGluesOperands(line: Line, keyword: string, segment: string, index: string)
    requires keyword == "push" || keyword == "pop"
    requires NoWhitespace(segment) && '/' !in segment
    requires NoWhitespace(index) && '/' !in index
    requires line.original == keyword + " " + segment + " " + index
    ensures line.Cleaned() == keyword + segment + index
  {
    StripJoinsThreeWords(keyword, segment, index);
    var glued := keyword + segment + index;
    assert '/' !in glued;
    NoSlashNoComment(glued, 0);
  }

  /** A cleaned line that starts with `push` or `pop` and goes on is no command. */
  lemma GluedKeywordIsNoCommand(line: Line, keyword: string, rest: string)
    requires keyword == "push" || keyword == "pop"
    requires rest != []
    requires line.Cleaned() == keyword + rest
    ensures line.CommandType() == None
  {
    ClassifiedByWholeLine(line);
    LongerThanKeywordIsNone(keyword, rest);
  }

  /**
   * So a push or pop written with its operands, the only form that could carry
   * arguments, is no command at all.
   */
  lemma OperandsMakeNoCommand(line: Line, keyword: string, segment: string, index: string)
    requires keyword == "push" || keyword == "pop"
    requires segment != [] && NoWhitespace(segment) && '/' !in segment
    requires NoWhitespace(index) && '/' !in index
    requires line.original == keyword + " " + segment + " " + index
    ensures line.CommandType() == None
  {
    CleanedGluesOperands(line, keyword, segment, index);
    var rest := segment + index;
    assert |rest| > 0;
    assert keyword + segment + index == keyword + rest;
    GluedKeywordIsNoCommand(line, keyword, rest);
  }
}
