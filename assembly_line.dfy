/**
 * One line of Hack assembly: the raw text, its cleaned form, its command kind
 * and the mnemonic fields the assembler reads from it. Each regular
 * expression of the original is written out as the string search it performs
 * (leftmost match, greedy repetition) on the cleaned line.
 */
module AssemblyLine {
  import opened Wrappers
  import opened Text

  /** A-, C- and pseudo-commands. */
  datatype CommandType = Address | Compute | Pseudo

  // -----------------------------------------------------------------------
  // The three classifying patterns

  /** `^\(.+\)$`: an opening and a closing parenthesis around at least one character. */
  predicate IsPseudoText(s: string) {
    |s| >= 3 && s[0] == '(' && s[|s| - 1] == ')'
  }

  /** `^\@.+$`: an at-sign followed by at least one character. */
  predicate IsAddressText(s: string) {
    |s| >= 2 && s[0] == '@'
  }

  /** `.+(=|;).+`: an `=` or a `;` with at least one character on each side. */
  predicate IsComputationText(s: string) {
    exists i :: 1 <= i < |s| - 1 && (s[i] == '=' || s[i] == ';')
  }

  /** The order of the tests in `commandType`: pseudo before address before computation. */
  function Classify(s: string): (r: Option<CommandType>)
    ensures r == Some(Pseudo) <==> IsPseudoText(s)
    ensures r == Some(Address) <==> !IsPseudoText(s) && IsAddressText(s)
    ensures r == Some(Compute) <==> !IsPseudoText(s) && !IsAddressText(s) && IsComputationText(s)
    ensures r == None <==> !IsPseudoText(s) && !IsAddressText(s) && !IsComputationText(s)
  {
    if IsPseudoText(s) then Some(Pseudo)
    else if IsAddressText(s) then Some(Address)
    else if IsComputationText(s) then Some(Compute)
    else None
  }

  // -----------------------------------------------------------------------
  // The field-extracting patterns

  /** `(.+)(?=;)`: from the start up to the last `;`, when at least one character precedes it. */
  function BeforeLastSemicolon(s: string): (r: Option<string>)
    ensures r.Some? ==> 0 < |r.value| < |s| && r.value == s[..|r.value|]
    ensures r.Some? ==> s[|r.value|] == ';' && ';' !in s[|r.value| + 1..]
    ensures r.None? <==> forall i :: 1 <= i < |s| ==> s[i] != ';'
  {
    match LastIndexOf(s, ';')
    case None => None
    case Some(k) =>
      if k == 0 then
        assert forall i :: 1 <= i < |s| ==> s[i] in s[1..];
        None
      else Some(s[..k])
  }

  /** `(?<=(=)).+`: everything after the first `=`, when at least one character follows it. */
  function AfterFirstEquals(s: string): (r: Option<string>)
    ensures r.Some? ==> 0 < |r.value| < |s| && r.value == s[|s| - |r.value|..]
    ensures r.Some? ==> s[|s| - |r.value| - 1] == '=' && '=' !in s[..|s| - |r.value| - 1]
    ensures r.None? <==> forall i :: 0 <= i < |s| - 1 ==> s[i] != '='
  {
    match IndexOf(s, '=')
    case None => None
    case Some(e) =>
      if e + 1 < |s| then Some(s[e + 1..])
      else
        assert forall i :: 0 <= i < e ==> s[i] in s[..e];
        None
  }

  /** From after the first `=` (or the start) to the last `;` (or the end). */
  function BetweenOperators(s: string): string {
    var start := match IndexOf(s, '=') case Some(e) => e + 1 case None => 0;
    var end := match LastIndexOf(s, ';') case Some(k) => k case None => |s|;
    if start <= end then s[start..end] else ""
  }

  /** The end of the run of word characters that starts at `p`. */
  function WordRunEnd(s: string, p: nat): (e: nat)
    requires p <= |s|
    decreases |s| - p
    ensures p <= e <= |s|
    ensures forall i :: p <= i < e ==> IsWordChar(s[i])
    ensures e == |s| || !IsWordChar(s[e])
  {
    if p == |s| || !IsWordChar(s[p]) then p else WordRunEnd(s, p + 1)
  }

  /** Where `(?<=;)\w+` matches first, searching from `from`: a word character just after a `;`. */
  function JumpStart(s: string, from: nat): (r: Option<nat>)
    requires from >= 1
    decreases |s| - from
    ensures r.Some? ==> from <= r.value < |s| && s[r.value - 1] == ';' && IsWordChar(s[r.value])
    ensures forall p :: from <= p < (if r.Some? then r.value else |s|) ==> !(s[p - 1] == ';' && IsWordChar(s[p]))
  {
    if from >= |s| then None
    else if s[from - 1] == ';' && IsWordChar(s[from]) then Some(from)
    else JumpStart(s, from + 1)
  }

  /** Whether `\w+(?=\=)` matches at `p`: the word run starting there is followed by `=`. */
  predicate DestMatchesAt(s: string, p: nat)
    requires p < |s|
  {
    IsWordChar(s[p]) && WordRunEnd(s, p) < |s| && s[WordRunEnd(s, p)] == '='
  }

  /** Where `\w+(?=\=)` matches first, searching from `from`. */
  function DestStart(s: string, from: nat): (r: Option<nat>)
    decreases |s| - from
    ensures r.Some? ==> from <= r.value < |s| && DestMatchesAt(s, r.value)
    ensures forall p :: from <= p < (if r.Some? then r.value else |s|) ==> !DestMatchesAt(s, p)
  {
    if from >= |s| then None
    else if DestMatchesAt(s, from) then Some(from)
    else DestStart(s, from + 1)
  }

  /** The text `(?<=;)\w+` matches, or nothing. */
  function JumpText(s: string): (r: string)
    ensures forall i :: 0 <= i < |r| ==> IsWordChar(r[i])
  {
    match JumpStart(s, 1)
    case None => ""
    case Some(p) => s[p..WordRunEnd(s, p)]
  }

  /** The text `\w+(?=\=)` matches, or nothing. */
  function DestText(s: string): (r: string)
    ensures forall i :: 0 <= i < |r| ==> IsWordChar(r[i])
  {
    match DestStart(s, 0)
    case None => ""
    case Some(p) => s[p..WordRunEnd(s, p)]
  }

  /** `(?<=\().+(?=\))`: from just after the first `(` to the last `)`, when something lies between. */
  function InsideParentheses(s: string): (r: Option<string>)
  {
    match (IndexOf(s, '('), LastIndexOf(s, ')'))
    case (Some(f), Some(l)) => if f + 1 < l then Some(s[f + 1..l]) else None
    case _ => None
  }

  // -----------------------------------------------------------------------
  // A line

  datatype Line = Line(rawLine: string) {

    /** `rawLine |> stripWhitespace |> stripComments`. */
    function CleanLine(): (r: string)
      ensures NoWhitespace(r)
    {
      StripComments(StripWhitespace(rawLine))
    }

    function CommandType(): Option<CommandType> {
      Classify(CleanLine())
    }

    predicate IsValidCommand() {
      CommandType() != None
    }

    /**
     * `comp()` as written: nothing unless a C-command; then the text before
     * the last `;`, or failing that the text after the first `=`.
     */
    function Comp(): (r: string)
      ensures CommandType() != Some(Compute) ==> r == ""
      ensures CommandType() == Some(Compute) ==> r != ""
    {
      if CommandType() != Some(Compute) then ""
      else
        var s := CleanLine();
        match BeforeLastSemicolon(s)
        case Some(c) => c
        case None =>
          match AfterFirstEquals(s)
          case Some(c) => c
          case None => ""
    }

    /** `jump()`: the word characters right after the first `;` that has one. */
    function Jump(): (r: string)
      ensures CommandType() != Some(Compute) ==> r == ""
      ensures forall i :: 0 <= i < |r| ==> IsWordChar(r[i])
    {
      if CommandType() != Some(Compute) then "" else JumpText(CleanLine())
    }

    /** `dest()`: the first whole run of word characters that is followed by `=`. */
    function Dest(): (r: string)
      ensures CommandType() != Some(Compute) ==> r == ""
      ensures forall i :: 0 <= i < |r| ==> IsWordChar(r[i])
    {
      if CommandType() != Some(Compute) then "" else DestText(CleanLine())
    }

    /**
     * `symbol()`: an A-command without its at-signs, the text inside a
     * pseudo-command's parentheses, and nothing for any other line.
     */
    function Symbol(): (r: string)
      ensures CommandType() == None || CommandType() == Some(Compute) ==> r == ""
      ensures CommandType() == Some(Address) ==> '@' !in r
      ensures CommandType() == Some(Pseudo) ==> r == CleanLine()[1..|CleanLine()| - 1]
    {
      match CommandType()
      case None => ""
      case Some(kind) =>
        match kind
        case Address => Without(CleanLine(), '@')
        case Pseudo =>
          var s := CleanLine();
          assert IndexOf(s, '(') == Some(0);
          assert LastIndexOf(s, ')') == Some(|s| - 1);
          (match InsideParentheses(s)
           case Some(inner) => inner
           case None => s)
        case Compute => ""
    }

    /**
     * The comp field the format intends: after the first `=` if there is one,
     * up to the last `;` if there is one.
     */
    function CompField(): (r: string)
      ensures CommandType() != Some(Compute) ==> r == ""
    {
      if CommandType() != Some(Compute) then "" else BetweenOperators(CleanLine())
    }
  }

  // -----------------------------------------------------------------------
  // Writing a C-command and reading it back

  /** The characters of the comp mnemonics: letters, digits and the operators `+ - ! & |`. */
  predicate IsCompChar(c: char) {
    ('A' <= c <= 'Z') || ('0' <= c <= '9') || c == '+' || c == '-' || c == '!' || c == '&' || c == '|'
  }

  predicate IsWord(s: string) {
    forall i :: 0 <= i < |s| ==> IsWordChar(s[i])
  }

  /** `dest=comp;jump`, leaving out `dest=` or `;jump` when that field is empty. */
  function CCommandLine(dest: string, comp: string, jump: string): (r: string)
    ensures |r| >= |comp|
  {
    (if dest == [] then "" else dest + "=") + comp + (if jump == [] then "" else ";" + jump)
  }

  /** A well-formed C-command: word fields around a comp mnemonic, with a dest or a jump present. */
  predicate WellFormedCCommand(dest: string, comp: string, jump: string) {
    IsWord(dest) && IsWord(jump) && (dest != [] || jump != [])
    && comp != [] && forall i :: 0 <= i < |comp| ==> IsCompChar(comp[i])
  }

  /** Where each character of a written C-command comes from. */
  lemma CCommandLayout(dest: string, comp: string, jump: string)
    requires WellFormedCCommand(dest, comp, jump)
    ensures var s := CCommandLine(dest, comp, jump);
      var a := if dest == [] then 0 else |dest| + 1;
      var b := a + |comp|;
      && |s| == b + (if jump == [] then 0 else |jump| + 1)
      && (forall i :: 0 <= i < |dest| ==> s[i] == dest[i])
      && (dest != [] ==> s[|dest|] == '=')
      && (forall i :: a <= i < b ==> s[i] == comp[i - a])
      && (jump != [] ==> s[b] == ';')
      && (forall i :: b < i < |s| ==> s[i] == jump[i - b - 1])
  {
  }

  /** A written C-command has no whitespace and no slash, so cleaning leaves it as it is. */
  lemma CCommandIsClean(dest: string, comp: string, jump: string)
    requires WellFormedCCommand(dest, comp, jump)
    ensures Line(CCommandLine(dest, comp, jump)).CleanLine() == CCommandLine(dest, comp, jump)
  {
    var s := CCommandLine(dest, comp, jump);
    CCommandLayout(dest, comp, jump);
    assert forall i :: 0 <= i < |s| ==> IsWordChar(s[i]) || IsCompChar(s[i]) || s[i] == '=' || s[i] == ';';
    assert NoWhitespace(s);
    assert '/' !in s;
    NoSlashNoComment(s, 0);
  }

  /** A written C-command classifies as a C-command, with its operators only where they were written. */
  lemma CCommandShape(dest: string, comp: string, jump: string)
    requires WellFormedCCommand(dest, comp, jump)
    ensures var s := CCommandLine(dest, comp, jump);
      var b := (if dest == [] then 0 else |dest| + 1) + |comp|;
      && Line(s).CleanLine() == s
      && Line(s).CommandType() == Some(Compute)
      && (forall i :: 0 <= i < |s| && s[i] == '=' ==> dest != [] && i == |dest|)
      && (forall i :: 0 <= i < |s| && s[i] == ';' ==> jump != [] && i == b)
  {
    CCommandClassified(dest, comp, jump);
    CCommandSeparators(dest, comp, jump);
  }

  /** A written C-command is clean and classifies as a C-command. */
  lemma CCommandClassified(dest: string, comp: string, jump: string)
    requires WellFormedCCommand(dest, comp, jump)
    ensures Line(CCommandLine(dest, comp, jump)).CleanLine() == CCommandLine(dest, comp, jump)
    ensures Line(CCommandLine(dest, comp, jump)).CommandType() == Some(Compute)
  {
    var s := CCommandLine(dest, comp, jump);
    CCommandIsClean(dest, comp, jump);
    CCommandLayout(dest, comp, jump);
    var a := if dest == [] then 0 else |dest| + 1;
    var b := a + |comp|;
    assert s[0] != '(' && s[0] != '@';
    if dest != [] {
      assert 1 <= |dest| < |s| - 1 && s[|dest|] == '=';
    } else {
      assert 1 <= b < |s| - 1 && s[b] == ';';
    }
  }

  /** The `=` and the `;` of a written C-command appear only where they were written. */
  lemma CCommandSeparators(dest: string, comp: string, jump: string)
    requires WellFormedCCommand(dest, comp, jump)
    ensures var s := CCommandLine(dest, comp, jump);
      var b := (if dest == [] then 0 else |dest| + 1) + |comp|;
      && (forall i :: 0 <= i < |s| && s[i] == '=' ==> dest != [] && i == |dest|)
      && (forall i :: 0 <= i < |s| && s[i] == ';' ==> jump != [] && i == b)
  {
    CCommandLayout(dest, comp, jump);
  }

  lemma CCommandDest(dest: string, comp: string, jump: string)
    requires WellFormedCCommand(dest, comp, jump)
    ensures Line(CCommandLine(dest, comp, jump)).Dest() == dest
  {
    var s := CCommandLine(dest, comp, jump);
    CCommandShape(dest, comp, jump);
    CCommandLayout(dest, comp, jump);
    var a := if dest == [] then 0 else |dest| + 1;
    DestFields(s, dest, a, a + |comp|);
  }

  lemma CCommandJump(dest: string, comp: string, jump: string)
    requires WellFormedCCommand(dest, comp, jump)
    ensures Line(CCommandLine(dest, comp, jump)).Jump() == jump
  {
    var s := CCommandLine(dest, comp, jump);
    CCommandClassified(dest, comp, jump);
    CCommandJumpText(dest, comp, jump);
    assert Line(s).Jump() == JumpText(s);
  }

  /** The jump the regular expression finds in a written C-command is the one written. */
  lemma CCommandJumpText(dest: string, comp: string, jump: string)
    requires WellFormedCCommand(dest, comp, jump)
    ensures JumpText(CCommandLine(dest, comp, jump)) == jump
  {
    CCommandSeparators(dest, comp, jump);
    CCommandTail(dest, comp, jump);
    var a := if dest == [] then 0 else |dest| + 1;
    JumpFields(CCommandLine(dest, comp, jump), jump, a + |comp|);
  }

  /** The end of a written C-command: the `;` and the jump after it. */
  lemma CCommandTail(dest: string, comp: string, jump: string)
    requires WellFormedCCommand(dest, comp, jump)
    ensures var s := CCommandLine(dest, comp, jump);
      var b := (if dest == [] then 0 else |dest| + 1) + |comp|;
      && |s| == b + (if jump == [] then 0 else |jump| + 1)
      && (jump != [] ==> s[b] == ';')
      && (forall i :: b < i < |s| ==> s[i] == jump[i - b - 1])
  {
    CCommandLayout(dest, comp, jump);
  }

  /** Where the operators of a written C-command sit and how long it is. */
  lemma CCommandOperators(dest: string, comp: string, jump: string)
    requires WellFormedCCommand(dest, comp, jump)
    ensures var s := CCommandLine(dest, comp, jump);
      var b := (if dest == [] then 0 else |dest| + 1) + |comp|;
      && |s| == b + (if jump == [] then 0 else |jump| + 1)
      && (dest != [] ==> s[|dest|] == '=')
      && (jump != [] ==> s[b] == ';')
  {
    CCommandLayout(dest, comp, jump);
  }

  lemma CCommandComp(dest: string, comp: string, jump: string)
    requires WellFormedCCommand(dest, comp, jump)
    ensures Line(CCommandLine(dest, comp, jump)).Comp() == if dest != [] && jump != [] then dest + "=" + comp else comp
  {
    var s := CCommandLine(dest, comp, jump);
    CCommandShape(dest, comp, jump);
    CCommandOperators(dest, comp, jump);
    var a := if dest == [] then 0 else |dest| + 1;
    CompFields(s, dest, comp, jump, a, a + |comp|);
  }

  lemma CCommandCompField(dest: string, comp: string, jump: string)
    requires WellFormedCCommand(dest, comp, jump)
    ensures Line(CCommandLine(dest, comp, jump)).CompField() == comp
  {
    var s := CCommandLine(dest, comp, jump);
    CCommandShape(dest, comp, jump);
    CCommandOperators(dest, comp, jump);
    var a := if dest == [] then 0 else |dest| + 1;
    CompFields(s, dest, comp, jump, a, a + |comp|);
  }

  /**
   * Reading the fields back from a written C-command: dest, jump and the
   * intended comp field come back; `Comp` as written glues the dest to the
   * comp when both a dest and a jump are present.
   */
  lemma CCommandFields(dest: string, comp: string, jump: string)
    requires WellFormedCCommand(dest, comp, jump)
    ensures var line := Line(CCommandLine(dest, comp, jump));
      && line.CommandType() == Some(Compute)
      && line.Dest() == dest
      && line.Jump() == jump
      && line.CompField() == comp
      && line.Comp() == if dest != [] && jump != [] then dest + "=" + comp else comp
  {
    CCommandShape(dest, comp, jump);
    CCommandDest(dest, comp, jump);
    CCommandJump(dest, comp, jump);
    CCommandComp(dest, comp, jump);
    CCommandCompField(dest, comp, jump);
  }

  lemma DestFields(s: string, dest: string, a: nat, b: nat)
    requires IsWord(dest) && a == (if dest == [] then 0 else |dest| + 1) && a < b <= |s|
    requires forall i :: 0 <= i < |dest| ==> s[i] == dest[i]
    requires dest != [] ==> s[|dest|] == '='
    requires forall i :: 0 <= i < |s| && s[i] == '=' ==> dest != [] && i == |dest|
    ensures DestText(s) == dest
  {
    if dest != [] {
      assert WordRunEnd(s, 0) == |dest|;
      assert DestMatchesAt(s, 0);
      assert DestStart(s, 0) == Some(0);
      assert s[0..|dest|] == dest;
    }
  }

  lemma JumpFields(s: string, jump: string, b: nat)
    requires IsWord(jump) && 1 <= b < |s| + (if jump == [] then 1 else 0)
    requires |s| == b + (if jump == [] then 0 else |jump| + 1)
    requires jump != [] ==> s[b] == ';'
    requires forall i :: b < i < |s| ==> s[i] == jump[i - b - 1]
    requires forall i :: 0 <= i < |s| && s[i] == ';' ==> jump != [] && i == b
    ensures JumpText(s) == jump
  {
    if jump != [] {
      assert s[b + 1] == jump[0];
      assert JumpStart(s, 1) == Some(b + 1);
      assert WordRunEnd(s, b + 1) == |s|;
      assert s[b + 1..] == jump;
    }
  }

  lemma CompFields(s: string, dest: string, comp: string, jump: string, a: nat, b: nat)
    requires WellFormedCCommand(dest, comp, jump)
    requires s == CCommandLine(dest, comp, jump)
    requires a == (if dest == [] then 0 else |dest| + 1) && b == a + |comp|
    requires |s| == b + (if jump == [] then 0 else |jump| + 1)
    requires forall i :: 0 <= i < |s| && s[i] == '=' ==> dest != [] && i == |dest|
    requires forall i :: 0 <= i < |s| && s[i] == ';' ==> jump != [] && i == b
    requires dest != [] ==> s[|dest|] == '='
    requires jump != [] ==> s[b] == ';'
    ensures (match BeforeLastSemicolon(s)
             case Some(c) => c
             case None => (match AfterFirstEquals(s) case Some(c) => c case None => ""))
      == if dest != [] && jump != [] then dest + "=" + comp else comp
    ensures BetweenOperators(s) == comp
  {
    var P := if dest == [] then "" else dest + "=";
    var J := if jump == [] then "" else ";" + jump;
    assert s == P + comp + J;
    assert s[..a] == P;
    assert s[a..b] == comp;
    if jump != [] {
      assert LastIndexOf(s, ';') == Some(b);
      assert BeforeLastSemicolon(s) == Some(s[..b]);
      assert s[..b] == P + comp;
    } else {
      assert LastIndexOf(s, ';') == None;
      assert BeforeLastSemicolon(s) == None;
      assert IndexOf(s, '=') == Some(|dest|);
      assert AfterFirstEquals(s) == Some(s[a..]);
      assert s[a..] == comp;
    }
    if dest != [] {
      assert IndexOf(s, '=') == Some(|dest|);
    } else {
      assert IndexOf(s, '=') == None;
    }
  }

  /**
   * The comp field of `D=M;JGT` as written is `D=M`: a C-command with both a
   * dest and a jump is read with the dest glued to its comp.
   */
  lemma CompGluesDestWhenJumpPresent()
    ensures Line("D=M;JGT").Comp() == "D=M"
    ensures Line("D=M;JGT").CompField() == "M"
  {
    assert WellFormedCCommand("D", "M", "JGT");
    assert CCommandLine("D", "M", "JGT") == "D=M;JGT";
    CCommandComp("D", "M", "JGT");
    CCommandCompField("D", "M", "JGT");
  }

  /** A pseudo-command's symbol is the text between its parentheses. */
  lemma PseudoSymbol(name: string)
    requires name != [] && NoWhitespace(name) && '/' !in name
    ensures Line("(" + name + ")").CommandType() == Some(Pseudo)
    ensures Line("(" + name + ")").Symbol() == name
  {
    var s := "(" + name + ")";
    assert NoWhitespace(s);
    assert '/' !in s;
    NoSlashNoComment(s, 0);
    assert s[1..|s| - 1] == name;
  }

  /** An A-command's symbol is the text after the at-sign, when that text has none. */
  lemma AddressSymbol(symbol: string)
    requires symbol != [] && NoWhitespace(symbol) && '/' !in symbol && '@' !in symbol
    ensures Line("@" + symbol).CommandType() == Some(Address)
    ensures Line("@" + symbol).Symbol() == symbol
  {
    var s := "@" + symbol;
    assert NoWhitespace(s);
    assert '/' !in s;
    NoSlashNoComment(s, 0);
    assert s[1..] == symbol;
    assert Without(s, '@') == Without(s[1..], '@');
  }
}
