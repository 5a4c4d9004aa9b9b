/**
 * The assembler's symbol table: names mapped to addresses. One revision
 * starts from the predefined symbols and the registers R0 to R15, the other
 * starts empty; adding an entry and looking one up are the same in both.
 */
module SymbolTables {
  import opened Wrappers
  import opened Text

  /** The predefined pointers and I/O maps. */
  const PredefinedSymbols: map<string, int> := map[
    "SP" := 0, "LCL" := 1, "ARG" := 2, "THIS" := 3, "THAT" := 4,
    "SCREEN" := 16384, "KBD" := 24576]

  /** `"R\(i)"`. */
  function RegisterName(i: nat): (name: string)
    ensures |name| > 1 && name[0] == 'R'
  {
    "R" + NatToString(i)
  }

  /** The table after the first `count` rounds of the loop that adds the registers. */
  function Seeded(count: nat): map<string, int> {
    if count == 0 then PredefinedSymbols
    else Seeded(count - 1)[RegisterName(count - 1) := count - 1]
  }

  /** The table a fresh pre-seeded `SymbolTable` holds. */
  function InitialSymbols(): map<string, int> {
    Seeded(16)
  }

  lemma RegisterNamesDiffer(i: nat, j: nat)
    requires i != j
    ensures RegisterName(i) != RegisterName(j)
  {
    if RegisterName(i) == RegisterName(j) {
      assert NatToString(i) == RegisterName(i)[1..];
      assert NatToString(j) == RegisterName(j)[1..];
      NatToStringInjective(i, j);
    }
  }

  /** No register name is a predefined name: those do not start with `R`. */
  lemma RegisterNotPredefined(i: nat)
    ensures RegisterName(i) !in PredefinedSymbols
  {
  }

  /**
   * After `count` rounds: every register below `count` maps to its number,
   * every predefined symbol keeps its address, and nothing else is present.
   */
  lemma {:induction false} SeededContents(count: nat)
    ensures forall i :: 0 <= i < count ==> RegisterName(i) in Seeded(count) && Seeded(count)[RegisterName(i)] == i
    ensures forall name :: name in PredefinedSymbols ==> name in Seeded(count) && Seeded(count)[name] == PredefinedSymbols[name]
    ensures forall name :: name in Seeded(count) ==> name in PredefinedSymbols || exists i :: 0 <= i < count && name == RegisterName(i)
  {
    if count > 0 {
      SeededContents(count - 1);
      RegisterNotPredefined(count - 1);
      forall i | 0 <= i < count - 1
        ensures RegisterName(i) != RegisterName(count - 1)
      {
        RegisterNamesDiffer(i, count - 1);
      }
    }
  }

  /** The pre-seeded table: SP to THAT are 0 to 4, SCREEN is 16384, KBD is 24576, and R0 to R15 are 0 to 15. */
  lemma InitialSymbolsContents()
    ensures forall name :: name in PredefinedSymbols ==> name in InitialSymbols() && InitialSymbols()[name] == PredefinedSymbols[name]
    ensures forall i :: 0 <= i < 16 ==> RegisterName(i) in InitialSymbols() && InitialSymbols()[RegisterName(i)] == i
    ensures forall name :: name in InitialSymbols() ==> name in PredefinedSymbols || exists i :: 0 <= i < 16 && name == RegisterName(i)
  {
    SeededContents(16);
  }

  class SymbolTable {
    var symbols: map<string, int>

    /** The pre-seeded revision: the predefined symbols, then R0 to R15 one by one. */
    constructor Predefined()
      ensures symbols == InitialSymbols()
    {
      symbols := PredefinedSymbols;
      new;
      for i := 0 to 16
        invariant symbols == Seeded(i)
      {
        symbols := symbols[RegisterName(i) := i];
      }
    }

    /** The revision that starts with no symbol. */
    constructor Empty()
      ensures symbols == map[]
    {
      symbols := map[];
    }

    /** `var symbolTable = other`: the table is a value, so the copy is independent of the original. */
    constructor Copy(other: SymbolTable)
      ensures symbols == other.symbols
    {
      symbols := other.symbols;
    }

    /** `updateValue(_:forKey:)`: add the entry, or replace the address of an existing one. */
    method AddEntry(symbol: string, address: int)
      modifies this
      ensures symbols == old(symbols)[symbol := address]
    {
      symbols := symbols[symbol := address];
    }

    function GetAddress(symbol: string): (r: Option<int>)
      reads this
      ensures r.Some? <==> symbol in symbols
      ensures r.Some? ==> r.value == symbols[symbol]
    {
      if symbol in symbols then Some(symbols[symbol]) else None
    }

    /** `contains(where:)` over the entries: whether some key is the symbol. */
    predicate Contains(symbol: string)
      reads this
      ensures Contains(symbol) <==> GetAddress(symbol).Some?
    {
      exists key :: key in symbols && key == symbol
    }
  }

  /** Adding an entry makes the symbol map to the address and leaves every other symbol alone. */
  lemma AddEntryEffect(symbols: map<string, int>, symbol: string, address: int, other: string)
    requires other != symbol
    ensures symbol in symbols[symbol := address] && symbols[symbol := address][symbol] == address
    ensures (other in symbols[symbol := address] <==> other in symbols)
    ensures other in symbols ==> symbols[symbol := address][other] == symbols[other]
  {
  }
}
