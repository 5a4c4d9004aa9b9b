/**
 * The Hack instruction fields: the dest, jump and comp mnemonic tables with
 * their defaults, and the 15-bit address field of an A-instruction.
 */
module Code {
  import opened Utils

  predicate IsBinary(s: string) {
    forall i :: 0 <= i < |s| ==> s[i] == '0' || s[i] == '1'
  }

  const DestMappings: map<string, string> := map[
    "M" := "001", "D" := "010", "MD" := "011", "A" := "100",
    "AM" := "101", "AD" := "110", "AMD" := "111"]

  const JumpMappings: map<string, string> := map[
    "JGT" := "001", "JEQ" := "010", "JGE" := "011", "JLT" := "100",
    "JNE" := "101", "JLE" := "110", "JMP" := "111"]

  const CompMappings: map<string, string> := map[
    // a = 0
    "0" := "0101010", "1" := "0111111", "-1" := "0111010", "D" := "0001100",
    "A" := "0110000", "!D" := "0001101", "!A" := "0110001", "-D" := "0001111",
    "-A" := "0110011", "D+1" := "0011111", "A+1" := "0110111", "D-1" := "0001110",
    "A-1" := "0110010", "D+A" := "0000010", "D-A" := "0010011", "A-D" := "0000111",
    "D&A" := "0000000", "D|A" := "0010101",
    // a = 1
    "M" := "1110000", "!M" := "1110001", "-M" := "1110011", "M+1" := "1110111",
    "M-1" := "1110010", "D+M" := "1000010", "D-M" := "1010011", "M-D" := "1000111",
    "D&M" := "1000000", "D|M" := "1010101"]

  /** `dest(mnemonic:)`: the table entry, or `000` (store nowhere). */
  function Dest(mnemonic: string): (r: string)
    ensures |r| == 3 && IsBinary(r)
    ensures mnemonic !in DestMappings ==> r == "000"
  {
    if mnemonic in DestMappings then DestMappings[mnemonic] else "000"
  }

  /** `jump(mnemonic:)`: the table entry, or `000` (never jump). */
  function Jump(mnemonic: string): (r: string)
    ensures |r| == 3 && IsBinary(r)
    ensures mnemonic !in JumpMappings ==> r == "000"
  {
    if mnemonic in JumpMappings then JumpMappings[mnemonic] else "000"
  }

  /** `comp(mnemonic:)`: the table entry, or the code of `0`. */
  function Comp(mnemonic: string): (r: string)
    ensures |r| == 7 && IsBinary(r)
    ensures mnemonic !in CompMappings ==> r == CompMappings["0"]
  {
    if mnemonic in CompMappings then CompMappings[mnemonic] else "0101010"
  }

  /** Each dest bit names one register: A, then D, then M. */
  lemma DestBitsNameRegisters(mnemonic: string)
    requires mnemonic in DestMappings
    ensures Dest(mnemonic)[0] == '1' <==> 'A' in mnemonic
    ensures Dest(mnemonic)[1] == '1' <==> 'D' in mnemonic
    ensures Dest(mnemonic)[2] == '1' <==> 'M' in mnemonic
  {
  }

  /** The jump mnemonics' meaning: whether to jump on a computed value `v`. */
  predicate JumpsOn(mnemonic: string, v: int)
    requires mnemonic in JumpMappings
  {
    match mnemonic
    case "JGT" => v > 0
    case "JEQ" => v == 0
    case "JGE" => v >= 0
    case "JLT" => v < 0
    case "JNE" => v != 0
    case "JLE" => v <= 0
    case _ => true
  }

  /** Each jump bit says whether to jump on a negative, a zero and a positive value. */
  lemma JumpBitsMatchConditions(mnemonic: string)
    requires mnemonic in JumpMappings
    ensures Jump(mnemonic)[0] == '1' <==> JumpsOn(mnemonic, -1)
    ensures Jump(mnemonic)[1] == '1' <==> JumpsOn(mnemonic, 0)
    ensures Jump(mnemonic)[2] == '1' <==> JumpsOn(mnemonic, 1)
  {
  }

  /** The `a` bit of a comp code selects M instead of A: it is set exactly for the forms that read M. */
  lemma CompABitSelectsMemory(mnemonic: string)
    requires mnemonic in CompMappings
    ensures Comp(mnemonic)[0] == '1' <==> 'M' in mnemonic
  {
  }

  // -----------------------------------------------------------------------
  // Addresses

  function Bit(b: nat): (c: char)
    requires b < 2
  {
    if b == 0 then '0' else '1'
  }

  /** `String(n, radix: 2)` for `n >= 0`: the binary digits without leading zeros. */
  function BinaryDigits(n: nat): (r: string)
    ensures |r| > 0 && IsBinary(r)
  {
    if n < 2 then [Bit(n)] else BinaryDigits(n / 2) + [Bit(n % 2)]
  }

  /** `String(n, radix: 2)`: a minus sign before the digits of a negative value. */
  function BinaryString(n: int): (r: string)
    ensures |r| > 0
  {
    if n < 0 then "-" + BinaryDigits(-n) else BinaryDigits(n)
  }

  /** `address(_:)`: the binary form padded with zeros, or cut, to 15 characters. */
  function Address(addr: int): (r: string)
    ensures |r| == 15
  {
    LeftPadding(BinaryString(addr), 15, '0')
  }

  function Pow2(k: nat): (p: nat)
    ensures p >= 1
  {
    if k == 0 then 1 else 2 * Pow2(k - 1)
  }

  /** The number a string of binary digits denotes, most significant first. */
  function BinaryValue(s: string): (v: nat)
    requires IsBinary(s)
    ensures v < Pow2(|s|)
  {
    if s == [] then 0 else 2 * BinaryValue(s[..|s| - 1]) + (if s[|s| - 1] == '1' then 1 else 0)
  }

  lemma {:induction false} BinaryDigitsValue(n: nat)
    ensures BinaryValue(BinaryDigits(n)) == n
  {
    if n >= 2 {
      BinaryDigitsValue(n / 2);
      var r := BinaryDigits(n);
      assert r[..|r| - 1] == BinaryDigits(n / 2);
    }
  }

  lemma {:induction false} BinaryValueAppend(a: string, b: string)
    requires IsBinary(a) && IsBinary(b)
    ensures IsBinary(a + b)
    ensures BinaryValue(a + b) == BinaryValue(a) * Pow2(|b|) + BinaryValue(b)
    decreases |b|
  {
    BinaryConcat(a, b);
    if b == [] {
      assert a + b == a;
    } else {
      var front := b[..|b| - 1];
      var last := if b[|b| - 1] == '1' then 1 else 0;
      BinaryConcat(a, front);
      LastDigit(a + b, a + front, b[|b| - 1]);
      LastDigit(b, front, b[|b| - 1]);
      BinaryValueAppend(a, front);
      DoublingRegroups(BinaryValue(a), BinaryValue(front), Pow2(|front|), last);
    }
  }

  lemma BinaryConcat(a: string, b: string)
    requires IsBinary(a) && IsBinary(b)
    ensures IsBinary(a + b)
  {
  }

  /** The value of a binary string is twice the value of its front plus its last digit. */
  lemma LastDigit(s: string, front: string, c: char)
    requires IsBinary(s) && s == front + [c]
    ensures IsBinary(front)
    ensures BinaryValue(s) == 2 * BinaryValue(front) + (if c == '1' then 1 else 0)
  {
    assert s[..|s| - 1] == front;
  }

  lemma DoublingRegroups(va: int, vf: int, p: int, last: int)
    ensures 2 * (va * p + vf) + last == va * (2 * p) + (2 * vf + last)
  {
  }

  lemma {:induction false} ZerosValue(k: nat)
    ensures IsBinary(Repeat('0', k)) && BinaryValue(Repeat('0', k)) == 0
  {
    if k > 0 {
      var z := Repeat('0', k);
      assert z[..k - 1] == Repeat('0', k - 1);
      ZerosValue(k - 1);
    }
  }

  lemma ModOfSplit(n: nat, q: nat, r: nat, m: nat)
    requires m > 0 && r < m && n == q * m + r
    ensures n % m == r
  {
    var q', r' := n / m, n % m;
    assert n == q' * m + r' && 0 <= r' < m;
    assert (q - q') * m == r' - r;
    if q > q' {
      MultipleAtLeast(q - q', m);
    } else if q < q' {
      MultipleAtLeast(q' - q, m);
    }
  }

  lemma MultipleAtLeast(k: int, m: nat)
    requires k >= 1
    ensures k * m >= m
  {
  }

  /**
   * The address field of a non-negative address is its value modulo 2^15:
   * below 2^15 it reads back as the address itself, above it only the last
   * 15 binary digits are kept.
   */
  lemma AddressValue(n: nat)
    ensures IsBinary(Address(n))
    ensures BinaryValue(Address(n)) == n % Pow2(15)
  {
    if |BinaryDigits(n)| < 15 {
      ShortAddressValue(n);
    } else {
      LongAddressValue(n);
    }
  }

  lemma ShortAddressValue(n: nat)
    requires |BinaryDigits(n)| < 15
    ensures IsBinary(Address(n))
    ensures BinaryValue(Address(n)) == n % Pow2(15)
  {
    var d := BinaryDigits(n);
    BinaryDigitsValue(n);
    var zeros := Repeat('0', 15 - |d|);
    ZerosValue(15 - |d|);
    BinaryValueAppend(zeros, d);
    assert Address(n) == zeros + d;
    PowMonotone(|d|, 15);
    ModOfSplit(n, 0, n, Pow2(15));
  }

  lemma LongAddressValue(n: nat)
    requires |BinaryDigits(n)| >= 15
    ensures IsBinary(Address(n))
    ensures BinaryValue(Address(n)) == n % Pow2(15)
  {
    var d := BinaryDigits(n);
    BinaryDigitsValue(n);
    SplitDigits(d, 15);
    assert Address(n) == d[|d| - 15..];
    ModOfSplit(n, BinaryValue(d[..|d| - 15]), BinaryValue(d[|d| - 15..]), Pow2(15));
  }

  /** A binary string cut before its last `k` digits: both parts are binary, and the value splits at 2^k. */
  lemma SplitDigits(d: string, k: nat)
    requires IsBinary(d) && k <= |d|
    ensures IsBinary(d[..|d| - k]) && IsBinary(d[|d| - k..])
    ensures BinaryValue(d) == BinaryValue(d[..|d| - k]) * Pow2(k) + BinaryValue(d[|d| - k..])
  {
    var high, low := d[..|d| - k], d[|d| - k..];
    assert forall i :: 0 <= i < |high| ==> high[i] == d[i];
    assert forall i :: 0 <= i < |low| ==> low[i] == d[|d| - k + i];
    assert d == high + low;
    BinaryValueAppend(high, low);
  }

  lemma {:induction false} PowMonotone(j: nat, k: nat)
    requires j <= k
    ensures Pow2(j) <= Pow2(k)
    decreases k
  {
    if j < k {
      PowMonotone(j, k - 1);
    }
  }

  /** Addresses that fit in 15 bits read back as themselves. */
  lemma AddressRoundTrip(n: nat)
    requires n < Pow2(15)
    ensures BinaryValue(Address(n)) == n
  {
    AddressValue(n);
    ModOfSplit(n, 0, n, Pow2(15));
  }
}
