/** The assembler's small helpers: the forward pipe and fixed-width padding. */
module Utils {

  /** `value |> function`: apply the function to the value. */
  function Pipe<T, U>(value: T, f: T -> U): U {
    f(value)
  }

  /** The pipe is left-associative: `x |> f |> g` is `g(f(x))`. */
  lemma PipeChains<T, U, V>(x: T, f: T -> U, g: U -> V)
    ensures Pipe(Pipe(x, f), g) == g(f(x))
  {
  }

  /** `String(repeatElement(c, count: n))`. */
  function Repeat(c: char, n: nat): (r: string)
    ensures |r| == n && forall i :: 0 <= i < n ==> r[i] == c
  {
    if n == 0 then [] else [c] + Repeat(c, n - 1)
  }

  /** Pad on the left to `toLength`, or keep only the last `toLength` characters. */
  function LeftPadding(s: string, toLength: nat, pad: char): (r: string)
    ensures |r| == toLength
    ensures |s| < toLength ==> r == Repeat(pad, toLength - |s|) + s
    ensures |s| >= toLength ==> r == s[|s| - toLength..]
  {
    if |s| < toLength then Repeat(pad, toLength - |s|) + s else s[|s| - toLength..]
  }

  /** Pad on the right to `toLength`, or keep only the first `toLength` characters. */
  function RightPadding(s: string, toLength: nat, pad: char): (r: string)
    ensures |r| == toLength
    ensures |s| < toLength ==> r == s + Repeat(pad, toLength - |s|)
    ensures |s| >= toLength ==> r == s[..toLength]
  {
    if |s| < toLength then s + Repeat(pad, toLength - |s|) else s[..toLength]
  }

  /** Left padding never loses the original text when it is short enough: it ends the result. */
  lemma LeftPaddingKeepsSuffix(s: string, toLength: nat, pad: char)
    requires |s| <= toLength
    ensures LeftPadding(s, toLength, pad)[toLength - |s|..] == s
    ensures forall i :: 0 <= i < toLength - |s| ==> LeftPadding(s, toLength, pad)[i] == pad
  {
  }

  /** Right padding keeps the original text as a prefix when it is short enough. */
  lemma RightPaddingKeepsPrefix(s: string, toLength: nat, pad: char)
    requires |s| <= toLength
    ensures RightPadding(s, toLength, pad)[..|s|] == s
    ensures forall i :: |s| <= i < toLength ==> RightPadding(s, toLength, pad)[i] == pad
  {
  }

  /** A string already of the target length is returned unchanged by both. */
  lemma PaddingExactLength(s: string, pad: char)
    ensures LeftPadding(s, |s|, pad) == s
    ensures RightPadding(s, |s|, pad) == s
  {
  }

  /** Padding twice to the same length is padding once. */
  lemma PaddingIdempotent(s: string, toLength: nat, pad: char)
    ensures LeftPadding(LeftPadding(s, toLength, pad), toLength, pad) == LeftPadding(s, toLength, pad)
    ensures RightPadding(RightPadding(s, toLength, pad), toLength, pad) == RightPadding(s, toLength, pad)
  {
    PaddingExactLength(LeftPadding(s, toLength, pad), pad);
    PaddingExactLength(RightPadding(s, toLength, pad), pad);
  }
}
