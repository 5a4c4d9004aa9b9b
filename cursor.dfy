/**
 * The search both line cursors use to skip lines that are not commands:
 * `lines[from...].firstIndex(where: isValidCommand)` on a sequence of flags.
 */
module Cursor {
  import opened Wrappers

  /** The least index at or after `from` whose flag is set. */
  function FirstValid(valid: seq<bool>, from: nat): (r: Option<nat>)
    decreases |valid| - from
    ensures r.Some? ==> from <= r.value < |valid| && valid[r.value]
    ensures r.Some? ==> forall j :: from <= j < r.value ==> !valid[j]
    ensures r.None? <==> forall j :: from <= j < |valid| ==> !valid[j]
  {
    if from >= |valid| then None
    else if valid[from] then Some(from)
    else FirstValid(valid, from + 1)
  }

  /** `nextValidCommandIndex()`: nothing once past the end, else the first valid index after `current`. */
  function NextValidIndex(valid: seq<bool>, current: nat): (r: Option<nat>)
    ensures r.Some? ==> current < r.value < |valid| && valid[r.value]
    ensures r.Some? ==> forall j :: current < j < r.value ==> !valid[j]
    ensures r.None? <==> forall j :: current < j < |valid| ==> !valid[j]
  {
    if current >= |valid| then None else FirstValid(valid, current + 1)
  }

  /** Where a cursor starts: on line 0 if it is valid, else on the first valid line, else on 0. */
  function StartIndex(valid: seq<bool>): (r: nat)
    requires |valid| > 0
    ensures r < |valid|
    ensures valid[0] ==> r == 0
    ensures !valid[0] && (exists j :: 0 <= j < |valid| && valid[j]) ==>
      valid[r] && forall j :: 0 <= j < r ==> !valid[j]
    ensures (forall j :: 0 <= j < |valid| ==> !valid[j]) ==> r == 0
  {
    if !valid[0] && NextValidIndex(valid, 0).Some? then NextValidIndex(valid, 0).value else 0
  }
}
