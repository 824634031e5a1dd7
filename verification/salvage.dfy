/** The salvage repair pass (Model.py lines 24-27): a site whose sampled
    salvage value is not below its preorder cost gets salvage value
    `preorder cost - 10` instead, which is negative when that cost is below 10. */
module SalvageRepair {

  /** The salvage value one site keeps after the repair pass. */
  function Repaired(b: int, s: int): (r: int)
    ensures r < b
    ensures r == s <==> s < b
    ensures r != s ==> r == b - 10
  {
    if s >= b then b - 10 else s
  }

  /** The salvage vector after the repair pass over sites 0 .. |s| - 1. */
  function RepairedAll(b: seq<int>, s: seq<int>): (r: seq<int>)
    requires |b| == |s|
    ensures |r| == |s|
    ensures forall j :: 0 <= j < |r| ==> r[j] < b[j]
    ensures forall j :: 0 <= j < |r| && s[j] < b[j] ==> r[j] == s[j]
    ensures forall j :: 0 <= j < |r| && s[j] >= b[j] ==> r[j] == b[j] - 10
  {
    if |s| == 0 then []
    else RepairedAll(b[..|b| - 1], s[..|s| - 1]) + [Repaired(b[|b| - 1], s[|s| - 1])]
  }

  /** Repairing a repaired vector changes nothing. */
  lemma RepairIdempotent(b: seq<int>, s: seq<int>)
    requires |b| == |s|
    ensures RepairedAll(b, RepairedAll(b, s)) == RepairedAll(b, s)
  {
  }

  /** With preorder costs sampled from [0, 20) and salvage values from [0, 10),
      every repaired value lies in [-10, 10), and every overwritten one in [-10, -1]. */
  lemma RepairedRange(b: seq<int>, s: seq<int>)
    requires |b| == |s|
    requires forall j :: 0 <= j < |b| ==> 0 <= b[j] < 20
    requires forall j :: 0 <= j < |s| ==> 0 <= s[j] < 10
    ensures forall j :: 0 <= j < |s| ==> -10 <= RepairedAll(b, s)[j] < 10
    ensures forall j :: 0 <= j < |s| && RepairedAll(b, s)[j] != s[j] ==>
      -10 <= RepairedAll(b, s)[j] <= -1
  {
  }

  /** The repair loop, in place on the salvage array. */
  method RepairSalvage(b: array<int>, s: array<int>)
    requires b.Length == s.Length && b != s
    modifies s
    ensures s[..] == RepairedAll(b[..], old(s[..]))
    ensures b[..] == old(b[..])
    ensures forall j :: 0 <= j < s.Length ==> s[j] < b[j]
  {
    var j := 0;
    while j < s.Length
      invariant 0 <= j <= s.Length
      invariant forall k :: 0 <= k < j ==> s[k] == Repaired(b[k], old(s[k]))
      invariant forall k :: j <= k < s.Length ==> s[k] == old(s[k])
    {
      if s[j] >= b[j] {
        s[j] := b[j] - 10;
      }
      j := j + 1;
    }
  }
}
