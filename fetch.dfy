/** The data-shaping steps of app/data/fetch.py: cleaning Mach-probe
    numbers where the probe saw no current, and adding the ring anodes to
    the anode dictionary. The MDSplus reads around them are not part of this
    model. */
module Fetch {
  import opened Text

  /** The default current threshold of `clean_mach_data`. */
  const DefaultThreshold: real := 0.001

  /** Where both face currents are below the threshold. */
  predicate BothBelow(current1: seq<real>, current2: seq<real>, thres: real, i: int)
    requires 0 <= i < |current1| && i < |current2|
  {
    current1[i] < thres && current2[i] < thres
  }

  /** The Mach numbers after cleanup. */
  function Cleaned(mach: seq<real>, current1: seq<real>, current2: seq<real>, thres: real): (r: seq<real>)
    requires |current1| == |mach| && |current2| == |mach|
  {
    seq(|mach|, i requires 0 <= i < |mach| => if BothBelow(current1, current2, thres, i) then 0.0 else mach[i])
  }

  /** Cleanup keeps the length, zeroes exactly the samples where both
      currents are below the threshold and keeps every other sample, so
      cleaning twice is cleaning once. */
  lemma CleanedIs(mach: seq<real>, current1: seq<real>, current2: seq<real>, thres: real)
    requires |current1| == |mach| && |current2| == |mach|
    ensures |Cleaned(mach, current1, current2, thres)| == |mach|
    ensures forall i | 0 <= i < |mach| && BothBelow(current1, current2, thres, i) ::
              Cleaned(mach, current1, current2, thres)[i] == 0.0
    ensures forall i | 0 <= i < |mach| && !BothBelow(current1, current2, thres, i) ::
              Cleaned(mach, current1, current2, thres)[i] == mach[i]
    ensures Cleaned(Cleaned(mach, current1, current2, thres), current1, current2, thres) ==
            Cleaned(mach, current1, current2, thres)
  {
  }

  /** `clean_mach_data`: zeroes, in place, the Mach numbers taken where both
      face currents are below `thres`. The currents are other arrays and
      are not written. */
  method CleanMachData(mach: array<real>, current1: array<real>, current2: array<real>, thres: real)
    requires current1.Length == mach.Length && current2.Length == mach.Length
    requires mach != current1 && mach != current2
    modifies mach
    ensures mach[..] == Cleaned(old(mach[..]), current1[..], current2[..], thres)
  {
    for i := 0 to mach.Length
      invariant forall k | 0 <= k < i ::
                  mach[k] == if BothBelow(current1[..], current2[..], thres, k) then 0.0 else old(mach[k])
      invariant forall k | i <= k < mach.Length :: mach[k] == old(mach[k])
    {
      if current1[i] < thres && current2[i] < thres {
        mach[i] := 0.0;
      }
    }
  }

  // ---------------------------------------------------------------------
  // Ring anodes

  /** A key of the anode dictionary: a numbered anode or a named ring. */
  datatype Label = Number(n: int) | Name(s: string)

  /** `["ring {0:d}".format(x+1) for x in range(2)]`. */
  function RingLabels(): (r: seq<string>)
    ensures r == ["ring 1", "ring 2"]
  {
    var r := seq(2, x requires 0 <= x < 2 => "ring " + NatToString(x + 1));
    assert NatToString(1) == "1" && NatToString(2) == "2";
    assert r[0] == "ring 1" && r[1] == "ring 2";
    r
  }

  /** The merge loop of `retrieve_anode_data`: every ring entry, visited in
      the ring dictionary's order `ringOrder`, is written into the anode
      dictionary. */
  method MergeRings(anode: map<Label, seq<real>>, ring: map<Label, seq<real>>, ringOrder: seq<Label>)
    returns (merged: map<Label, seq<real>>)
    requires forall k :: k in ring <==> k in ringOrder
    ensures forall k :: k in merged <==> k in anode || k in ring
    ensures forall k | k in ring :: merged[k] == ring[k]
    ensures forall k | k in anode && k !in ring :: merged[k] == anode[k]
  {
    merged := anode;
    for i := 0 to |ringOrder|
      invariant forall k :: k in merged <==> k in anode || k in ringOrder[..i]
      invariant forall k | k in ringOrder[..i] :: merged[k] == ring[k]
      invariant forall k | k in anode && k !in ringOrder[..i] :: merged[k] == anode[k]
    {
      assert ringOrder[..i + 1] == ringOrder[..i] + [ringOrder[i]];
      merged := merged[ringOrder[i] := ring[ringOrder[i]]];
    }
    assert ringOrder[..|ringOrder|] == ringOrder;
  }
}
