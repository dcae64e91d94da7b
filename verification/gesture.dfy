/**
 * The pattern lock (`components/GestureLock.tsx`): nine dots numbered 0 to
 * 8; pressing one starts a trace, passing over others extends it, and
 * lifting the finger hands over a trace of three or more dots as their
 * numbers joined by '-'.
 */
module Gesture {
  import opened Wrappers
  import Strings

  const GridSize: nat := 9

  /** No dot appears twice in the trace. */
  predicate NoRepeats(nodes: seq<nat>)
  {
    forall i, j :: 0 <= i < j < |nodes| ==> nodes[i] != nodes[j]
  }

  /** `nodes.join('-')`. */
  function Pattern(nodes: seq<nat>): string
  {
    Strings.Join(Labels(nodes), "-")
  }

  function Labels(nodes: seq<nat>): (r: seq<string>)
    ensures |r| == |nodes|
    ensures forall k :: 0 <= k < |r| ==> r[k] == Strings.NatToString(nodes[k])
  {
    seq(|nodes|, k requires 0 <= k < |nodes| => Strings.NatToString(nodes[k]))
  }

  /** Reading a pattern back: split on '-' and read each piece as a number. */
  function Nodes(pattern: string): (r: seq<int>)
  {
    var pieces := Strings.Split(pattern, '-');
    seq(|pieces|, k requires 0 <= k < |pieces| => Strings.NumberOf(pieces[k]))
  }

  /** A non-empty trace is recovered exactly from its pattern. */
  lemma NodesOfPattern(nodes: seq<nat>)
    requires nodes != []
    ensures Nodes(Pattern(nodes)) == nodes
  {
    var ls := Labels(nodes);
    forall k | 0 <= k < |ls| ensures '-' !in ls[k] {
      assert Strings.AllDigits(ls[k]);
    }
    Strings.SplitJoin(ls, '-');
    forall k | 0 <= k < |nodes| ensures Strings.NumberOf(ls[k]) == nodes[k] {
      Strings.NumberOfIntToString(nodes[k]);
    }
  }

  /** A trace of distinct dots from a set holds no more dots than the set. */
  lemma {:induction false} DistinctWithin(nodes: seq<nat>, dots: set<nat>)
    requires NoRepeats(nodes)
    requires forall k :: 0 <= k < |nodes| ==> nodes[k] in dots
    ensures |nodes| <= |dots|
    decreases |nodes|
  {
    if nodes != [] {
      var rest := nodes[1..];
      assert forall k :: 0 <= k < |rest| ==> rest[k] == nodes[k + 1];
      DistinctWithin(rest, dots - {nodes[0]});
    }
  }

  const Grid: set<nat> := {0, 1, 2, 3, 4, 5, 6, 7, 8}

  lemma GridFacts()
    ensures |Grid| == GridSize
    ensures forall i: nat :: i in Grid <==> i < GridSize
  {
  }

  /** The lock's state. */
  class GestureLock {
    var nodes: seq<nat>
    var isDrawing: bool

    /** A trace only ever holds distinct dots of the grid. */
    predicate Valid()
      reads this
    {
      NoRepeats(nodes) && forall k :: 0 <= k < |nodes| ==> nodes[k] < GridSize
    }

    constructor()
      ensures nodes == [] && !isDrawing && Valid()
    {
      nodes := [];
      isDrawing := false;
    }

    /** `handleStart`: a press on dot `i` begins a new trace with just that dot. */
    method Start(i: nat)
      modifies this
      ensures nodes == [i] && isDrawing
      ensures i < GridSize ==> Valid()
    {
      isDrawing := true;
      nodes := [i];
    }

    /** `handleMove`: while drawing, a dot not yet in the trace is added at its end. */
    method Move(i: nat)
      modifies this
      ensures isDrawing == old(isDrawing)
      ensures nodes == if old(isDrawing) && i !in old(nodes) then old(nodes) + [i] else old(nodes)
      ensures old(Valid()) && i < GridSize ==> Valid()
    {
      if !isDrawing {
        return;
      }
      if i !in nodes {
        nodes := nodes + [i];
      }
    }

    /**
     * `handleEnd`: three dots or more are handed over as a pattern and the
     * trace stays on screen; a shorter trace is dropped; drawing stops.
     */
    method End() returns (pattern: Option<string>)
      modifies this
      ensures !isDrawing
      ensures |old(nodes)| >= 3 ==> pattern == Some(Pattern(old(nodes))) && nodes == old(nodes)
      ensures |old(nodes)| < 3 ==> pattern.None? && nodes == []
      ensures old(Valid()) ==> Valid()
    {
      if |nodes| >= 3 {
        pattern := Some(Pattern(nodes));
      } else {
        pattern := None;
        if |nodes| > 0 {
          nodes := [];
        }
      }
      isDrawing := false;
    }
  }

  /** A valid trace never holds more than the nine dots of the grid. */
  lemma TraceBounded(nodes: seq<nat>)
    requires NoRepeats(nodes) && forall k :: 0 <= k < |nodes| ==> nodes[k] < GridSize
    ensures |nodes| <= GridSize
  {
    GridFacts();
    DistinctWithin(nodes, Grid);
  }

  /** Once all nine dots are in the trace, no dot of the grid can be added. */
  lemma FullTraceCoversGrid(nodes: seq<nat>, i: nat)
    requires NoRepeats(nodes) && forall k :: 0 <= k < |nodes| ==> nodes[k] < GridSize
    requires |nodes| == GridSize && i < GridSize
    ensures i in nodes
  {
    GridFacts();
    if i !in nodes {
      DistinctWithin(nodes, Grid - {i});
      assert false;
    }
  }

  /** Every pattern handed over names between three and nine dots. */
  lemma PatternSize(nodes: seq<nat>)
    requires NoRepeats(nodes) && forall k :: 0 <= k < |nodes| ==> nodes[k] < GridSize
    requires |nodes| >= 3
    ensures 3 <= |Nodes(Pattern(nodes))| <= GridSize
  {
    NodesOfPattern(nodes);
    TraceBounded(nodes);
  }
}
