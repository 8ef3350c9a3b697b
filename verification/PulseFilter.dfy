/** Which timer edges a capture keeps, as a pure function of the edges offered to it. */
module PulseFilter {
  import opened Words

  datatype Level = High | Low

  datatype Edge = Edge(level: Level, count: Word)

  /** The level of the line after `edges`; a line that has shown no edge counts as LOW. */
  function LineLevel(edges: seq<Edge>): Level {
    if edges == [] then Low else edges[|edges| - 1].level
  }

  /** The edges that change the level of the line. */
  function Transitions(edges: seq<Edge>): seq<Edge> {
    if edges == [] then
      []
    else
      var before, e := edges[..|edges| - 1], edges[|edges| - 1];
      if e.level != LineLevel(before) then Transitions(before) + [e] else Transitions(before)
  }

  // The same filter in the order the hardware's user thinks of it: wait for the first HIGH
  // edge, then take the first edge of every run of equal levels.

  function SkipRun(edges: seq<Edge>, level: Level): (rest: seq<Edge>)
    ensures |rest| <= |edges|
    ensures rest != [] ==> rest[0].level != level
  {
    if edges == [] || edges[0].level != level then edges else SkipRun(edges[1..], level)
  }

  function RunHeads(edges: seq<Edge>): seq<Edge>
    decreases |edges|
  {
    if edges == [] then [] else [edges[0]] + RunHeads(SkipRun(edges[1..], edges[0].level))
  }

  lemma RunHeadsOne(level: Level, e: Edge)
    ensures RunHeads(SkipRun([e], level)) == if e.level != level then [e] else []
  {
    assert [e][1..] == [];
    assert SkipRun([], e.level) == [];
  }

  lemma SkipRunStep(edges: seq<Edge>, level: Level)
    requires edges != []
    ensures SkipRun(edges, level) ==
            if edges[0].level != level then edges else SkipRun(edges[1..], level)
  {
  }

  lemma RunHeadsStep(edges: seq<Edge>)
    requires edges != []
    ensures RunHeads(edges) == [edges[0]] + RunHeads(SkipRun(edges[1..], edges[0].level))
  {
  }

  lemma {:induction false} RunHeadsSnoc(edges: seq<Edge>, level: Level, e: Edge)
    ensures var last := if edges == [] then level else edges[|edges| - 1].level;
            RunHeads(SkipRun(edges + [e], level)) ==
            RunHeads(SkipRun(edges, level)) + if e.level != last then [e] else []
    decreases |edges|
  {
    hide SkipRun, RunHeads;
    if edges == [] {
      assert [] + [e] == [e];
      RunHeadsOne(level, e);
      Nothing(level);
    } else {
      var rest, more := edges[1..], edges + [e];
      assert more[1..] == rest + [e];
      RunHeadsSnoc(rest, edges[0].level, e);
      SkipRunStep(edges, level);
      SkipRunStep(more, level);
      RunHeadsStep(edges);
      RunHeadsStep(more);
    }
  }

  lemma Nothing(level: Level)
    ensures RunHeads(SkipRun([], level)) == []
  {
  }

  /** The two descriptions of the filter agree. */
  lemma {:induction false} TransitionsAreRunHeads(edges: seq<Edge>)
    ensures Transitions(edges) == RunHeads(SkipRun(edges, Low))
  {
    if edges != [] {
      var k := |edges| - 1;
      TransitionsAreRunHeads(edges[..k]);
      RunHeadsSnoc(edges[..k], Low, edges[k]);
      assert edges[..k] + [edges[k]] == edges;
    }
  }

  /** Kept edges alternate, the first is HIGH, and the last has the level the line has now. */
  lemma {:induction false} TransitionsAlternate(edges: seq<Edge>)
    ensures var f := Transitions(edges);
            && (forall i :: 0 <= i < |f| ==> f[i].level == if i % 2 == 0 then High else Low)
            && LineLevel(f) == LineLevel(edges)
            && |f| <= |edges|
  {
    if edges != [] {
      TransitionsAlternate(edges[..|edges| - 1]);
    }
  }

  /** What one more edge does to the filter, said with what the filter has kept so far. */
  lemma TransitionsSnoc(edges: seq<Edge>, e: Edge)
    ensures var f := Transitions(edges);
            && Transitions(edges + [e]) == (if e.level != LineLevel(f) then f + [e] else f)
  {
    assert (edges + [e])[..|edges + [e]| - 1] == edges;
    TransitionsAlternate(edges);
  }

  /** Later edges never change what was kept before them. */
  lemma {:induction false} TransitionsGrow(edges: seq<Edge>, more: seq<Edge>)
    ensures Transitions(edges) <= Transitions(edges + more)
  {
    if more == [] {
      assert edges + more == edges;
    } else {
      var k := |more| - 1;
      TransitionsGrow(edges, more[..k]);
      assert (edges + more)[..|edges + more| - 1] == edges + more[..k];
    }
  }
}
