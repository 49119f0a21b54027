/** The position resolver: which atomic number sits at each (period, group)
    of the 7x18 main block, and the two f-block rows drawn beneath it. */
module Positions {
  import opened Wrappers
  import opened Table

  /** The keys of the position map: periods 1..7 by groups 1..18. */
  predicate InMainBlock(k: (int, int))
  {
    1 <= k.0 <= 7 && 1 <= k.1 <= 18
  }

  /** The atomic number of the last main-block entry, among the first n
      entries of the table t, whose coordinate is (period, group). */
  function PlacedAmong(t: seq<Meta>, period: int, group: int, n: nat): Option<nat>
    requires n <= |t|
  {
    if n == 0 then None
    else
      var m := t[n - 1];
      if !IsFBlock(m.z) && m.period == period && m.group == group then Some(m.z)
      else PlacedAmong(t, period, group, n - 1)
  }

  /** The main-block cell (period, group) as the whole table fills it. */
  function PositionAt(period: int, group: int): Option<nat>
  {
    PlacedAmong(PeriodicTable, period, group, |PeriodicTable|)
  }

  /** Entry i of t describes atomic number i + 1. */
  predicate Numbered(t: seq<Meta>)
  {
    forall i | 0 <= i < |t| :: t[i].z == i + 1
  }

  /** No two main-block entries of t share a coordinate. */
  predicate MainDistinct(t: seq<Meta>)
  {
    forall i, j | 0 <= i < j < |t| && !IsFBlock(t[i].z) && !IsFBlock(t[j].z) ::
      (t[i].period, t[i].group) != (t[j].period, t[j].group)
  }

  /** The periodic table is numbered and its main block has no collisions. */
  lemma TableLayout()
    ensures |PeriodicTable| == Count
    ensures Numbered(PeriodicTable) && MainDistinct(PeriodicTable)
  {
    AtomicNumbers();
    forall i, j | 0 <= i < j < Count && !IsFBlock(PeriodicTable[i].z) && !IsFBlock(PeriodicTable[j].z)
      ensures (PeriodicTable[i].period, PeriodicTable[i].group)
           != (PeriodicTable[j].period, PeriodicTable[j].group)
    {
      MainBlockCoordinatesDistinct(i, j);
    }
  }

  /** Over a numbered table without collisions, after the first n entries
      are written, cell (period, group) holds z exactly when z <= n is a
      main-block element located there. */
  lemma {:induction false} PlacedAmongIff(t: seq<Meta>, period: int, group: int, n: nat, z: int)
    requires n <= |t| && Numbered(t) && MainDistinct(t)
    ensures PlacedAmong(t, period, group, n) == Some(z) <==>
      (1 <= z <= n && !IsFBlock(z) && t[z - 1].period == period && t[z - 1].group == group)
  {
    if n > 0 {
      PlacedAmongIff(t, period, group, n - 1, z);
      if 1 <= z < n {
        assert t[z - 1].z == z && t[n - 1].z == n;
      }
    }
  }

  /** The main block holds z at (period, group) exactly when z is a
      main-block element whose own coordinate is (period, group): no
      lanthanide or actinide appears, and every other element sits at its
      own place. */
  lemma PositionAtIff(period: int, group: int, z: int)
    ensures |PeriodicTable| == Count
    ensures PositionAt(period, group) == Some(z) <==>
      (1 <= z <= Count && !IsFBlock(z)
       && PeriodicTable[z - 1].period == period && PeriodicTable[z - 1].group == group)
  {
    TableLayout();
    PlacedAmongIff(PeriodicTable, period, group, Count, z);
  }

  /** The two f-block anchors (6, 3) and (7, 3) are empty already: only the
      displaced series have that coordinate. */
  lemma FBlockAnchorsEmpty()
    ensures PositionAt(6, 3) == None && PositionAt(7, 3) == None
  {
    if PositionAt(6, 3).Some? {
      var z := PositionAt(6, 3).value;
      PositionAtIff(6, 3, z);
      MainAvoidsAnchors(z);
    }
    if PositionAt(7, 3).Some? {
      var z := PositionAt(7, 3).value;
      PositionAtIff(7, 3, z);
      MainAvoidsAnchors(z);
    }
  }

  /** A main-block element never has the coordinate (6, 3) or (7, 3): its
      rank lies below the rank of the series it precedes or above the rank
      of the series it follows. */
  lemma MainAvoidsAnchors(z: int)
    requires 1 <= z <= Count && !IsFBlock(z)
    ensures |PeriodicTable| == Count
    ensures Rank(PeriodicTable[z - 1]) != 5 * 18 + 2
    ensures Rank(PeriodicTable[z - 1]) != 6 * 18 + 2
  {
    var i := z - 1;
    EntryFacts(i);
    EntryFacts(56); EntryFacts(70); EntryFacts(88); EntryFacts(102);
    if i < 56 {
      MainRankStrict(i, 56);
    } else {
      NeighbourFacts(70);
      RankMonotone(71, i);
      if i < 88 {
        MainRankStrict(i, 88);
      } else {
        NeighbourFacts(102);
        RankMonotone(103, i);
      }
    }
  }

  /** build_position_map: every main-block cell starts empty, then each
      table entry outside the f-block series is written at its
      (period, group). */
  method BuildPositionMap() returns (pos: map<(int, int), Option<nat>>)
    ensures forall k :: k in pos <==> InMainBlock(k)
    ensures forall k | k in pos :: pos[k] == PositionAt(k.0, k.1)
  {
    pos := map[];
    for p := 1 to 8
      invariant forall k :: k in pos <==> 1 <= k.0 < p && 1 <= k.1 <= 18
      invariant forall k | k in pos :: pos[k] == None
    {
      for g := 1 to 19
        invariant forall k :: k in pos <==>
          (1 <= k.0 < p && 1 <= k.1 <= 18) || (k.0 == p && 1 <= k.1 < g)
        invariant forall k | k in pos :: pos[k] == None
      {
        pos := pos[(p, g) := None];
      }
    }
    TableIsChunks();
    for i := 0 to |PeriodicTable|
      invariant forall k :: k in pos <==> InMainBlock(k)
      invariant forall k | k in pos :: pos[k] == PlacedAmong(PeriodicTable, k.0, k.1, i)
    {
      var m := PeriodicTable[i];
      if IsFBlock(m.z) {
        continue;
      }
      EntryFacts(i);
      pos := pos[(m.period, m.group) := Some(m.z)];
    }
  }

  /** build_cell_positions: the position map with (6, 3) and (7, 3) reset to
      empty. The reset changes nothing: the result is the same map. */
  method BuildCellPositions() returns (pos: map<(int, int), Option<nat>>)
    ensures forall k :: k in pos <==> InMainBlock(k)
    ensures forall k | k in pos :: pos[k] == PositionAt(k.0, k.1)
    ensures (6, 3) in pos && pos[(6, 3)] == None && (7, 3) in pos && pos[(7, 3)] == None
  {
    pos := BuildPositionMap();
    pos := pos[(6, 3) := None];
    pos := pos[(7, 3) := None];
    FBlockAnchorsEmpty();
  }

  /** The atomic numbers of the entries whose z lies in lo..hi, in table order. */
  function ZsBetween(s: seq<Meta>, lo: int, hi: int): seq<nat>
    decreases |s|
  {
    if |s| == 0 then []
    else (if lo <= s[0].z <= hi then [s[0].z] else []) + ZsBetween(s[1..], lo, hi)
  }

  /** Over entries numbered consecutively from `start`, filtering by lo..hi
      yields the consecutive run max(lo, start) .. min(hi, last). */
  lemma {:induction false} ZsBetweenConsecutive(s: seq<Meta>, start: int, lo: int, hi: int)
    requires forall i | 0 <= i < |s| :: s[i].z == start + i
    ensures var a := if lo > start then lo else start;
      var b := if hi < start + |s| - 1 then hi else start + |s| - 1;
      var r := ZsBetween(s, lo, hi);
      |r| == (if b >= a then b - a + 1 else 0)
      && forall k | 0 <= k < |r| :: r[k] == a + k
    decreases |s|
  {
    if |s| > 0 {
      ZsBetweenConsecutive(s[1..], start + 1, lo, hi);
    }
  }

  /** assign_f_block: the lanthanide and actinide atomic numbers in table order. */
  function AssignFBlock(): (seq<nat>, seq<nat>)
  {
    (ZsBetween(PeriodicTable, 57, 71), ZsBetween(PeriodicTable, 89, 103))
  }

  /** The two f-block rows are exactly 57..71 and 89..103, ascending, 15 each. */
  lemma AssignFBlockRows()
    ensures var (lanths, actins) := AssignFBlock();
      && |lanths| == 15 && |actins| == 15
      && (forall k | 0 <= k < 15 :: lanths[k] == 57 + k && actins[k] == 89 + k)
  {
    TableIsChunks();
    forall i | 0 <= i < |PeriodicTable|
      ensures PeriodicTable[i].z == 1 + i
    {
      EntryFacts(i);
    }
    ZsBetweenConsecutive(PeriodicTable, 1, 57, 71);
    ZsBetweenConsecutive(PeriodicTable, 1, 89, 103);
  }
}
