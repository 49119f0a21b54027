/** The static geometry table: one entry per chemical element, giving its
    atomic number, symbol, English name, group (column 1..18) and period
    (row 1..7). Lanthanides (57..71) and actinides (89..103) carry group 3
    and their natural period; the layout moves them to the f-block rows.
    The 118 entries are written period by period; PeriodicTable is their
    concatenation in the same order. */
module Table {

  datatype Meta = Meta(z: nat, symbol: string, name: string, group: nat, period: nat)

  const Count: nat := 118

  /** Period 1. */
  const Period1: seq<Meta> := [
    Meta(1, "H", "Hydrogen", 1, 1),
    Meta(2, "He", "Helium", 18, 1)
  ]

  /** Period 2. */
  const Period2: seq<Meta> := [
    Meta(3, "Li", "Lithium", 1, 2),
    Meta(4, "Be", "Beryllium", 2, 2),
    Meta(5, "B", "Boron", 13, 2),
    Meta(6, "C", "Carbon", 14, 2),
    Meta(7, "N", "Nitrogen", 15, 2),
    Meta(8, "O", "Oxygen", 16, 2),
    Meta(9, "F", "Fluorine", 17, 2),
    Meta(10, "Ne", "Neon", 18, 2)
  ]

  /** Period 3. */
  const Period3: seq<Meta> := [
    Meta(11, "Na", "Sodium", 1, 3),
    Meta(12, "Mg", "Magnesium", 2, 3),
    Meta(13, "Al", "Aluminium", 13, 3),
    Meta(14, "Si", "Silicon", 14, 3),
    Meta(15, "P", "Phosphorus", 15, 3),
    Meta(16, "S", "Sulfur", 16, 3),
    Meta(17, "Cl", "Chlorine", 17, 3),
    Meta(18, "Ar", "Argon", 18, 3)
  ]

  /** Period 4. */
  const Period4: seq<Meta> := [
    Meta(19, "K", "Potassium", 1, 4),
    Meta(20, "Ca", "Calcium", 2, 4),
    Meta(21, "Sc", "Scandium", 3, 4),
    Meta(22, "Ti", "Titanium", 4, 4),
    Meta(23, "V", "Vanadium", 5, 4),
    Meta(24, "Cr", "Chromium", 6, 4),
    Meta(25, "Mn", "Manganese", 7, 4),
    Meta(26, "Fe", "Iron", 8, 4),
    Meta(27, "Co", "Cobalt", 9, 4),
    Meta(28, "Ni", "Nickel", 10, 4),
    Meta(29, "Cu", "Copper", 11, 4),
    Meta(30, "Zn", "Zinc", 12, 4),
    Meta(31, "Ga", "Gallium", 13, 4),
    Meta(32, "Ge", "Germanium", 14, 4),
    Meta(33, "As", "Arsenic", 15, 4),
    Meta(34, "Se", "Selenium", 16, 4),
    Meta(35, "Br", "Bromine", 17, 4),
    Meta(36, "Kr", "Krypton", 18, 4)
  ]

  /** Period 5. */
  const Period5: seq<Meta> := [
    Meta(37, "Rb", "Rubidium", 1, 5),
    Meta(38, "Sr", "Strontium", 2, 5),
    Meta(39, "Y", "Yttrium", 3, 5),
    Meta(40, "Zr", "Zirconium", 4, 5),
    Meta(41, "Nb", "Niobium", 5, 5),
    Meta(42, "Mo", "Molybdenum", 6, 5),
    Meta(43, "Tc", "Technetium", 7, 5),
    Meta(44, "Ru", "Ruthenium", 8, 5),
    Meta(45, "Rh", "Rhodium", 9, 5),
    Meta(46, "Pd", "Palladium", 10, 5),
    Meta(47, "Ag", "Silver", 11, 5),
    Meta(48, "Cd", "Cadmium", 12, 5),
    Meta(49, "In", "Indium", 13, 5),
    Meta(50, "Sn", "Tin", 14, 5),
    Meta(51, "Sb", "Antimony", 15, 5),
    Meta(52, "Te", "Tellurium", 16, 5),
    Meta(53, "I", "Iodine", 17, 5),
    Meta(54, "Xe", "Xenon", 18, 5)
  ]

  /** Period 6, groups 1 and 2. */
  const Period6Head: seq<Meta> := [
    Meta(55, "Cs", "Caesium", 1, 6),
    Meta(56, "Ba", "Barium", 2, 6)
  ]

  /** The lanthanides, 57..71: period 6, group 3. */
  const Lanthanides: seq<Meta> := [
    Meta(57, "La", "Lanthanum", 3, 6),
    Meta(58, "Ce", "Cerium", 3, 6),
    Meta(59, "Pr", "Praseodymium", 3, 6),
    Meta(60, "Nd", "Neodymium", 3, 6),
    Meta(61, "Pm", "Promethium", 3, 6),
    Meta(62, "Sm", "Samarium", 3, 6),
    Meta(63, "Eu", "Europium", 3, 6),
    Meta(64, "Gd", "Gadolinium", 3, 6),
    Meta(65, "Tb", "Terbium", 3, 6),
    Meta(66, "Dy", "Dysprosium", 3, 6),
    Meta(67, "Ho", "Holmium", 3, 6),
    Meta(68, "Er", "Erbium", 3, 6),
    Meta(69, "Tm", "Thulium", 3, 6),
    Meta(70, "Yb", "Ytterbium", 3, 6),
    Meta(71, "Lu", "Lutetium", 3, 6)
  ]

  /** Period 6, groups 4 to 18. */
  const Period6Tail: seq<Meta> := [
    Meta(72, "Hf", "Hafnium", 4, 6),
    Meta(73, "Ta", "Tantalum", 5, 6),
    Meta(74, "W", "Tungsten", 6, 6),
    Meta(75, "Re", "Rhenium", 7, 6),
    Meta(76, "Os", "Osmium", 8, 6),
    Meta(77, "Ir", "Iridium", 9, 6),
    Meta(78, "Pt", "Platinum", 10, 6),
    Meta(79, "Au", "Gold", 11, 6),
    Meta(80, "Hg", "Mercury", 12, 6),
    Meta(81, "Tl", "Thallium", 13, 6),
    Meta(82, "Pb", "Lead", 14, 6),
    Meta(83, "Bi", "Bismuth", 15, 6),
    Meta(84, "Po", "Polonium", 16, 6),
    Meta(85, "At", "Astatine", 17, 6),
    Meta(86, "Rn", "Radon", 18, 6)
  ]

  /** Period 7, groups 1 and 2. */
  const Period7Head: seq<Meta> := [
    Meta(87, "Fr", "Francium", 1, 7),
    Meta(88, "Ra", "Radium", 2, 7)
  ]

  /** The actinides, 89..103: period 7, group 3. */
  const Actinides: seq<Meta> := [
    Meta(89, "Ac", "Actinium", 3, 7),
    Meta(90, "Th", "Thorium", 3, 7),
    Meta(91, "Pa", "Protactinium", 3, 7),
    Meta(92, "U", "Uranium", 3, 7),
    Meta(93, "Np", "Neptunium", 3, 7),
    Meta(94, "Pu", "Plutonium", 3, 7),
    Meta(95, "Am", "Americium", 3, 7),
    Meta(96, "Cm", "Curium", 3, 7),
    Meta(97, "Bk", "Berkelium", 3, 7),
    Meta(98, "Cf", "Californium", 3, 7),
    Meta(99, "Es", "Einsteinium", 3, 7),
    Meta(100, "Fm", "Fermium", 3, 7),
    Meta(101, "Md", "Mendelevium", 3, 7),
    Meta(102, "No", "Nobelium", 3, 7),
    Meta(103, "Lr", "Lawrencium", 3, 7)
  ]

  /** Period 7, groups 4 to 18. */
  const Period7Tail: seq<Meta> := [
    Meta(104, "Rf", "Rutherfordium", 4, 7),
    Meta(105, "Db", "Dubnium", 5, 7),
    Meta(106, "Sg", "Seaborgium", 6, 7),
    Meta(107, "Bh", "Bohrium", 7, 7),
    Meta(108, "Hs", "Hassium", 8, 7),
    Meta(109, "Mt", "Meitnerium", 9, 7),
    Meta(110, "Ds", "Darmstadtium", 10, 7),
    Meta(111, "Rg", "Roentgenium", 11, 7),
    Meta(112, "Cn", "Copernicium", 12, 7),
    Meta(113, "Nh", "Nihonium", 13, 7),
    Meta(114, "Fl", "Flerovium", 14, 7),
    Meta(115, "Mc", "Moscovium", 15, 7),
    Meta(116, "Lv", "Livermorium", 16, 7),
    Meta(117, "Ts", "Tennessine", 17, 7),
    Meta(118, "Og", "Oganesson", 18, 7)
  ]

  /** Periods 1 to 5, which have no f-block entries. */
  const Periods1To5: seq<Meta> := Period1 + Period2 + Period3 + Period4 + Period5

  const Period6: seq<Meta> := Period6Head + Lanthanides + Period6Tail

  const Period7: seq<Meta> := Period7Head + Actinides + Period7Tail

  const PeriodicTable: seq<Meta> := Periods1To5 + Period6 + Period7

  predicate IsLanthanide(z: int) { 57 <= z <= 71 }
  predicate IsActinide(z: int) { 89 <= z <= 103 }
  /** The two 15-element series displaced from the main block. */
  predicate IsFBlock(z: int) { IsLanthanide(z) || IsActinide(z) }

  /** Row-major rank of an entry's (period, group) in the 7x18 block. */
  function Rank(m: Meta): int { (m.period - 1) * 18 + (m.group - 1) }

  lemma Period1Facts()
    ensures |Period1| == 2
    ensures forall i | 0 <= i < 2 :: Period1[i].z == 1 + i && Period1[i].period == 1
    ensures forall i | 0 <= i < 2 :: 1 <= Period1[i].group <= 18
    ensures forall i | 0 <= i < 1 :: Period1[i].group < Period1[i + 1].group
  {
  }

  lemma Period2Facts()
    ensures |Period2| == 8
    ensures forall i | 0 <= i < 8 :: Period2[i].z == 3 + i && Period2[i].period == 2
    ensures forall i | 0 <= i < 8 :: 1 <= Period2[i].group <= 18
    ensures forall i | 0 <= i < 7 :: Period2[i].group < Period2[i + 1].group
  {
  }

  lemma Period3Facts()
    ensures |Period3| == 8
    ensures forall i | 0 <= i < 8 :: Period3[i].z == 11 + i && Period3[i].period == 3
    ensures forall i | 0 <= i < 8 :: 1 <= Period3[i].group <= 18
    ensures forall i | 0 <= i < 7 :: Period3[i].group < Period3[i + 1].group
  {
  }

  lemma Period4Facts()
    ensures |Period4| == 18
    ensures forall i | 0 <= i < 18 :: Period4[i].z == 19 + i && Period4[i].period == 4
    ensures forall i | 0 <= i < 18 :: 1 <= Period4[i].group <= 18
    ensures forall i | 0 <= i < 17 :: Period4[i].group < Period4[i + 1].group
  {
  }

  lemma Period5Facts()
    ensures |Period5| == 18
    ensures forall i | 0 <= i < 18 :: Period5[i].z == 37 + i && Period5[i].period == 5
    ensures forall i | 0 <= i < 18 :: 1 <= Period5[i].group <= 18
    ensures forall i | 0 <= i < 17 :: Period5[i].group < Period5[i + 1].group
  {
  }

  lemma Period6HeadFacts()
    ensures |Period6Head| == 2
    ensures forall i | 0 <= i < 2 :: Period6Head[i].z == 55 + i && Period6Head[i].period == 6
    ensures forall i | 0 <= i < 2 :: 1 <= Period6Head[i].group <= 18
    ensures forall i | 0 <= i < 1 :: Period6Head[i].group < Period6Head[i + 1].group
  {
  }

  lemma LanthanidesFacts()
    ensures |Lanthanides| == 15
    ensures forall i | 0 <= i < 15 :: Lanthanides[i].z == 57 + i && Lanthanides[i].period == 6
    ensures forall i | 0 <= i < 15 :: Lanthanides[i].group == 3
  {
  }

  lemma Period6TailFacts()
    ensures |Period6Tail| == 15
    ensures forall i | 0 <= i < 15 :: Period6Tail[i].z == 72 + i && Period6Tail[i].period == 6
    ensures forall i | 0 <= i < 15 :: 1 <= Period6Tail[i].group <= 18
    ensures forall i | 0 <= i < 14 :: Period6Tail[i].group < Period6Tail[i + 1].group
  {
  }

  lemma Period7HeadFacts()
    ensures |Period7Head| == 2
    ensures forall i | 0 <= i < 2 :: Period7Head[i].z == 87 + i && Period7Head[i].period == 7
    ensures forall i | 0 <= i < 2 :: 1 <= Period7Head[i].group <= 18
    ensures forall i | 0 <= i < 1 :: Period7Head[i].group < Period7Head[i + 1].group
  {
  }

  lemma ActinidesFacts()
    ensures |Actinides| == 15
    ensures forall i | 0 <= i < 15 :: Actinides[i].z == 89 + i && Actinides[i].period == 7
    ensures forall i | 0 <= i < 15 :: Actinides[i].group == 3
  {
  }

  lemma Period7TailFacts()
    ensures |Period7Tail| == 15
    ensures forall i | 0 <= i < 15 :: Period7Tail[i].z == 104 + i && Period7Tail[i].period == 7
    ensures forall i | 0 <= i < 15 :: 1 <= Period7Tail[i].group <= 18
    ensures forall i | 0 <= i < 14 :: Period7Tail[i].group < Period7Tail[i + 1].group
  {
  }

  /** The entry at table index i, read from the chunk holding it. */
  function ChunkEntry(i: nat): Meta
    requires i < Count
  {
    if i < 2 then Period1[i]
    else if i < 10 then Period2[i - 2]
    else if i < 18 then Period3[i - 10]
    else if i < 36 then Period4[i - 18]
    else if i < 54 then Period5[i - 36]
    else if i < 56 then Period6Head[i - 54]
    else if i < 71 then Lanthanides[i - 56]
    else if i < 86 then Period6Tail[i - 71]
    else if i < 88 then Period7Head[i - 86]
    else if i < 103 then Actinides[i - 88]
    else Period7Tail[i - 103]
  }

  lemma Periods1To5Chunks()
    ensures |Periods1To5| == 54
    ensures forall i | 0 <= i < 54 :: Periods1To5[i] == ChunkEntry(i)
  {
    Period1Facts(); Period2Facts(); Period3Facts(); Period4Facts(); Period5Facts();
  }

  lemma Period6Chunks()
    ensures |Period6| == 32
    ensures forall i | 0 <= i < 32 :: Period6[i] == ChunkEntry(54 + i)
  {
    Period6HeadFacts(); LanthanidesFacts(); Period6TailFacts();
  }

  lemma Period7Chunks()
    ensures |Period7| == 32
    ensures forall i | 0 <= i < 32 :: Period7[i] == ChunkEntry(86 + i)
  {
    Period7HeadFacts(); ActinidesFacts(); Period7TailFacts();
  }

  /** The table read chunk by chunk. */
  lemma TableIsChunks()
    ensures |PeriodicTable| == Count
    ensures forall i | 0 <= i < Count :: PeriodicTable[i] == ChunkEntry(i)
  {
    Periods1To5Chunks(); Period6Chunks(); Period7Chunks();
    forall i | 0 <= i < Count
      ensures PeriodicTable[i] == ChunkEntry(i)
    {
      if i < 54 {
        assert PeriodicTable[i] == Periods1To5[i];
      } else if i < 86 {
        assert PeriodicTable[i] == Period6[i - 54];
      } else {
        assert PeriodicTable[i] == Period7[i - 86];
      }
    }
  }

  /** The chunk entry at index i: atomic number i + 1, coordinates inside
      the 7x18 block, the lanthanides at (6, 3) and the actinides at (7, 3). */
  lemma ChunkEntryFacts(i: nat)
    requires i < Count
    ensures var m := ChunkEntry(i);
      && m.z == i + 1 && 1 <= m.period <= 7 && 1 <= m.group <= 18
      && (IsLanthanide(m.z) ==> m.period == 6 && m.group == 3)
      && (IsActinide(m.z) ==> m.period == 7 && m.group == 3)
  {
    if i < 2 {
      Period1Facts();
    } else if i < 10 {
      Period2Facts();
    } else if i < 18 {
      Period3Facts();
    } else if i < 36 {
      Period4Facts();
    } else if i < 54 {
      Period5Facts();
    } else if i < 56 {
      Period6HeadFacts();
    } else if i < 71 {
      LanthanidesFacts();
    } else if i < 86 {
      Period6TailFacts();
    } else if i < 88 {
      Period7HeadFacts();
    } else if i < 103 {
      ActinidesFacts();
    } else {
      Period7TailFacts();
    }
  }

  /** One entry: atomic number index + 1, coordinates inside the 7x18
      block, the lanthanides at (6, 3) and the actinides at (7, 3). */
  lemma EntryFacts(i: nat)
    requires i < Count
    ensures |PeriodicTable| == Count
    ensures var m := PeriodicTable[i];
      && m.z == i + 1 && 1 <= m.period <= 7 && 1 <= m.group <= 18
      && (IsLanthanide(m.z) ==> m.period == 6 && m.group == 3)
      && (IsActinide(m.z) ==> m.period == 7 && m.group == 3)
  {
    TableIsChunks();
    ChunkEntryFacts(i);
  }

  /** Two neighbouring chunk entries: the rank grows strictly unless both
      belong to an f-block series, where it stays put. */
  lemma ChunkNeighbours(i: nat)
    requires i + 1 < Count
    ensures var m, n := ChunkEntry(i), ChunkEntry(i + 1);
      Rank(m) < Rank(n) || (IsFBlock(m.z) && IsFBlock(n.z) && Rank(m) == Rank(n))
  {
    if i < 2 {
      Period1Facts(); Period2Facts();
    } else if i < 10 {
      Period2Facts(); Period3Facts();
    } else if i < 18 {
      Period3Facts(); Period4Facts();
    } else if i < 36 {
      Period4Facts(); Period5Facts();
    } else if i < 54 {
      Period5Facts(); Period6HeadFacts();
    } else if i < 56 {
      Period6HeadFacts(); LanthanidesFacts();
    } else if i < 71 {
      LanthanidesFacts(); Period6TailFacts();
    } else if i < 86 {
      Period6TailFacts(); Period7HeadFacts();
    } else if i < 88 {
      Period7HeadFacts(); ActinidesFacts();
    } else if i < 103 {
      ActinidesFacts(); Period7TailFacts();
    } else {
      Period7TailFacts();
    }
  }

  /** Two neighbours: the rank grows strictly unless both belong to an
      f-block series, where it stays put. */
  lemma NeighbourFacts(i: nat)
    requires i + 1 < Count
    ensures |PeriodicTable| == Count
    ensures Rank(PeriodicTable[i]) < Rank(PeriodicTable[i + 1])
      || (IsFBlock(PeriodicTable[i].z) && IsFBlock(PeriodicTable[i + 1].z)
          && Rank(PeriodicTable[i]) == Rank(PeriodicTable[i + 1]))
  {
    TableIsChunks();
    ChunkNeighbours(i);
  }

  /** Ranks never decrease along the table. */
  lemma {:induction false} RankMonotone(i: nat, j: nat)
    requires i <= j < Count
    ensures |PeriodicTable| == Count
    ensures Rank(PeriodicTable[i]) <= Rank(PeriodicTable[j])
    decreases j - i
  {
    TableIsChunks();
    if i < j {
      NeighbourFacts(i);
      RankMonotone(i + 1, j);
    }
  }

  /** After a main-block entry every later entry has a strictly larger rank. */
  lemma MainRankStrict(i: nat, j: nat)
    requires i < j < Count
    requires |PeriodicTable| == Count && !IsFBlock(PeriodicTable[i].z)
    ensures Rank(PeriodicTable[i]) < Rank(PeriodicTable[j])
  {
    var a, b, c := PeriodicTable[i], PeriodicTable[i + 1], PeriodicTable[j];
    NeighbourFacts(i);
    RankMonotone(i + 1, j);
    assert Rank(a) < Rank(b) <= Rank(c);
  }

  /** No two main-block entries share a (period, group) coordinate. */
  lemma MainBlockCoordinatesDistinct(i: nat, j: nat)
    requires i < Count && j < Count && i != j
    requires |PeriodicTable| == Count
    requires !IsFBlock(PeriodicTable[i].z) && !IsFBlock(PeriodicTable[j].z)
    ensures (PeriodicTable[i].period, PeriodicTable[i].group)
         != (PeriodicTable[j].period, PeriodicTable[j].group)
  {
    if i < j { MainRankStrict(i, j); } else { MainRankStrict(j, i); }
  }

  /** Entry i describes atomic number i + 1. */
  lemma AtomicNumbers()
    ensures |PeriodicTable| == Count
    ensures forall i | 0 <= i < Count :: PeriodicTable[i].z == i + 1
  {
    forall i | 0 <= i < Count
      ensures PeriodicTable[i].z == i + 1
    {
      EntryFacts(i);
    }
    TableIsChunks();
  }
}
