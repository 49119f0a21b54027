/** The grid renderer of render_html: the tag normaliser sanitize_label,
    the four sample quarters of a cell, the cell tooltip, and the walk over
    10 rows by 18 columns that yields one cell per grid position. The HTML
    text of a cell is represented by its attribute values, as they appear
    in the document (that is, after html.escape). */
module Render {
  import opened Wrappers
  import opened Text
  import opened Table
  import opened Positions
  import opened Merge

  // ---------------------------------------------------------------------
  // sanitize_label

  /** The character sanitize_label emits for one input character: the
      lower-cased character when alphanumeric, otherwise a dash. */
  function TagChar(c: char): char
  {
    var d := Lower(c);
    if IsAlnum(d) then d else '-'
  }

  /** The lower-cased label with every non-alphanumeric character replaced by its
      own dash, before the final strip. */
  function Dashed(raw: string): (r: string)
    ensures |r| == |raw|
  {
    seq(|raw|, k requires 0 <= k < |raw| => TagChar(raw[k]))
  }

  /** What sanitize_label returns. */
  function Sanitize(raw: string): string
  {
    StripChars(Dashed(raw), {'-'})
  }

  /** A character that may appear in a filter tag. */
  predicate IsTagChar(c: char)
  {
    ('a' <= c <= 'z') || ('0' <= c <= '9') || c == '-'
  }

  /** sanitize_label: append one character per input character, join, and
      strip the dashes at both ends. */
  method SanitizeLabel(raw: string) returns (tag: string)
    ensures tag == Sanitize(raw)
  {
    var out: seq<char> := [];
    for k := 0 to |raw|
      invariant out == Dashed(raw)[..k]
    {
      var ch := Lower(raw[k]);
      if IsAlnum(ch) {
        out := out + [ch];
      } else {
        out := out + ['-'];
      }
    }
    assert out == Dashed(raw);
    tag := StripChars(out, {'-'});
  }

  /** Each input character yields exactly one output character before the
      strip: its lower-case form when alphanumeric, otherwise one dash. No
      run of separators is collapsed. */
  lemma DashedOnePerChar(raw: string, k: int)
    requires 0 <= k < |raw|
    ensures IsAlnum(raw[k]) ==> Dashed(raw)[k] == Lower(raw[k]) && Dashed(raw)[k] != '-'
    ensures !IsAlnum(raw[k]) ==> Dashed(raw)[k] == '-'
  {
  }

  /** A tag holds only lower-case letters, digits and dashes, and neither
      starts nor ends with a dash; it is a slice of the dashed label with
      only dashes cut from either end. */
  lemma SanitizeShape(raw: string)
    ensures var t := Sanitize(raw);
      && (forall k | 0 <= k < |t| :: IsTagChar(t[k]))
      && (t == [] || (t[0] != '-' && t[|t| - 1] != '-'))
    ensures var t := Sanitize(raw);
      var d := Dashed(raw);
      exists i, j :: 0 <= i <= j <= |d| && t == d[i..j]
        && (forall k | 0 <= k < i :: d[k] == '-')
        && (forall k | j <= k < |d| :: d[k] == '-')
  {
    var d := Dashed(raw);
    var t := Sanitize(raw);
    StripCharsSlice(d, {'-'});
    var i, j :| 0 <= i <= j <= |d| && t == d[i..j];
    DashedTagChars(raw, i, j);
  }

  /** Every character of a slice of the dashed label is a tag character. */
  lemma DashedTagChars(raw: string, i: int, j: int)
    requires 0 <= i <= j <= |raw|
    ensures forall k | 0 <= k < j - i :: IsTagChar(Dashed(raw)[i..j][k])
  {
    var d := Dashed(raw);
    forall k | 0 <= k < j - i
      ensures IsTagChar(d[i..j][k])
    {
      assert d[i..j][k] == d[i + k] == TagChar(raw[i + k]);
    }
  }

  /** A string made of tag characters is its own dashed form. */
  lemma DashedOfTagChars(t: string)
    requires forall k | 0 <= k < |t| :: IsTagChar(t[k])
    ensures Dashed(t) == t
  {
  }

  /** Sanitising a tag again changes nothing. */
  lemma SanitizeIdempotent(raw: string)
    ensures Sanitize(Sanitize(raw)) == Sanitize(raw)
  {
    var t := Sanitize(raw);
    SanitizeShape(raw);
    DashedOfTagChars(t);
    StripCharsIdempotent(Dashed(raw), {'-'});
  }

  /** A tag needs no HTML escaping. */
  lemma SanitizeHtmlSafe(raw: string)
    ensures HtmlSafe(Sanitize(raw))
    ensures Esc(Sanitize(raw)) == Sanitize(raw)
  {
    SanitizeShape(raw);
    EscSafe(Sanitize(raw));
  }

  /** Runs of separators are kept: three spaces give three dashes, so
      "da   comprare" and "Da Comprare!" get different tags. */
  lemma SeparatorRunsKept()
    ensures Sanitize("da   comprare") == "da---comprare"
    ensures Sanitize("Da Comprare!") == "da-comprare"
  {
    var a := Dashed("da   comprare");
    assert a == "da---comprare";
    assert TrimLeft(a, {'-'}) == a;
    assert TrimRight(a, {'-'}) == a;
    var b := Dashed("Da Comprare!");
    assert b == "da-comprare-";
    assert TrimLeft(b, {'-'}) == b;
    assert b[..|b| - 1] == "da-comprare";
    assert TrimRight("da-comprare", {'-'}) == "da-comprare";
  }

  // ---------------------------------------------------------------------
  // render_sample_quarter

  /** The background of a sample without a colour. */
  const NeutralBackground: string := "#eaeaea"

  /** One quarter of an element cell: its class list, and the values of its
      style background, data-state, data-tip and index label, as written
      into the document. */
  datatype Quarter = Quarter(classes: string, background: string, dataState: string,
                             tip: string, index: string)

  /** The filter tag of a sample: empty when the sample has no state. */
  function StateTag(s: Sample): string
  {
    if s.state != "" then Sanitize(s.state) else ""
  }

  /** The escaped non-empty parts of a quarter tooltip: state, then value. */
  function QuarterTipParts(s: Sample): seq<string>
  {
    (if s.state != "" then [Esc(s.state)] else []) + (if s.value != "" then [Esc(s.value)] else [])
  }

  /** The data-tip of a quarter: the escaped parts joined by " | ", escaped
      again; empty when there are no parts. */
  function QuarterTipText(s: Sample): string
  {
    var parts := QuarterTipParts(s);
    if parts != [] then Esc(Join(" | ", parts)) else ""
  }

  /** render_sample_quarter(sample, idx). */
  function RenderQuarter(s: Sample, idx: nat): Quarter
  {
    var bg := if s.color != "" then s.color else NeutralBackground;
    var tip := QuarterTipText(s);
    var stateClass := if s.state != "" then " state-" + Sanitize(s.state) else "";
    Quarter("quarter" + stateClass, Esc(bg), Esc(StateTag(s)), tip, Esc(Decimal(idx + 1)))
  }

  lemma {:induction false} EscLength(s: string)
    ensures |Esc(s)| >= |s|
    decreases |s|
  {
    if |s| > 0 {
      EscLength(s[1..]);
    }
  }

  lemma {:induction false} DecimalHtmlSafe(n: nat)
    ensures Esc(Decimal(n)) == Decimal(n)
  {
    EscSafe(Decimal(n));
  }

  /** A quarter shows the sample's colour, or the neutral grey when it has
      none, and its one-based index. */
  lemma QuarterLook(s: Sample, idx: nat)
    ensures Unescape(RenderQuarter(s, idx).background) ==
      (if s.color != "" then s.color else NeutralBackground)
    ensures RenderQuarter(s, idx).index == Decimal(idx + 1)
  {
    UnescapeEsc(if s.color != "" then s.color else NeutralBackground);
    DecimalHtmlSafe(idx + 1);
  }

  /** A quarter carries the sample's tag as its data-state, and no tag when
      the sample has no state. */
  lemma QuarterTag(s: Sample, idx: nat)
    ensures RenderQuarter(s, idx).dataState == (if s.state == "" then "" else Sanitize(s.state))
  {
    var q := RenderQuarter(s, idx);
    assert q.dataState == Esc(StateTag(s));
    if s.state == "" {
      assert Esc(StateTag(s)) == "";
    } else {
      SanitizeHtmlSafe(s.state);
    }
  }

  /** The class list of a quarter is "quarter", followed, when the sample
      has a state, by one more class "state-<tag>" whose tag holds no
      space, so the tag names a single class. */
  lemma QuarterClasses(s: Sample, idx: nat)
    ensures s.state == "" ==> RenderQuarter(s, idx).classes == "quarter"
    ensures s.state != "" ==>
      RenderQuarter(s, idx).classes == "quarter" + " " + ("state-" + Sanitize(s.state))
    ensures ' ' !in Sanitize(s.state)
  {
    var t := Sanitize(s.state);
    SanitizeShape(s.state);
    if s.state != "" {
      assert " state-" + t == " " + ("state-" + t);
    }
  }

  lemma QuarterTipTextFacts(s: Sample)
    ensures QuarterTipText(s) == "" <==> s.state == "" && s.value == ""
    ensures s.state != "" && s.value != "" ==>
      Unescape(QuarterTipText(s)) == Esc(s.state) + " | " + Esc(s.value)
    ensures s.state != "" && s.value == "" ==> Unescape(QuarterTipText(s)) == Esc(s.state)
    ensures s.state == "" && s.value != "" ==> Unescape(QuarterTipText(s)) == Esc(s.value)
  {
    var parts := QuarterTipParts(s);
    if parts != [] {
      var joined := Join(" | ", parts);
      UnescapeEsc(joined);
      EscLength(joined);
      if s.state != "" {
        EscLength(s.state);
        if s.value != "" {
          assert parts == [Esc(s.state), Esc(s.value)];
          assert parts[1..] == [Esc(s.value)];
          assert Join(" | ", parts[1..]) == Esc(s.value);
          assert joined == Esc(s.state) + " | " + Esc(s.value);
        } else {
          assert parts == [Esc(s.state)];
        }
      } else {
        EscLength(s.value);
        assert parts == [Esc(s.value)];
      }
    }
  }

  /** A quarter's tooltip is empty exactly when state and value both are;
      otherwise it decodes to the escaped state and value joined by " | ",
      so a special character in them reaches the reader still escaped. */
  lemma QuarterTip(s: Sample, idx: nat)
    ensures RenderQuarter(s, idx).tip == "" <==> s.state == "" && s.value == ""
    ensures s.state != "" && s.value != "" ==>
      Unescape(RenderQuarter(s, idx).tip) == Esc(s.state) + " | " + Esc(s.value)
    ensures s.state != "" && s.value == "" ==> Unescape(RenderQuarter(s, idx).tip) == Esc(s.state)
    ensures s.state == "" && s.value != "" ==> Unescape(RenderQuarter(s, idx).tip) == Esc(s.value)
  {
    QuarterTipTextFacts(s);
  }

  /** A sample with neither state, value nor colour renders as a neutral
      quarter: grey, untagged and without a tooltip. */
  lemma EmptySampleIsNeutral(idx: nat)
    ensures var q := RenderQuarter(EmptySample, idx);
      && Unescape(q.background) == NeutralBackground
      && q.dataState == "" && q.tip == "" && q.classes == "quarter"
  {
    QuarterLook(EmptySample, idx);
    QuarterTag(EmptySample, idx);
    QuarterClasses(EmptySample, idx);
    QuarterTip(EmptySample, idx);
  }

  // ---------------------------------------------------------------------
  // The cell tooltip

  /** The tooltip line of the sample with index i, when it has a state or
      a value: "<i+1>: " followed by the non-empty ones joined by "; ". */
  function SampleLine(i: nat, s: Sample): Option<string>
  {
    var parts := (if s.state != "" then [s.state] else []) + (if s.value != "" then [s.value] else []);
    if parts == [] then None else Some(Decimal(i + 1) + ": " + Join("; ", parts))
  }

  /** The sample lines of the first n samples, in order. */
  function SampleLinesUpTo(samples: seq<Sample>, n: nat): seq<string>
    requires n <= |samples|
  {
    if n == 0 then []
    else
      var line := SampleLine(n - 1, samples[n - 1]);
      SampleLinesUpTo(samples, n - 1) + (if line.Some? then [line.value] else [])
  }

  /** The tooltip lines of an element: the escaped name, "Z=<z>", and one
      line for every sample with a state or a value. */
  function TipLines(e: SheetElement): seq<string>
  {
    [Esc(e.name), "Z=" + Decimal(e.z)] + SampleLinesUpTo(e.samples, |e.samples|)
  }

  /** The data-tip of an element cell. */
  function CellTip(e: SheetElement): string
  {
    Esc(Join("\n", TipLines(e)))
  }

  /** The tooltip loop: one line per sample that has a state or a value. */
  method BuildCellTip(e: SheetElement) returns (tip: string)
    ensures tip == CellTip(e)
    ensures Unescape(tip) == Join("\n", TipLines(e))
  {
    var lines := [Esc(e.name), "Z=" + Decimal(e.z)];
    for i := 0 to |e.samples|
      invariant lines == [Esc(e.name), "Z=" + Decimal(e.z)] + SampleLinesUpTo(e.samples, i)
    {
      var s := e.samples[i];
      var parts: seq<string> := [];
      if s.state != "" {
        parts := parts + [s.state];
      }
      if s.value != "" {
        parts := parts + [s.value];
      }
      if parts != [] {
        lines := lines + [Decimal(i + 1) + ": " + Join("; ", parts)];
      }
    }
    tip := Esc(Join("\n", lines));
    UnescapeEsc(Join("\n", lines));
  }

  /** The tooltip lists every sample with a state or a value (not only the
      four drawn as quarters), and nothing else. */
  lemma {:induction false} SampleLinesComplete(samples: seq<Sample>, n: nat)
    requires n <= |samples|
    ensures var lines := SampleLinesUpTo(samples, n);
      && |lines| <= n
      && (forall k | 0 <= k < n && SampleLine(k, samples[k]).Some? ::
            SampleLine(k, samples[k]).value in lines)
      && (forall j | 0 <= j < |lines| :: exists k | 0 <= k < n :: SampleLine(k, samples[k]) == Some(lines[j]))
    decreases n
  {
    if n > 0 {
      SampleLinesComplete(samples, n - 1);
      var prev := SampleLinesUpTo(samples, n - 1);
      var lines := SampleLinesUpTo(samples, n);
      forall j | 0 <= j < |lines|
        ensures exists k | 0 <= k < n :: SampleLine(k, samples[k]) == Some(lines[j])
      {
        if j < |prev| {
          assert lines[j] == prev[j];
        } else {
          assert SampleLine(n - 1, samples[n - 1]) == Some(lines[j]);
        }
      }
    }
  }

  /** The lines of the first m samples are the first lines of the first n
      samples, for m <= n: later samples only append. */
  lemma {:induction false} SampleLinesPrefix(samples: seq<Sample>, m: nat, n: nat)
    requires m <= n <= |samples|
    ensures |SampleLinesUpTo(samples, m)| <= |SampleLinesUpTo(samples, n)|
    ensures SampleLinesUpTo(samples, m) == SampleLinesUpTo(samples, n)[..|SampleLinesUpTo(samples, m)|]
    decreases n
  {
    if m < n {
      SampleLinesPrefix(samples, m, n - 1);
      var prev := SampleLinesUpTo(samples, n - 1);
      var lines := SampleLinesUpTo(samples, n);
      assert prev == lines[..|prev|];
    }
  }

  /** The line of sample k sits right after the lines of the samples before
      it. */
  lemma SampleLineAt(samples: seq<Sample>, n: nat, k: nat)
    requires k < n <= |samples| && SampleLine(k, samples[k]).Some?
    ensures var p := |SampleLinesUpTo(samples, k)|;
      p < |SampleLinesUpTo(samples, n)|
      && SampleLinesUpTo(samples, n)[p] == SampleLine(k, samples[k]).value
  {
    SampleLinesPrefix(samples, k + 1, n);
    var before := SampleLinesUpTo(samples, k);
    assert SampleLinesUpTo(samples, k + 1) == before + [SampleLine(k, samples[k]).value];
  }

  /** The tooltip keeps sample order: when samples k1 < k2 both have a line,
      the line of k1 comes before the line of k2. */
  lemma SampleLinesInOrder(samples: seq<Sample>, n: nat, k1: nat, k2: nat)
    requires k1 < k2 < n <= |samples|
    requires SampleLine(k1, samples[k1]).Some? && SampleLine(k2, samples[k2]).Some?
    ensures var lines, p1, p2 := SampleLinesUpTo(samples, n),
        |SampleLinesUpTo(samples, k1)|, |SampleLinesUpTo(samples, k2)|;
      p1 < p2 < |lines|
      && lines[p1] == SampleLine(k1, samples[k1]).value
      && lines[p2] == SampleLine(k2, samples[k2]).value
  {
    SampleLineAt(samples, n, k1);
    SampleLineAt(samples, n, k2);
    var next := SampleLinesUpTo(samples, k1 + 1);
    assert |next| == |SampleLinesUpTo(samples, k1)| + 1;
    SampleLinesPrefix(samples, k1 + 1, k2);
  }

  /** When every sample has a state, the tooltip has exactly one line per
      sample, the k-th for sample k. */
  lemma {:induction false} SampleLinesAllStated(samples: seq<Sample>, n: nat)
    requires n <= |samples|
    requires forall k | 0 <= k < |samples| :: samples[k].state != ""
    ensures |SampleLinesUpTo(samples, n)| == n
    ensures forall k | 0 <= k < n :: Some(SampleLinesUpTo(samples, n)[k]) == SampleLine(k, samples[k])
    decreases n
  {
    if n > 0 {
      SampleLinesAllStated(samples, n - 1);
    }
  }

  /** A joined list of two or more parts starts with its first two parts
      and the separator between them. */
  lemma JoinStartsWithFirstTwo(sep: string, parts: seq<string>)
    requires |parts| >= 2
    ensures StartsWith(Join(sep, parts), parts[0] + sep + parts[1])
  {
    var p := parts[0] + sep + parts[1];
    var tail := parts[1..];
    if |tail| == 1 {
      assert Join(sep, parts) == p;
    } else {
      assert Join(sep, tail) == parts[1] + sep + Join(sep, tail[1..]);
      assert Join(sep, parts) == p + sep + Join(sep, tail[1..]);
    }
    assert Join(sep, parts)[..|p|] == p;
  }

  /** The decoded tooltip starts with the element name still escaped once
      (the name is escaped twice in the document), then its number. */
  lemma CellTipShowsEscapedName(e: SheetElement)
    ensures StartsWith(Unescape(CellTip(e)), Esc(e.name) + "\n" + ("Z=" + Decimal(e.z)))
  {
    var lines := TipLines(e);
    assert lines[0] == Esc(e.name) && lines[1] == "Z=" + Decimal(e.z);
    UnescapeEsc(Join("\n", lines));
    JoinStartsWithFirstTwo("\n", lines);
  }

  // ---------------------------------------------------------------------
  // The grid walk

  /** One of the 180 grid positions. */
  datatype Cell =
    | Empty
    | Spacer
    | Element(z: nat, symbol: string, tip: string, quarters: seq<Quarter>)

  /** elem_by_z: atomic number to element, a later element replacing an
      earlier one with the same number. */
  function IndexByZ(elements: seq<SheetElement>): map<nat, SheetElement>
    decreases |elements|
  {
    if |elements| == 0 then map[]
    else
      var last := elements[|elements| - 1];
      IndexByZ(elements[..|elements| - 1])[last.z := last]
  }

  /** The index holds exactly the numbers that occur, each mapped to the
      last element carrying it. */
  lemma {:induction false} IndexByZFacts(elements: seq<SheetElement>, z: nat)
    ensures z in IndexByZ(elements) <==> exists i | 0 <= i < |elements| :: elements[i].z == z
    ensures forall i | 0 <= i < |elements| && elements[i].z == z
        && (forall j | i < j < |elements| :: elements[j].z != z) ::
        z in IndexByZ(elements) && IndexByZ(elements)[z] == elements[i]
    decreases |elements|
  {
    if |elements| > 0 {
      var n := |elements| - 1;
      var init := elements[..n];
      IndexByZFacts(init, z);
      if elements[n].z != z {
        if z in IndexByZ(init) {
          var i :| 0 <= i < n && init[i].z == z;
          assert elements[i] == init[i];
        }
        forall i | 0 <= i < |elements| && elements[i].z == z
          ensures i < n && init[i] == elements[i]
        {
        }
      }
    }
  }

  /** Over elements numbered 1, 2, ... in order, the index finds element
      z at position z - 1. */
  lemma IndexOfAssembled(elements: seq<SheetElement>, z: nat)
    requires forall i | 0 <= i < |elements| :: elements[i].z == i + 1
    requires 1 <= z <= |elements|
    ensures z in IndexByZ(elements) && IndexByZ(elements)[z] == elements[z - 1]
  {
    IndexByZFacts(elements, z);
  }

  /** The atomic number placed at (row, col): the main block for rows 1..7,
      the lanthanides 57..71 and the actinides 89..103 in ascending order at
      columns 4..18 of rows 9 and 10. The two runs are the rows AssignFBlock
      computes (Positions.AssignFBlockRows). */
  function GridZ(row: int, col: int): Option<nat>
  {
    if row <= 7 then PositionAt(row, col)
    else if row == 9 && 4 <= col <= 18 then Some(57 + (col - 4))
    else if row == 10 && 4 <= col <= 18 then Some(89 + (col - 4))
    else None
  }

  /** The grid position of atomic number z. */
  function Home(z: nat): (int, int)
    requires 1 <= z <= Count
  {
    if IsLanthanide(z) then (9, z - 57 + 4)
    else if IsActinide(z) then (10, z - 89 + 4)
    else (PeriodicTable[z - 1].period, PeriodicTable[z - 1].group)
  }

  /** Every atomic number 1..118 is placed at exactly one grid position, its
      home, and nothing else is placed anywhere: in particular row 8 and
      columns 1..3 of rows 9 and 10 stay empty. */
  lemma PlacedExactlyOnce(row: int, col: int, z: int)
    requires 1 <= row <= 10 && 1 <= col <= 18
    ensures GridZ(row, col).Some? ==> 1 <= GridZ(row, col).value <= Count
    ensures 1 <= z <= Count ==> (GridZ(row, col) == Some(z) <==> Home(z) == (row, col))
    ensures row == 8 || (row >= 9 && col <= 3) ==> GridZ(row, col) == None
  {
    TableIsChunks();
    if 1 <= z <= Count {
      EntryFacts(z - 1);
      PositionAtIff(row, col, z);
    }
    GridZInRange(row, col);
  }

  /** Whatever is placed on the grid is an atomic number 1..118. */
  lemma GridZInRange(row: int, col: int)
    ensures GridZ(row, col).Some? ==> 1 <= GridZ(row, col).value <= Count
  {
    if row <= 7 && PositionAt(row, col).Some? {
      PositionAtIff(row, col, PositionAt(row, col).value);
    }
  }

  /** The cell drawn for an element: its number, escaped symbol, tooltip,
      and one quarter for each of its first four samples. */
  function ElementCell(e: SheetElement): (c: Cell)
    requires |e.samples| >= 4
    ensures c.Element? && c.z == e.z && Unescape(c.symbol) == e.symbol
    ensures |c.quarters| == 4
    ensures forall i | 0 <= i < 4 :: c.quarters[i] == RenderQuarter(e.samples[i], i)
  {
    UnescapeEsc(e.symbol);
    Element(e.z, Esc(e.symbol), CellTip(e), seq(4, i requires 0 <= i < 4 => RenderQuarter(e.samples[i], i)))
  }

  /** Every element the grid can draw has the four samples its quarters need. */
  predicate DrawableElements(elements: seq<SheetElement>)
  {
    var byZ := IndexByZ(elements);
    forall z: nat | 1 <= z <= Count && z in byZ :: |byZ[z].samples| >= 4
  }

  /** The cell at (row, col): spacers on row 8; elsewhere the element whose
      number is placed there, or an empty cell when none is placed or no
      element carries that number. */
  function CellAt(elements: seq<SheetElement>, row: int, col: int): Cell
    requires DrawableElements(elements)
    requires 1 <= row <= 10 && 1 <= col <= 18
  {
    if row == 8 then Spacer
    else
      var byZ := IndexByZ(elements);
      var z := GridZ(row, col);
      GridZInRange(row, col);
      if z.None? || z.value !in byZ then Empty
      else ElementCell(byZ[z.value])
  }

  /** The 18 cells of one grid row, left to right. */
  function GridRow(elements: seq<SheetElement>, row: int): (r: seq<Cell>)
    requires DrawableElements(elements)
    requires 1 <= row <= 10
    ensures |r| == 18
  {
    seq(18, c requires 0 <= c < 18 => CellAt(elements, row, c + 1))
  }

  /** The cell loop of render_html: rows 1..10, columns 1..18, row-major. */
  method RenderGrid(elements: seq<SheetElement>) returns (cells: seq<Cell>)
    requires DrawableElements(elements)
    ensures |cells| == 180
    ensures forall row, col | 1 <= row <= 10 && 1 <= col <= 18 ::
      cells[(row - 1) * 18 + (col - 1)] == CellAt(elements, row, col)
  {
    var elemByZ := IndexByZ(elements);
    var posMap := BuildCellPositions();
    var (lanths, actins) := AssignFBlock();
    AssignFBlockRows();
    assert GridInputs(elements, elemByZ, posMap, lanths, actins);
    cells := [];
    for row := 1 to 11
      invariant |cells| == (row - 1) * 18
      invariant forall r, c | 1 <= r < row && 1 <= c <= 18 ::
        cells[(r - 1) * 18 + (c - 1)] == CellAt(elements, r, c)
    {
      var rowCells := RenderRow(elements, elemByZ, posMap, lanths, actins, row);
      ghost var done := cells;
      cells := cells + rowCells;
      forall r, c | 1 <= r <= row && 1 <= c <= 18
        ensures cells[(r - 1) * 18 + (c - 1)] == CellAt(elements, r, c)
      {
        if r < row {
          assert cells[(r - 1) * 18 + (c - 1)] == done[(r - 1) * 18 + (c - 1)];
        } else {
          assert cells[(r - 1) * 18 + (c - 1)] == rowCells[c - 1] == GridRow(elements, row)[c - 1];
        }
      }
    }
  }

  /** What the cell loop works from: the elements and their index by atomic
      number, the position map, and the two f-block rows. */
  ghost predicate GridInputs(elements: seq<SheetElement>, elemByZ: map<nat, SheetElement>,
                       posMap: map<(int, int), Option<nat>>, lanths: seq<nat>, actins: seq<nat>)
  {
    && DrawableElements(elements) && elemByZ == IndexByZ(elements)
    && (forall k | k in posMap :: posMap[k] == PositionAt(k.0, k.1))
    && (forall k :: k in posMap <==> InMainBlock(k))
    && |lanths| == 15 && |actins| == 15
    && (forall k | 0 <= k < 15 :: lanths[k] == 57 + k && actins[k] == 89 + k)
  }

  /** The inner loop of the cell walk: columns 1..18 of one row. */
  method RenderRow(elements: seq<SheetElement>, elemByZ: map<nat, SheetElement>,
                   posMap: map<(int, int), Option<nat>>, lanths: seq<nat>, actins: seq<nat>,
                   row: int) returns (rowCells: seq<Cell>)
    requires GridInputs(elements, elemByZ, posMap, lanths, actins)
    requires 1 <= row <= 10
    ensures rowCells == GridRow(elements, row)
  {
    ghost var want := GridRow(elements, row);
    rowCells := [];
    for col := 1 to 19
      invariant rowCells == want[..col - 1]
    {
      var cell := RenderCell(elements, elemByZ, posMap, lanths, actins, row, col);
      assert want[col - 1] == cell;
      rowCells := rowCells + [cell];
      assert rowCells == want[..col];
    }
  }

  /** The body of the cell loop for one grid position. */
  method RenderCell(elements: seq<SheetElement>, elemByZ: map<nat, SheetElement>,
                    posMap: map<(int, int), Option<nat>>, lanths: seq<nat>, actins: seq<nat>,
                    row: int, col: int) returns (cell: Cell)
    requires GridInputs(elements, elemByZ, posMap, lanths, actins)
    requires 1 <= row <= 10 && 1 <= col <= 18
    ensures cell == CellAt(elements, row, col)
  {
    var z: Option<nat> := None;
    if row <= 7 {
      z := if (row, col) in posMap then posMap[(row, col)] else None;
    }
    if row == 8 {
      return Spacer;
    }
    if row == 9 && 4 <= col <= 18 {
      var idx := col - 4;
      if idx < |lanths| {
        z := Some(lanths[idx]);
      }
    }
    if row == 10 && 4 <= col <= 18 {
      var idx := col - 4;
      if idx < |actins| {
        z := Some(actins[idx]);
      }
    }
    assert z == GridZ(row, col);
    GridZInRange(row, col);
    if z.None? {
      cell := Empty;
    } else if z.value !in elemByZ {
      cell := Empty;
    } else {
      var e := elemByZ[z.value];
      var tip := BuildCellTip(e);
      var quarters := seq(4, i requires 0 <= i < 4 => RenderQuarter(e.samples[i], i));
      cell := Element(e.z, Esc(e.symbol), tip, quarters);
    }
  }

  /** The elements assembled from any payload can all be drawn. */
  lemma AssembledDrawable(elements: seq<SheetElement>, entries: seq<Entry>, labelColors: seq<(string, string)>)
    requires |elements| == Count
    requires forall i | 0 <= i < Count :: elements[i] == ElementFor(PeriodicTable[i], entries, labelColors)
    ensures forall i | 0 <= i < Count :: elements[i].z == i + 1
    ensures DrawableElements(elements)
  {
    forall i | 0 <= i < Count
      ensures elements[i].z == i + 1 && |elements[i].samples| >= 4
    {
      MergedShape(entries, labelColors, i);
    }
    forall z: nat | 1 <= z <= Count && z in IndexByZ(elements)
      ensures |IndexByZ(elements)[z].samples| >= 4
    {
      IndexOfAssembled(elements, z);
    }
  }

  /** Over the assembled elements, every element is drawn at its home
      position, with its own number, symbol and first four samples. */
  lemma EveryElementDrawnAtHome(elements: seq<SheetElement>, entries: seq<Entry>,
                                labelColors: seq<(string, string)>, z: nat)
    requires |elements| == Count
    requires forall i | 0 <= i < Count :: elements[i] == ElementFor(PeriodicTable[i], entries, labelColors)
    requires 1 <= z <= Count
    ensures DrawableElements(elements)
    ensures 1 <= Home(z).0 <= 10 && 1 <= Home(z).1 <= 18
    ensures |elements[z - 1].samples| >= 4
    ensures CellAt(elements, Home(z).0, Home(z).1) == ElementCell(elements[z - 1])
  {
    AssembledDrawable(elements, entries, labelColors);
    TableIsChunks();
    EntryFacts(z - 1);
    var (row, col) := Home(z);
    PlacedExactlyOnce(row, col, z);
    IndexOfAssembled(elements, z);
  }

  /** An element the payload has no row for is drawn with four neutral
      quarters: grey, untagged, without tooltips. */
  lemma MissingElementDrawnNeutral(meta: Meta, entries: seq<Entry>, labelColors: seq<(string, string)>, i: nat)
    requires forall j | 0 <= j < |entries| :: Key(entries[j]) != meta.symbol
    requires i < 4
    ensures |ElementFor(meta, entries, labelColors).samples| == 4
    ensures var q := ElementCell(ElementFor(meta, entries, labelColors)).quarters[i];
      Unescape(q.background) == NeutralBackground && q.dataState == "" && q.tip == ""
  {
    var e := ElementFor(meta, entries, labelColors);
    MissingSymbolGivesFourEmptySamples(meta, entries, labelColors);
    assert e.samples[i] == EmptySample;
    assert ElementCell(e).quarters[i] == RenderQuarter(EmptySample, i);
    EmptySampleIsNeutral(i);
  }

  /** With no elements at all, the grid holds only spacers and empty cells. */
  lemma NoElementsNoCells(row: int, col: int)
    requires 1 <= row <= 10 && 1 <= col <= 18
    ensures DrawableElements([])
    ensures CellAt([], row, col) == (if row == 8 then Spacer else Empty)
  {
  }
}
