/** The record merger (assemble_elements): joins the sheet payload with the
    geometry table, one element per table entry in ascending atomic number,
    each with at least four normalised samples. */
module Merge {
  import opened Wrappers
  import opened Text
  import opened Table

  /** A member of a decoded JSON object: missing, null, or a string. In the
      fields passed through str() (symbol, value, state, colour), a number is
      represented by the text str() gives it. */
  datatype Field = Absent | Null | Str(text: string)

  /** str(obj.get(key, "")): a missing member reads as the default "", a
      null member as the text "None". */
  function AsStr(f: Field): string
  {
    match f
    case Absent => ""
    case Null => "None"
    case Str(t) => t
  }

  /** One sample object of the payload: {value, state, color}. */
  datatype RawSample = RawSample(value: Field, state: Field, color: Field)

  /** One element row of the payload: its symbol and its sample list (a
      missing "samples" member is the empty list). */
  datatype Entry = Entry(symbol: Field, samples: seq<RawSample>)

  datatype Sample = Sample(value: string, state: string, color: string)

  datatype SheetElement = SheetElement(z: nat, symbol: string, name: string, samples: seq<Sample>)

  const EmptySample := Sample("", "", "")

  /** The label -> colour mapping is a dict, given by its items in order.
      dict.get(key, default): the value of the item with that key. */
  function Get(items: seq<(string, string)>, key: string, default: string): (r: string)
    ensures (forall k | 0 <= k < |items| :: items[k].0 != key) ==> r == default
    ensures forall k | 0 <= k < |items| && items[k].0 == key ::
      (forall j | 0 <= j < k :: items[j].0 != key) ==> r == items[k].1
    decreases |items|
  {
    if |items| == 0 then default
    else if items[0].0 == key then items[0].1
    else Get(items[1..], key, default)
  }

  /** Normalise one payload sample: the value is kept verbatim (null or
      missing becomes ""), state and colour are stripped, and a labelled
      sample without a colour takes its colour from the legend. */
  function Normalise(raw: RawSample, labelColors: seq<(string, string)>): Sample
  {
    var value := if raw.value.Str? then raw.value.text else "";
    var state := Strip(AsStr(raw.state));
    var color := Strip(AsStr(raw.color));
    var color := if state != "" && color == "" then Get(labelColors, state, "") else color;
    Sample(value, state, color)
  }

  /** What normalisation promises about each field. The state is the
      payload's state text stripped: a slice of it with only whitespace cut
      from either end, neither starting nor ending with whitespace. */
  lemma NormaliseFields(raw: RawSample, labelColors: seq<(string, string)>)
    ensures Normalise(raw, labelColors).state == Strip(AsStr(raw.state))
    ensures var s, t := Normalise(raw, labelColors), AsStr(raw.state);
      exists i, j :: 0 <= i <= j <= |t| && s.state == t[i..j]
        && (forall k | 0 <= k < i :: t[k] in Whitespace)
        && (forall k | j <= k < |t| :: t[k] in Whitespace)
    ensures var s := Normalise(raw, labelColors);
      && (raw.value.Str? ==> s.value == raw.value.text)
      && (!raw.value.Str? ==> s.value == "")
      && (s.state == "" || (s.state[0] !in Whitespace && s.state[|s.state| - 1] !in Whitespace))
      && (s.state == "" ==> s.color == Strip(AsStr(raw.color)))
      && (Strip(AsStr(raw.color)) != "" ==> s.color == Strip(AsStr(raw.color)))
      && (s.state != "" && Strip(AsStr(raw.color)) == "" ==>
            ((forall k | 0 <= k < |labelColors| :: labelColors[k].0 != s.state) ==> s.color == "")
            && (forall k | 0 <= k < |labelColors| && labelColors[k].0 == s.state
                  && (forall j | 0 <= j < k :: labelColors[j].0 != s.state) ::
                  s.color == labelColors[k].1))
  {
    StripCharsSlice(AsStr(raw.state), Whitespace);
  }

  function NormaliseAll(raws: seq<RawSample>, labelColors: seq<(string, string)>): (r: seq<Sample>)
    ensures |r| == |raws|
  {
    seq(|raws|, k requires 0 <= k < |raws| => Normalise(raws[k], labelColors))
  }

  /** The lookup key of a payload row: its symbol, stripped. */
  function Key(e: Entry): string
  {
    Strip(AsStr(e.symbol))
  }

  /** The last row of the payload whose key is sym. */
  function LastEntry(entries: seq<Entry>, sym: string): Option<Entry>
    decreases |entries|
  {
    if |entries| == 0 then None
    else if Key(entries[|entries| - 1]) == sym then Some(entries[|entries| - 1])
    else LastEntry(entries[..|entries| - 1], sym)
  }

  /** sheet_map.get(sym): rows with a blank key never enter the map, and a
      later row with the same key replaces an earlier one. */
  function Lookup(entries: seq<Entry>, sym: string): Option<Entry>
  {
    if sym == "" then None else LastEntry(entries, sym)
  }

  /** A symbol is found exactly when some row has it as its key. */
  lemma {:induction false} LastEntryFound(entries: seq<Entry>, sym: string)
    ensures LastEntry(entries, sym).Some? <==> exists j | 0 <= j < |entries| :: Key(entries[j]) == sym
    ensures LastEntry(entries, sym).Some? ==> Key(LastEntry(entries, sym).value) == sym
    decreases |entries|
  {
    if |entries| > 0 {
      var n := |entries| - 1;
      var init := entries[..n];
      LastEntryFound(init, sym);
      if Key(entries[n]) != sym {
        if LastEntry(init, sym).Some? {
          var j :| 0 <= j < n && Key(init[j]) == sym;
          assert entries[j] == init[j];
        } else {
          forall j | 0 <= j < |entries|
            ensures Key(entries[j]) != sym
          {
            if j < n {
              assert entries[j] == init[j];
            }
          }
        }
      }
    }
  }

  /** A later duplicate overrides: the row found for a key is the last row
      carrying that key. */
  lemma {:induction false} LaterDuplicateWins(entries: seq<Entry>, j: nat)
    requires j < |entries| && Key(entries[j]) != ""
    requires forall k | j < k < |entries| :: Key(entries[k]) != Key(entries[j])
    ensures Lookup(entries, Key(entries[j])) == Some(entries[j])
    decreases |entries|
  {
    if j < |entries| - 1 {
      var init := entries[..|entries| - 1];
      assert init[j] == entries[j];
      LaterDuplicateWins(init, j);
    }
  }

  /** A row whose stripped symbol is blank can be inserted anywhere in the
      payload without changing any lookup. */
  lemma {:induction false} BlankRowIgnored(before: seq<Entry>, blank: Entry, after: seq<Entry>, sym: string)
    requires Key(blank) == ""
    ensures Lookup(before + [blank] + after, sym) == Lookup(before + after, sym)
    decreases |after|
  {
    if sym != "" {
      if |after| == 0 {
        assert (before + [blank] + after)[..|before|] == before;
        assert before + after == before;
      } else {
        var last := after[|after| - 1];
        var init := after[..|after| - 1];
        assert before + [blank] + after == (before + [blank] + init) + [last];
        assert before + after == (before + init) + [last];
        assert (before + [blank] + init + [last])[..|before| + 1 + |init|] == before + [blank] + init;
        assert (before + init + [last])[..|before| + |init|] == before + init;
        BlankRowIgnored(before, blank, init, sym);
      }
    }
  }

  /** The sample list padded with empty samples up to four. */
  function Padded(samples: seq<Sample>): (r: seq<Sample>)
    ensures |r| == if |samples| >= 4 then |samples| else 4
    ensures r[..|samples|] == samples
    ensures forall k | |samples| <= k < |r| :: r[k] == EmptySample
    decreases 4 - |samples|
  {
    if |samples| >= 4 then samples else Padded(samples + [EmptySample])
  }

  /** The samples of an element: those of the row found for it, normalised,
      or four empty ones when there is none; padded to four. */
  function SamplesFor(found: Option<Entry>, labelColors: seq<(string, string)>): seq<Sample>
  {
    var samples := match found
      case Some(entry) => NormaliseAll(entry.samples, labelColors)
      case None => [EmptySample, EmptySample, EmptySample, EmptySample];
    Padded(samples)
  }

  /** The merged element for one table entry. */
  function ElementFor(meta: Meta, entries: seq<Entry>, labelColors: seq<(string, string)>): SheetElement
  {
    SheetElement(meta.z, meta.symbol, meta.name, SamplesFor(Lookup(entries, meta.symbol), labelColors))
  }

  /** An element the payload has no row for gets exactly four empty samples. */
  lemma MissingSymbolGivesFourEmptySamples(meta: Meta, entries: seq<Entry>, labelColors: seq<(string, string)>)
    requires forall j | 0 <= j < |entries| :: Key(entries[j]) != meta.symbol
    ensures ElementFor(meta, entries, labelColors).samples
      == [EmptySample, EmptySample, EmptySample, EmptySample]
  {
    LastEntryFound(entries, meta.symbol);
  }

  /** An element the payload has a row for keeps every normalised sample of
      that row, in order, never truncated, padded with empty samples to four. */
  lemma FoundSymbolKeepsAllSamples(meta: Meta, entries: seq<Entry>, labelColors: seq<(string, string)>, j: nat)
    requires j < |entries| && Key(entries[j]) == meta.symbol && meta.symbol != ""
    requires forall k | j < k < |entries| :: Key(entries[k]) != meta.symbol
    ensures var samples := ElementFor(meta, entries, labelColors).samples;
      var raws := entries[j].samples;
      && |samples| == (if |raws| >= 4 then |raws| else 4)
      && (forall k | 0 <= k < |raws| :: samples[k] == Normalise(raws[k], labelColors))
      && (forall k | |raws| <= k < |samples| :: samples[k] == EmptySample)
  {
    LaterDuplicateWins(entries, j);
    var raws := entries[j].samples;
    var samples := ElementFor(meta, entries, labelColors).samples;
    assert samples[..|raws|] == NormaliseAll(raws, labelColors);
    forall k | 0 <= k < |raws|
      ensures samples[k] == Normalise(raws[k], labelColors)
    {
      assert samples[k] == samples[..|raws|][k];
    }
  }

  /** Building sheet_map: a row with a blank stripped symbol is skipped; any
      other row is stored under its stripped symbol, replacing an earlier one. */
  method BuildSheetMap(entries: seq<Entry>) returns (sheetMap: map<string, Entry>)
    ensures forall sym :: sym in sheetMap <==> Lookup(entries, sym).Some?
    ensures forall sym | sym in sheetMap :: sheetMap[sym] == Lookup(entries, sym).value
  {
    sheetMap := map[];
    for i := 0 to |entries|
      invariant forall sym :: sym in sheetMap <==> Lookup(entries[..i], sym).Some?
      invariant forall sym | sym in sheetMap :: sheetMap[sym] == Lookup(entries[..i], sym).value
    {
      assert entries[..i + 1][..i] == entries[..i];
      var sym := Key(entries[i]);
      if sym == "" {
        continue;
      }
      sheetMap := sheetMap[sym := entries[i]];
    }
    assert entries[..|entries|] == entries;
  }

  /** The per-element body of assemble_elements: normalise the samples of
      the row found (if any), then append empty samples while fewer than four. */
  method CollectSamples(found: Option<Entry>, labelColors: seq<(string, string)>)
    returns (samplesInfo: seq<Sample>)
    ensures samplesInfo == SamplesFor(found, labelColors)
  {
    samplesInfo := [];
    if found.Some? {
      var entry := found.value;
      for k := 0 to |entry.samples|
        invariant samplesInfo == NormaliseAll(entry.samples[..k], labelColors)
      {
        samplesInfo := samplesInfo + [Normalise(entry.samples[k], labelColors)];
      }
      assert entry.samples[..|entry.samples|] == entry.samples;
    } else {
      samplesInfo := [EmptySample, EmptySample, EmptySample, EmptySample];
    }
    ghost var unpadded := samplesInfo;
    while |samplesInfo| < 4
      invariant Padded(samplesInfo) == Padded(unpadded)
      decreases 4 - |samplesInfo|
    {
      samplesInfo := samplesInfo + [EmptySample];
    }
  }

  /** The body of the element loop: look the entry's symbol up in the
      symbol map and merge its samples. */
  method MergeOne(meta: Meta, sheetMap: map<string, Entry>, ghost entries: seq<Entry>,
                  labelColors: seq<(string, string)>) returns (element: SheetElement)
    requires forall sym :: sym in sheetMap <==> Lookup(entries, sym).Some?
    requires forall sym | sym in sheetMap :: sheetMap[sym] == Lookup(entries, sym).value
    ensures element == ElementFor(meta, entries, labelColors)
  {
    var found := if meta.symbol in sheetMap then Some(sheetMap[meta.symbol]) else None;
    assert found == Lookup(entries, meta.symbol);
    var samplesInfo := CollectSamples(found, labelColors);
    element := SheetElement(meta.z, meta.symbol, meta.name, samplesInfo);
  }

  /** assemble_elements: one element per table entry, in table order. */
  method AssembleElements(entries: seq<Entry>, labelColors: seq<(string, string)>)
    returns (elements: seq<SheetElement>)
    ensures |elements| == Count
    ensures forall i | 0 <= i < Count ::
      elements[i] == ElementFor(PeriodicTable[i], entries, labelColors)
  {
    var sheetMap := BuildSheetMap(entries);
    TableIsChunks();
    elements := MergeAll(PeriodicTable, sheetMap, entries, labelColors);
  }

  /** The element loop of assemble_elements over the entries of a table. */
  method MergeAll(table: seq<Meta>, sheetMap: map<string, Entry>, ghost entries: seq<Entry>,
                  labelColors: seq<(string, string)>) returns (elements: seq<SheetElement>)
    requires forall sym :: sym in sheetMap <==> Lookup(entries, sym).Some?
    requires forall sym | sym in sheetMap :: sheetMap[sym] == Lookup(entries, sym).value
    ensures |elements| == |table|
    ensures forall i | 0 <= i < |table| :: elements[i] == ElementFor(table[i], entries, labelColors)
  {
    elements := [];
    for i := 0 to |table|
      invariant |elements| == i
      invariant forall j | 0 <= j < i :: elements[j] == ElementFor(table[j], entries, labelColors)
    {
      var element := MergeOne(table[i], sheetMap, entries, labelColors);
      elements := elements + [element];
    }
  }

  /** The merged elements come in ascending atomic number, carry the
      table's symbols and names, and have at least four samples each. */
  lemma MergedShape(entries: seq<Entry>, labelColors: seq<(string, string)>, i: nat)
    requires i < Count
    ensures |PeriodicTable| == Count
    ensures var e := ElementFor(PeriodicTable[i], entries, labelColors);
      && e.z == i + 1
      && e.symbol == PeriodicTable[i].symbol && e.name == PeriodicTable[i].name
      && |e.samples| >= 4
  {
    EntryFacts(i);
  }
}
