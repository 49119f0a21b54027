/** The legend of render_html and the filter it drives: the legend order
    (the payload's colour -> label legend, inverted, or else the
    label -> colour mapping), one legend item per non-empty label, and the
    client-side rule that dims every quarter whose tag differs from the
    clicked item's tag. */
module Legend {
  import opened Wrappers
  import opened Text
  import opened Merge
  import opened Render

  /** Building legend_order: the pairs of the "legend" member, when the
      payload has one, turned from (colour, label) into (label, colour);
      otherwise the (label, colour) pairs of the label -> colour mapping. */
  method LegendOrder(legend: Option<seq<(string, string)>>, labelColors: seq<(string, string)>)
    returns (order: seq<(string, string)>)
    ensures legend.Some? ==> |order| == |legend.value|
    ensures legend.Some? ==> forall k | 0 <= k < |order| ::
      order[k].0 == legend.value[k].1 && order[k].1 == legend.value[k].0
    ensures legend.None? ==> order == labelColors
  {
    order := [];
    if legend.Some? {
      var pairs := legend.value;
      for k := 0 to |pairs|
        invariant |order| == k
        invariant forall j | 0 <= j < k :: order[j] == (pairs[j].1, pairs[j].0)
      {
        var (color, text) := pairs[k];
        order := order + [(text, color)];
      }
    } else {
      for k := 0 to |labelColors|
        invariant order == labelColors[..k]
      {
        var (text, color) := labelColors[k];
        order := order + [(text, color)];
      }
      assert labelColors[..|labelColors|] == labelColors;
    }
  }

  /** One legend item: the values of its data-state, its swatch background
      and its text, as written into the document. */
  datatype LegendItem = LegendItem(dataState: string, background: string, text: string)

  /** The legend item for one (label, colour) pair. */
  function ItemFor(entry: (string, string)): LegendItem
  {
    var (text, color) := entry;
    LegendItem(Esc(Sanitize(text)), Esc(color), Esc(text))
  }

  /** The legend items for an order: one per pair with a non-empty label,
      in order. */
  function LegendItems(order: seq<(string, string)>): seq<LegendItem>
    decreases |order|
  {
    if |order| == 0 then []
    else (if order[0].0 == "" then [] else [ItemFor(order[0])]) + LegendItems(order[1..])
  }

  /** The items of two consecutive parts of the order are those of the
      first part followed by those of the second. */
  lemma {:induction false} LegendItemsAppend(a: seq<(string, string)>, b: seq<(string, string)>)
    ensures LegendItems(a + b) == LegendItems(a) + LegendItems(b)
    decreases |a|
  {
    if |a| == 0 {
      assert a + b == b;
    } else {
      assert (a + b)[0] == a[0] && (a + b)[1..] == a[1..] + b;
      LegendItemsAppend(a[1..], b);
    }
  }

  /** The legend loop: skip pairs with an empty label, append an item for
      every other pair. */
  method RenderLegend(order: seq<(string, string)>) returns (items: seq<LegendItem>)
    ensures items == LegendItems(order)
  {
    items := [];
    for k := 0 to |order|
      invariant items == LegendItems(order[..k])
    {
      assert order[..k + 1] == order[..k] + [order[k]];
      LegendItemsAppend(order[..k], [order[k]]);
      var (text, color) := order[k];
      if text == "" {
        continue;
      }
      var stateId := Sanitize(text);
      items := items + [LegendItem(Esc(stateId), Esc(color), Esc(text))];
    }
    assert order[..|order|] == order;
  }

  /** Every pair with a non-empty label has its item in the legend, and every
      item of the legend comes from such a pair: empty labels are dropped
      and nothing else is. */
  lemma {:induction false} LegendItemsComplete(order: seq<(string, string)>)
    ensures |LegendItems(order)| <= |order|
    ensures forall k | 0 <= k < |order| && order[k].0 != "" :: ItemFor(order[k]) in LegendItems(order)
    ensures forall item | item in LegendItems(order) ::
      exists k | 0 <= k < |order| :: order[k].0 != "" && item == ItemFor(order[k])
    decreases |order|
  {
    if |order| > 0 {
      var rest := order[1..];
      LegendItemsComplete(rest);
      forall k | 0 <= k < |order| && order[k].0 != ""
        ensures ItemFor(order[k]) in LegendItems(order)
      {
        if k > 0 {
          assert order[k] == rest[k - 1];
        }
      }
      forall item | item in LegendItems(order)
        ensures exists k | 0 <= k < |order| :: order[k].0 != "" && item == ItemFor(order[k])
      {
        if item in LegendItems(rest) {
          var j :| 0 <= j < |rest| && rest[j].0 != "" && item == ItemFor(rest[j]);
          assert order[j + 1] == rest[j];
        }
      }
    }
  }

  /** An item decodes to its label, its colour and the label's tag. */
  lemma ItemShows(entry: (string, string))
    ensures Unescape(ItemFor(entry).text) == entry.0
    ensures Unescape(ItemFor(entry).background) == entry.1
    ensures ItemFor(entry).dataState == Sanitize(entry.0)
  {
    UnescapeEsc(entry.0);
    UnescapeEsc(entry.1);
    SanitizeHtmlSafe(entry.0);
  }

  /** The legend tag and the quarter tag come from the same sanitiser: a
      legend item and a quarter of a sample with a state carry the same
      data-state exactly when the label and the state sanitise alike. */
  lemma LegendTagMatchesQuarter(entry: (string, string), s: Sample, idx: nat)
    requires s.state != ""
    ensures ItemFor(entry).dataState == RenderQuarter(s, idx).dataState
      <==> Sanitize(entry.0) == Sanitize(s.state)
  {
    ItemShows(entry);
    QuarterTag(s, idx);
  }

  /** The click handler's rule for one quarter: with a non-empty chosen tag,
      a quarter whose tag differs is dimmed; an empty tag dims nothing. */
  predicate Dimmed(active: string, quarterTag: string)
  {
    active != "" && quarterTag != active
  }

  /** Clicking a legend item dims exactly the quarters whose sample's tag
      differs from the label's tag, unless the label's tag is empty (a
      label of separators only), in which case every quarter is shown.
      Both attribute values are read back decoded. */
  lemma ClickDims(entry: (string, string), s: Sample, idx: nat)
    ensures Dimmed(Unescape(ItemFor(entry).dataState), Unescape(RenderQuarter(s, idx).dataState))
      <==> Sanitize(entry.0) != "" && StateTag(s) != Sanitize(entry.0)
  {
    ItemShows(entry);
    QuarterTag(s, idx);
    SanitizeHtmlSafe(entry.0);
    SanitizeHtmlSafe(s.state);
    UnescapeEsc(Sanitize(entry.0));
    UnescapeEsc(StateTag(s));
  }

  /** Untagged quarters (samples without a state) are dimmed by every
      legend item whose tag is not empty. */
  lemma UntaggedDimmedByAnyTag(entry: (string, string), s: Sample, idx: nat)
    requires s.state == "" && Sanitize(entry.0) != ""
    ensures Dimmed(Unescape(ItemFor(entry).dataState), Unescape(RenderQuarter(s, idx).dataState))
  {
    ClickDims(entry, s, idx);
  }
}
