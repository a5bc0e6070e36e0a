/**
 * TransactionBodyAdapter: the list of payload items behind the body screen, their
 * view types, and the search highlighting of body lines.
 */
module PayloadAdapter {
  import opened Wrappers
  import opened Text

  const TYPE_HEADERS: int := 1
  const TYPE_BODY_LINE: int := 2
  const TYPE_IMAGE: int := 3
  /** Declared by the adapter but given to no item. */
  const TYPE_MOCK_TOGGLE: int := 4
  const TYPE_MOCK_BODY: int := 5

  /** A span attached to a line: the syntax colouring span the search keeps, or any
      other span (the search highlight among them). */
  datatype Span = ChuckerForegroundColorSpan(color: int) | OtherSpan(tag: nat)

  /** A `SpannableStringBuilder`: text plus the spans attached to it. */
  datatype SpannableText = SpannableText(text: string, spans: seq<Span>)

  datatype Bitmap = Bitmap(id: nat)

  datatype TransactionPayloadItem =
    | HeaderItem(headers: SpannableText)
    | BodyLineItem(line: SpannableText)
    | ImageItem(image: Bitmap, luminance: Option<real>)
    | MockBody(body: SpannableText, wasEntryMocked: bool)

  /** The change notifications the adapter sends to its RecyclerView. */
  datatype Notification =
    | ItemRangeRemoved(positionStart: int, itemCount: int)
    | ItemRangeInserted(positionStart: int, itemCount: int)
    | ItemChanged(position: int)

  /** `highlightWithDefinedColors(query, background, foreground)`; its code is not part of this model. */
  type Highlighter = (SpannableText, string, int, int) -> SpannableText

  /** What is done to every body line: highlight a query, or reset. */
  datatype LineUpdate =
    | Highlight(query: string, backgroundColor: int, foregroundColor: int, highlight: Highlighter)
    | Reset

  /** `getItemViewType`'s mapping from item kind to view type. */
  function ViewType(item: TransactionPayloadItem): (viewType: int)
    ensures viewType == TYPE_HEADERS <==> item.HeaderItem?
    ensures viewType == TYPE_BODY_LINE <==> item.BodyLineItem?
    ensures viewType == TYPE_IMAGE <==> item.ImageItem?
    ensures viewType == TYPE_MOCK_BODY <==> item.MockBody?
    ensures viewType != TYPE_MOCK_TOGGLE
  {
    match item
    case HeaderItem(_) => TYPE_HEADERS
    case BodyLineItem(_) => TYPE_BODY_LINE
    case ImageItem(_, _) => TYPE_IMAGE
    case MockBody(_, _) => TYPE_MOCK_BODY
  }

  // ---------------------------------------------------------------------
  // Clearing highlight spans
  // ---------------------------------------------------------------------

  /** The spans `clearHighlightSpans` keeps, in their order. */
  function ForegroundSpans(spans: seq<Span>): (kept: seq<Span>)
    ensures |kept| <= |spans|
    ensures forall s :: s in kept ==> s in spans && s.ChuckerForegroundColorSpan?
  {
    if spans == [] then []
    else
      var last := spans[|spans| - 1];
      var before := ForegroundSpans(spans[..|spans| - 1]);
      if last.ChuckerForegroundColorSpan? then before + [last] else before
  }

  /** Every foreground span is kept as often as it occurs; every other span is removed. */
  lemma {:induction false} ForegroundSpansKeepExactlyForeground(spans: seq<Span>, s: Span)
    ensures multiset(ForegroundSpans(spans))[s] == if s.ChuckerForegroundColorSpan? then multiset(spans)[s] else 0
  {
    if spans != [] {
      var init := spans[..|spans| - 1];
      ForegroundSpansKeepExactlyForeground(init, s);
      assert spans == init + [spans[|spans| - 1]];
    }
  }

  /** Nothing is removed exactly when every span is a foreground span. */
  lemma {:induction false} NothingRemovedIffAllForeground(spans: seq<Span>)
    ensures |ForegroundSpans(spans)| == |spans| <==>
            forall i :: 0 <= i < |spans| ==> spans[i].ChuckerForegroundColorSpan?
  {
    if spans != [] {
      var init := spans[..|spans| - 1];
      NothingRemovedIffAllForeground(init);
      assert forall i :: 0 <= i < |init| ==> init[i] == spans[i];
    }
  }

  /** `clearHighlightSpans`: removes every span that is not a foreground span and reports
      how many were removed. */
  method ClearHighlightSpans(line: SpannableText) returns (cleared: SpannableText, removedSpansCount: nat)
    ensures cleared == line.(spans := ForegroundSpans(line.spans))
    ensures removedSpansCount == |line.spans| - |ForegroundSpans(line.spans)|
  {
    removedSpansCount := 0;
    var spanList := line.spans;
    var kept: seq<Span> := [];
    var i := 0;
    while i < |spanList|
      invariant 0 <= i <= |spanList|
      invariant kept == ForegroundSpans(spanList[..i])
      invariant removedSpansCount == i - |kept|
    {
      assert spanList[..i + 1][..i] == spanList[..i];
      var span := spanList[i];
      if !span.ChuckerForegroundColorSpan? {
        removedSpansCount := removedSpansCount + 1;
      } else {
        kept := kept + [span];
      }
      i := i + 1;
    }
    assert spanList[..i] == spanList;
    cleared := line.(spans := kept);
  }

  // ---------------------------------------------------------------------
  // Highlight and reset, as functions of the item list
  // ---------------------------------------------------------------------

  /** The line after clearing its highlight spans. */
  function Cleared(line: SpannableText): SpannableText {
    line.(spans := ForegroundSpans(line.spans))
  }

  /** The line contains the query, ignoring case, in a highlight update. */
  predicate MatchesQuery(u: LineUpdate, line: SpannableText) {
    u.Highlight? && ContainsIgnoreCase(line.text, u.query)
  }

  /** What one body line becomes, and whether its row is reported as changed. */
  function UpdateLine(u: LineUpdate, line: SpannableText): (SpannableText, bool) {
    if MatchesQuery(u, line) then
      (u.highlight(Cleared(line), u.query, u.backgroundColor, u.foregroundColor), true)
    else
      (Cleared(line), |line.spans| - |ForegroundSpans(line.spans)| > 0)
  }

  /** A line's row is reported exactly when the query matches it or it carried a span
      other than a foreground span; a line that does not match keeps only its foreground
      spans and its text. */
  lemma LineReportedIff(u: LineUpdate, line: SpannableText)
    ensures UpdateLine(u, line).1 <==>
      MatchesQuery(u, line) || exists i :: 0 <= i < |line.spans| && !line.spans[i].ChuckerForegroundColorSpan?
    ensures !MatchesQuery(u, line) ==>
      UpdateLine(u, line).0.text == line.text &&
      forall s :: s in UpdateLine(u, line).0.spans <==> s in line.spans && s.ChuckerForegroundColorSpan?
  {
    NothingRemovedIffAllForeground(line.spans);
    forall s | s in line.spans && s.ChuckerForegroundColorSpan?
      ensures s in ForegroundSpans(line.spans)
    {
      ForegroundSpansKeepExactlyForeground(line.spans, s);
    }
  }

  function UpdateItem(u: LineUpdate, item: TransactionPayloadItem): TransactionPayloadItem {
    match item
    case BodyLineItem(line) => BodyLineItem(UpdateLine(u, line).0)
    case _ => item
  }

  /** The item list after the update: only body lines change, and they stay body lines. */
  function UpdatedItems(u: LineUpdate, items: seq<TransactionPayloadItem>): (r: seq<TransactionPayloadItem>)
    ensures |r| == |items|
    ensures forall i :: 0 <= i < |items| && !items[i].BodyLineItem? ==> r[i] == items[i]
    ensures forall i :: 0 <= i < |items| && items[i].BodyLineItem? ==>
      r[i] == BodyLineItem(UpdateLine(u, items[i].line).0)
  {
    seq(|items|, i requires 0 <= i < |items| => UpdateItem(u, items[i]))
  }

  lemma UpdatedItemsStep(u: LineUpdate, items: seq<TransactionPayloadItem>, item: TransactionPayloadItem)
    ensures UpdatedItems(u, items + [item]) == UpdatedItems(u, items) + [UpdateItem(u, item)]
  {
    assert forall i :: 0 <= i < |items| ==> (items + [item])[i] == items[i];
  }

  /** `filterIsInstance<BodyLineItem>()`: the body lines, in order. */
  function BodyLines(items: seq<TransactionPayloadItem>): (lines: seq<SpannableText>)
    ensures |lines| <= |items|
  {
    if items == [] then []
    else
      var before := BodyLines(items[..|items| - 1]);
      match items[|items| - 1]
      case BodyLineItem(line) => before + [line]
      case _ => before
  }

  /** Appending one item appends its line when it is a body line. */
  lemma BodyLinesStep(items: seq<TransactionPayloadItem>, item: TransactionPayloadItem)
    ensures BodyLines(items + [item]) == BodyLines(items) + (if item.BodyLineItem? then [item.line] else [])
  {
    assert (items + [item])[..|items|] == items;
  }

  /** The notifications for the body lines: the k-th line (from 0), when reported, is
      announced at position k + 1. */
  function ChangeNotifications(u: LineUpdate, lines: seq<SpannableText>): seq<Notification> {
    if lines == [] then []
    else
      ChangeNotifications(u, lines[..|lines| - 1]) +
      (if UpdateLine(u, lines[|lines| - 1]).1 then [ItemChanged(|lines|)] else [])
  }

  /** The announcement for one item when it is the body line at 0-based `index`. */
  function Announcement(u: LineUpdate, item: TransactionPayloadItem, index: int): seq<Notification> {
    if item.BodyLineItem? && UpdateLine(u, item.line).1 then [ItemChanged(index + 1)] else []
  }

  /** After walking `done`: the items so far, the announcements so far and the number of
      body lines seen. */
  ghost predicate Walked(u: LineUpdate, done: seq<TransactionPayloadItem>,
                         updatedItems: seq<TransactionPayloadItem>, notes: seq<Notification>, index: int)
  {
    && index == |BodyLines(done)|
    && updatedItems == UpdatedItems(u, done)
    && notes == ChangeNotifications(u, BodyLines(done))
  }

  /** Walking one more item extends the items, the announcements and the count. */
  lemma WalkStep(u: LineUpdate, done: seq<TransactionPayloadItem>, item: TransactionPayloadItem,
                 updatedItems: seq<TransactionPayloadItem>, notes: seq<Notification>, index: int)
    requires Walked(u, done, updatedItems, notes, index)
    ensures Walked(u, done + [item], updatedItems + [UpdateItem(u, item)], notes + Announcement(u, item, index),
                   index + if item.BodyLineItem? then 1 else 0)
  {
    UpdatedItemsStep(u, done, item);
    BodyLinesStep(done, item);
    if item.BodyLineItem? {
      ChangeNotificationsStep(u, BodyLines(done), item.line);
    }
  }

  /** Appending one line appends its announcement, if any. */
  lemma ChangeNotificationsStep(u: LineUpdate, lines: seq<SpannableText>, line: SpannableText)
    ensures ChangeNotifications(u, lines + [line]) ==
      ChangeNotifications(u, lines) + (if UpdateLine(u, line).1 then [ItemChanged(|lines| + 1)] else [])
  {
    assert (lines + [line])[..|lines|] == lines;
  }

  /** Position p is announced exactly when body line p - 1 is reported; nothing else is
      announced. */
  lemma {:induction false} AnnouncedPositions(u: LineUpdate, lines: seq<SpannableText>, p: int)
    ensures ItemChanged(p) in ChangeNotifications(u, lines) <==>
            1 <= p <= |lines| && UpdateLine(u, lines[p - 1]).1
    ensures forall n :: n in ChangeNotifications(u, lines) ==> n.ItemChanged? && 1 <= n.position <= |lines|
  {
    if lines != [] {
      var init := lines[..|lines| - 1];
      AnnouncedPositions(u, init, p);
      if 1 <= p < |lines| {
        assert init[p - 1] == lines[p - 1];
      }
    }
  }

  /** Announcements come in increasing position order, so each position at most once. */
  lemma {:induction false} AnnouncementsIncrease(u: LineUpdate, lines: seq<SpannableText>)
    ensures var notes := ChangeNotifications(u, lines);
      forall i, j :: 0 <= i < j < |notes| ==>
        (notes[i].ItemChanged? && notes[j].ItemChanged? && notes[i].position < notes[j].position)
  {
    if lines != [] {
      var init := lines[..|lines| - 1];
      AnnouncementsIncrease(u, init);
      AnnouncedPositions(u, init, 0);
      AnnouncedPositions(u, lines, 0);
      var before := ChangeNotifications(u, init);
      var notes := ChangeNotifications(u, lines);
      forall i, j | 0 <= i < j < |notes|
        ensures notes[i].ItemChanged? && notes[j].ItemChanged? && notes[i].position < notes[j].position
      {
        if j < |before| {
          assert notes[i] == before[i] && notes[j] == before[j];
        } else {
          assert notes[i] == before[i] && notes[i] in before;
          assert notes[j] == ItemChanged(|lines|);
        }
      }
    }
  }

  /** With one leading item that is not a body line, followed only by body lines, the
      announced position of every body line is its position in the adapter. With any
      other layout the two can differ (`AnnouncementPastLastRow`). */
  lemma {:induction false} PositionsMatchAdapterLayout(items: seq<TransactionPayloadItem>)
    requires |items| >= 1 && !items[0].BodyLineItem?
    requires forall i :: 1 <= i < |items| ==> items[i].BodyLineItem?
    ensures |BodyLines(items)| == |items| - 1
    ensures forall k :: 0 <= k < |items| - 1 ==> items[k + 1] == BodyLineItem(BodyLines(items)[k])
  {
    if |items| > 1 {
      var init := items[..|items| - 1];
      PositionsMatchAdapterLayout(init);
      assert forall k :: 0 <= k < |init| ==> init[k] == items[k];
    }
  }

  /** A list made of a single body line: a highlight whose query it contains announces
      position 1, one past the only row (position 0). */
  lemma AnnouncementPastLastRow(line: SpannableText, query: string, background: int, foreground: int,
                                highlight: Highlighter)
    requires ContainsIgnoreCase(line.text, query)
    ensures var items := [BodyLineItem(line)];
      ChangeNotifications(Highlight(query, background, foreground, highlight), BodyLines(items)) == [ItemChanged(1)] &&
      |items| == 1
  {
    var items := [BodyLineItem(line)];
    BodyLinesStep([], BodyLineItem(line));
    assert [] + [BodyLineItem(line)] == items;
    ChangeNotificationsStep(Highlight(query, background, foreground, highlight), [], line);
  }

  /** The body-line walk of the adapter: updates the lines in order and collects the
      announcements. */
  method UpdatedBodyLines(u: LineUpdate, original: seq<TransactionPayloadItem>)
    returns (updatedItems: seq<TransactionPayloadItem>, notes: seq<Notification>)
    ensures updatedItems == UpdatedItems(u, original)
    ensures notes == ChangeNotifications(u, BodyLines(original))
  {
    updatedItems := [];
    notes := [];
    var i := 0;
    var index := 0;
    while i < |original|
      invariant 0 <= i <= |original|
      invariant Walked(u, original[..i], updatedItems, notes, index)
    {
      assert original[..i + 1] == original[..i] + [original[i]];
      WalkStep(u, original[..i], original[i], updatedItems, notes, index);
      var item, announced := UpdateOneItem(u, original[i], index);
      updatedItems := updatedItems + [item];
      notes := notes + announced;
      index := index + if original[i].BodyLineItem? then 1 else 0;
      i := i + 1;
    }
    assert original[..i] == original;
  }

  /** One item: a body line is updated and, when reported, announced at position
      `index + 1`; any other item is left alone. */
  method UpdateOneItem(u: LineUpdate, item: TransactionPayloadItem, index: int)
    returns (updatedItem: TransactionPayloadItem, announced: seq<Notification>)
    ensures updatedItem == UpdateItem(u, item)
    ensures announced == Announcement(u, item, index)
  {
    updatedItem, announced := item, [];
    if item.BodyLineItem? {
      var updated, changed := UpdateOneLine(u, item.line);
      updatedItem := BodyLineItem(updated);
      if changed {
        announced := [ItemChanged(index + 1)];
      }
    }
  }

  /** One body line: highlight a matching line (after clearing it), otherwise clear it
      and report it only when a span was removed. */
  method UpdateOneLine(u: LineUpdate, line: SpannableText) returns (updated: SpannableText, changed: bool)
    ensures (updated, changed) == UpdateLine(u, line)
  {
    if MatchesQuery(u, line) {
      var cleared, _ := ClearHighlightSpans(line);
      updated := u.highlight(cleared, u.query, u.backgroundColor, u.foregroundColor);
      changed := true;
    } else {
      var removedSpansCount;
      updated, removedSpansCount := ClearHighlightSpans(line);
      changed := removedSpansCount > 0;
    }
  }

  // ---------------------------------------------------------------------
  // The adapter
  // ---------------------------------------------------------------------

  class TransactionBodyAdapter {
    var items: seq<TransactionPayloadItem>
    /** Every notification sent so far, oldest first. */
    var notifications: seq<Notification>

    constructor ()
      ensures items == [] && notifications == []
    {
      items := [];
      notifications := [];
    }

    function GetItemCount(): (count: nat)
      reads this
      ensures count == |items|
    {
      |items|
    }

    function GetItemViewType(position: int): (viewType: int)
      reads this
      requires 0 <= position < |items|
      ensures viewType == TYPE_HEADERS <==> items[position].HeaderItem?
      ensures viewType == TYPE_BODY_LINE <==> items[position].BodyLineItem?
      ensures viewType == TYPE_IMAGE <==> items[position].ImageItem?
      ensures viewType == TYPE_MOCK_BODY <==> items[position].MockBody?
      ensures viewType != TYPE_MOCK_TOGGLE
    {
      ViewType(items[position])
    }

    /** `setItems`: replaces the list, announcing the removal of the old rows and then the
        insertion of the new ones, both from position 0. */
    method SetItems(bodyItems: seq<TransactionPayloadItem>)
      modifies this
      ensures items == bodyItems && GetItemCount() == |bodyItems|
      ensures notifications == old(notifications) +
        [ItemRangeRemoved(0, |old(items)|), ItemRangeInserted(0, |bodyItems|)]
    {
      var previousItemCount := |items|;
      items := [];
      items := items + bodyItems;
      notifications := notifications + [ItemRangeRemoved(0, previousItemCount)];
      notifications := notifications + [ItemRangeInserted(0, |items|)];
    }

    /** `highlightQueryWithColors`. */
    method HighlightQueryWithColors(newText: string, backgroundColor: int, foregroundColor: int, highlight: Highlighter)
      modifies this
      ensures items == UpdatedItems(Highlight(newText, backgroundColor, foregroundColor, highlight), old(items))
      ensures notifications == old(notifications) +
        ChangeNotifications(Highlight(newText, backgroundColor, foregroundColor, highlight), BodyLines(old(items)))
    {
      UpdateBodyLines(Highlight(newText, backgroundColor, foregroundColor, highlight));
    }

    /** `resetHighlight`. */
    method ResetHighlight()
      modifies this
      ensures items == UpdatedItems(Reset, old(items))
      ensures notifications == old(notifications) + ChangeNotifications(Reset, BodyLines(old(items)))
    {
      UpdateBodyLines(Reset);
    }

    /** Walks the body lines in order, updating each in place and announcing the k-th at
        position k + 1 when it is reported. */
    method UpdateBodyLines(u: LineUpdate)
      modifies this
      ensures items == UpdatedItems(u, old(items))
      ensures notifications == old(notifications) + ChangeNotifications(u, BodyLines(old(items)))
    {
      var updatedItems, announced := UpdatedBodyLines(u, items);
      items := updatedItems;
      notifications := notifications + announced;
    }
  }
}
