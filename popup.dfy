/** The popup: the API-key form, the newest-first listing, deletion, and the
    enrichment handler that persists a successful summary. */
module Popup {
  import opened Wrappers
  import opened JsText
  import opened Highlights
  import opened Storage
  import opened Enrichment
  import HtmlEscape

  /** A stored key is usable when present and non-empty (JavaScript truthiness). */
  predicate HasApiKey(key: Option<string>) {
    key.Some? && key.value != ""
  }

  /** The "Save" button of the key form: the trimmed input is stored only if
      it is not empty. */
  method SaveKey(store: LocalStore, input: string)
    modifies store`geminiKey
    ensures Trim(input) != "" ==> store.geminiKey == Some(Trim(input))
    ensures Trim(input) == "" ==> store.geminiKey == old(store.geminiKey)
    ensures Trim(input) != "" ==> HasApiKey(store.geminiKey)
  {
    var key := Trim(input);
    if key != "" {
      store.geminiKey := Some(key);
    }
  }

  /** The "Delete" button of the key form: the key is removed. */
  method DeleteKey(store: LocalStore)
    modifies store`geminiKey
    ensures store.geminiKey == None
  {
    store.geminiKey := None;
  }

  /** What `loadHighlights` renders: the empty-state notice, or the cards. */
  datatype Listing = EmptyState | Cards(items: seq<Highlight>)

  /** `highlights.reverse()`: the array is reversed in place. */
  method ReverseInPlace(a: array<Highlight>)
    modifies a
    ensures a[..] == NewestFirst(old(a[..]))
  {
    var n, i := a.Length, 0;
    while i < n / 2
      invariant 0 <= i <= n / 2
      invariant forall k :: 0 <= k < i ==> a[k] == old(a[n - 1 - k]) && a[n - 1 - k] == old(a[k])
      invariant forall k :: i <= k < n - i ==> a[k] == old(a[k])
    {
      a[i], a[n - 1 - i] := a[n - 1 - i], a[i];
      i := i + 1;
    }
    forall k | 0 <= k < n ensures a[k] == old(a[n - 1 - k]) {
      if k >= n - i {
        assert a[n - 1 - (n - 1 - k)] == old(a[n - 1 - k]);
      }
    }
  }

  /** `loadHighlights`: the empty-state notice exactly when nothing is stored,
      otherwise every record, most recent first. */
  method LoadHighlights(store: LocalStore) returns (view: Listing)
    ensures view == EmptyState <==> store.Highlights() == []
    ensures view.Cards? ==> view.items == NewestFirst(store.Highlights())
  {
    var stored := store.Highlights();
    if |stored| == 0 {
      return EmptyState;
    }
    var highlights := new Highlight[|stored|](k requires 0 <= k < |stored| => stored[k]);
    assert highlights[..] == stored;
    ReverseInPlace(highlights);
    view := Cards(highlights[..]);
  }

  /** `deleteHighlight(id)`: every record with this id is filtered out. When the
      collection was never stored, `filter` is called on `undefined`, throws,
      and nothing is written. */
  method DeleteHighlight(store: LocalStore, id: int)
    modifies store`highlights
    ensures old(store.highlights).None? ==> store.highlights == None
    ensures old(store.highlights).Some? ==>
      store.highlights == Some(Without(old(store.highlights).value, id))
  {
    if store.highlights.None? {
      return;
    }
    var updated := Without(store.highlights.value, id);
    store.highlights := Some(updated);
  }

  /** The "Save Summary Logic" block: the first record with this id gets the
      summary; with no such record nothing is written. */
  method PersistSummary(store: LocalStore, id: int, summary: string)
    modifies store`highlights
    ensures FindIndex(old(store.Highlights()), id) == -1 ==> store.highlights == old(store.highlights)
    ensures FindIndex(old(store.Highlights()), id) != -1 ==>
      store.highlights == Some(SetSummary(old(store.Highlights()), id, summary))
  {
    var highlights := store.Highlights();
    var index := FindIndex(highlights, id);
    if index != -1 {
      highlights := highlights[index := highlights[index].(summary := Some(summary))];
      store.highlights := Some(highlights);
    }
  }

  /** What was last written into a summary box: markup through `innerHTML`
      (parsed by the browser), or text through `innerText` (shown as is). */
  datatype BoxContent = Markup(html: string) | PlainText(text: string)

  /** The `summaryContent` that `createHighlightCard` interpolates into the
      card's `innerHTML`: `"✨ " + item.summary` when the summary is truthy.
      Unlike the highlight text, it does not go through `escapeHtml`. */
  function CardSummaryMarkup(summary: Option<string>): (html: string)
    ensures summary.Some? && summary.value != "" ==>
      |html| == |summary.value| + 2 && html[..2] == "✨ " && html[2..] == summary.value
    ensures summary.None? || summary.value == "" ==> html == ""
  {
    if summary.Some? && summary.value != "" then "✨ " + summary.value else ""
  }

  /** Every character of a stored summary, markup characters included, reaches
      the card's `innerHTML` as it is: a reloaded card does not show such a
      summary as written, while `summarizeHighlight` shows it as text. */
  lemma StoredSummaryMarkupUnescaped(summary: string, k: nat)
    requires k < |summary| && HtmlEscape.IsMarkup(summary[k])
    ensures HtmlEscape.IsMarkup(CardSummaryMarkup(Some(summary))[k + 2])
  {
    var html := CardSummaryMarkup(Some(summary));
    assert html[2..][k] == html[k + 2];
  }

  /** The state of one card's summary box and "Summarize AI" button. */
  class SummaryCard {
    var boxVisible: bool
    var box: BoxContent
    var buttonDisabled: bool

    /** A card as `createHighlightCard` builds it. Without a summary the box
        gets an empty `style` attribute; that it is then hidden is an
        assumption about the stylesheet, which is not part of this model. */
    constructor (summary: Option<string>)
      ensures boxVisible == (summary.Some? && summary.value != "")
      ensures box == Markup(CardSummaryMarkup(summary))
      ensures !buttonDisabled
    {
      boxVisible := summary.Some? && summary.value != "";
      box := Markup(CardSummaryMarkup(summary));
      buttonDisabled := false;
    }
  }

  /** `summarizeHighlight(id, text)`. Without a usable key no request is made
      and nothing changes. Otherwise the box shows the message of the outcome
      of the last reply, the button is enabled again, and the collection
      changes only when that outcome is a summary. */
  method SummarizeHighlight(store: LocalStore, card: SummaryCard, id: int, text: string,
                            transport: Request -> Reply)
    returns (requests: seq<Request>)
    modifies store`highlights, card
    ensures !HasApiKey(store.geminiKey) ==>
      requests == [] && store.highlights == old(store.highlights) && unchanged(card)
    ensures HasApiKey(store.geminiKey) ==>
      1 <= |requests| <= 2 && requests[0] == CallFor(PrimaryModel, store.geminiKey.value, text)
    ensures HasApiKey(store.geminiKey) ==>
      (|requests| == 2 <==> NeedsFallback(transport(requests[0])))
    ensures HasApiKey(store.geminiKey) && |requests| == 2 ==>
      requests[1] == CallFor(FallbackModel, store.geminiKey.value, text)
    ensures HasApiKey(store.geminiKey) ==>
      var outcome := Interpret(transport(requests[|requests| - 1]));
      && card.boxVisible && card.box == PlainText(Message(outcome)) && !card.buttonDisabled
      && (!outcome.Summarized? ==> store.highlights == old(store.highlights))
      && (outcome.Summarized? && FindIndex(old(store.Highlights()), id) == -1 ==>
            store.highlights == old(store.highlights))
      && (outcome.Summarized? && FindIndex(old(store.Highlights()), id) != -1 ==>
            store.highlights == Some(SetSummary(old(store.Highlights()), id, outcome.summary)))
  {
    var apiKey := store.geminiKey;
    if !HasApiKey(apiKey) {
      return [];
    }
    card.boxVisible := true;
    card.box := PlainText("Thinking...");
    card.buttonDisabled := true;
    var outcome;
    requests, outcome := Summarize(apiKey.value, text, transport);
    card.box := PlainText(Message(outcome));
    if outcome.Summarized? {
      PersistSummary(store, id, outcome.summary);
    }
    card.buttonDisabled := false;
  }
}
