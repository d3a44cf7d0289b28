/** The capture script injected into every page: it remembers the last
    non-blank selection and appends it to the stored collection on save. */
module Content {
  import opened Wrappers
  import opened JsText
  import opened Highlights
  import opened Storage

  class ContentScript {
    /** The module-level `currentSelection`. */
    var currentSelection: string

    /** The selection is always trimmed; it is only ever assigned a trimmed,
        non-empty string. */
    ghost predicate Valid()
      reads this
    {
      IsTrimmed(currentSelection)
    }

    constructor ()
      ensures Valid() && currentSelection == ""
    {
      currentSelection := "";
    }

    /** The `mouseup` handler, given `window.getSelection().toString()`:
        a selection that trims to nothing leaves the remembered one in place. */
    method OnMouseUp(selectionText: string)
      requires Valid()
      modifies this
      ensures Valid()
      ensures Trim(selectionText) != "" ==> currentSelection == Trim(selectionText)
      ensures Trim(selectionText) == "" ==> currentSelection == old(currentSelection)
    {
      var selectedText := Trim(selectionText);
      if |selectedText| > 0 {
        currentSelection := selectedText;
      }
    }

    /** The save click handler, given `Date.now()`, `window.location.href`,
        `document.title` and `new Date().toLocaleDateString()`. With nothing
        selected it does nothing; otherwise it appends exactly one record,
        without a summary, after the stored ones (an absent collection reads
        as empty, so the first save stores a one-element collection). The
        record it adds carries a trimmed, non-empty text. */
    method OnSaveClick(store: LocalStore, now: int, href: string, title: string, date: string)
      requires Valid()
      modifies store`highlights
      ensures currentSelection == "" ==> store.highlights == old(store.highlights)
      ensures currentSelection != "" ==>
        store.highlights == Some(old(store.Highlights()) + [Highlight(now, currentSelection, href, title, date, None)])
      ensures old(store.highlights).None? && currentSelection != "" ==>
        store.highlights == Some([Highlight(now, currentSelection, href, title, date, None)])
      ensures forall h :: h in store.Highlights() && h !in old(store.Highlights()) ==>
        h.text != "" && IsTrimmed(h.text)
    {
      if currentSelection == "" {
        return;
      }
      var newHighlight := Highlight(now, currentSelection, href, title, date, None);
      var highlights := store.Highlights();
      assert [] + [newHighlight] == [newHighlight];
      highlights := highlights + [newHighlight];
      store.highlights := Some(highlights);
    }
  }
}
