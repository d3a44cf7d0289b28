/** The extension's `chrome.storage.local` area, reduced to the two keys the
    core uses. Each operation of the model reads and writes it atomically. */
module Storage {
  import opened Wrappers
  import opened Highlights

  class LocalStore {
    /** The `highlights` key; `None` when it was never written. */
    var highlights: Option<seq<Highlight>>
    /** The `gemini_key` key; `None` when it is absent. */
    var geminiKey: Option<string>

    /** A fresh profile: neither key is present. */
    constructor ()
      ensures highlights == None && geminiKey == None
    {
      highlights := None;
      geminiKey := None;
    }

    /** `result.highlights || []`: an absent collection reads as empty (a
        definition; its ensures repeat the two cases). */
    function Highlights(): (s: seq<Highlight>)
      reads this
      ensures highlights.None? ==> s == []
      ensures highlights.Some? ==> s == highlights.value
    {
      if highlights.Some? then highlights.value else []
    }
  }
}
