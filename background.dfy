/**
 The background script: on install it makes sure the "notes" key holds an
 array, and a click on the "Add to Chrome Notes" context-menu entry with
 some text selected appends a new note built from that text and the tab.
 */
module Background {
  import opened Storage
  import ContextMenu

  /** What the browser reports about a context-menu click; `selectionText` is absent when nothing is selected. */
  datatype ClickInfo = ClickInfo(menuItemId: string, selectionText: Option<string>)

  /** The tab the click happened in; either field may be absent. */
  datatype Tab = Tab(title: Option<string>, url: Option<string>)

  /** A click creates a note only on our entry and with a non-empty selection. */
  predicate CreatesNote(info: ClickInfo)
  {
    info.menuItemId == ContextMenu.MenuId && info.selectionText.Some? && info.selectionText.value != ""
  }

  /** A value as a template literal writes it: an absent one reads "undefined". */
  function Interpolated(s: Option<string>): string
  {
    match s
    case Some(t) => t
    case None => "undefined"
  }

  /**
   On install: a missing "notes" key is set to the empty array, an existing
   array is left alone, and the context-menu entry is created.
   */
  method OnInstalled(store: SyncStorage) returns (menu: ContextMenu.Effect)
    modifies store`notes
    ensures old(store.notes).None? ==> store.notes == Some([])
    ensures old(store.notes).Some? ==> store.notes == old(store.notes)
    ensures menu == ContextMenu.Created
    ensures AllHaveContent(OrEmpty(old(store.notes))) ==> AllHaveContent(OrEmpty(store.notes))
  {
    if store.notes.None? {
      store.notes := Some([]);
    }
    menu := ContextMenu.Created;
  }

  /**
   Handles a context-menu click. A click that does not create a note changes
   nothing. Otherwise one note is pushed onto the end of the stored notes (a
   missing key counts as empty) and a notification is shown; notes with
   content keep having content. The id and the
   modification time come from two separate clock reads, `idClock` and
   `modifiedClock`, which need not be equal and need not be new.
   */
  method OnContextMenuClicked(store: SyncStorage, info: ClickInfo, tab: Tab, idClock: int, modifiedClock: int)
    returns (notified: bool)
    modifies store`notes
    ensures notified <==> CreatesNote(info)
    ensures AllHaveContent(OrEmpty(old(store.notes))) ==> AllHaveContent(OrEmpty(store.notes))
    ensures !CreatesNote(info) ==> store.notes == old(store.notes)
    ensures CreatesNote(info) ==>
      var before := OrEmpty(old(store.notes));
      && store.notes.Some?
      && |store.notes.value| == |before| + 1
      && store.notes.value[..|before|] == before
      && var note := store.notes.value[|before|];
      && note.content == info.selectionText.value
      && note.title == "Note from " + Interpolated(tab.title)
      && note.category == "other"
      && note.tags == []
      && note.url == tab.url
      && note.id == idClock
      && note.lastModified == modifiedClock
  {
    notified := false;
    if info.menuItemId == ContextMenu.MenuId && info.selectionText.Some? && info.selectionText.value != "" {
      var notes := OrEmpty(store.notes);
      var newNote := Note(
        id := idClock,
        title := "Note from " + Interpolated(tab.title),
        content := info.selectionText.value,
        category := "other",
        tags := [],
        lastModified := modifiedClock,
        url := tab.url);
      notes := notes + [newNote];
      store.notes := Some(notes);
      notified := true;
    }
  }
}
