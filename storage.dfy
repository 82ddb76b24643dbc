/**
 The records the extension keeps in the browser's synced storage bucket, and
 the bucket itself. The asynchronous get/set calls of the browser are replaced
 by the fields of a `SyncStorage` object: a read is a field read, a write is
 an assignment, and a key that was never written is `None`.
 */
module Storage {

  datatype Option<+T> = None | Some(value: T)

  /** A note as stored under the "notes" key. `url` is absent for notes typed into the editor. */
  datatype Note = Note(
    id: int,
    title: string,
    content: string,
    category: string,
    tags: seq<string>,
    lastModified: int,
    url: Option<string>)

  /** The record stored under the "settings" key. */
  datatype Settings = Settings(
    darkMode: bool,
    fontSize: string,
    fontFamily: string,
    syncEnabled: bool,
    maxNotes: int,
    contextMenu: bool,
    notifications: bool)

  /** The synced bucket, with its two keys. */
  class SyncStorage {
    var notes: Option<seq<Note>>
    var settings: Option<Settings>

    constructor (notes: Option<seq<Note>>, settings: Option<Settings>)
      ensures this.notes == notes && this.settings == settings
    {
      this.notes := notes;
      this.settings := settings;
    }
  }

  /** Every note has some content. */
  predicate AllHaveContent(notes: seq<Note>)
  {
    forall n :: n in notes ==> n.content != ""
  }

  /** The `stored || []` fallback: an array read from a missing key is empty. */
  function OrEmpty<T>(stored: Option<seq<T>>): (r: seq<T>)
    ensures stored.Some? ==> r == stored.value
    ensures stored.None? ==> r == []
  {
    match stored
    case None => []
    case Some(s) => s
  }
}

/** The "Add to Chrome Notes" context-menu entry, shared by the options page and the background script. */
module ContextMenu {

  /** The id under which the entry is created, removed and reported in click events. */
  const MenuId := "createNote"

  /** What an operation does to the context-menu entry. */
  datatype Effect = Unchanged | Created | Removed
}
