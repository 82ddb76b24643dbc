/**
 The options page: the settings record (defaults, load, save, reset) and the
 export and import of the notes collection. Importing merges by note id: the
 current notes are kept as they are and an imported note is appended only
 when its id is not already among the current notes' ids.
 */
module Options {
  import opened Storage
  import ContextMenu

  // ---------------------------------------------------------------------------
  // Settings
  // ---------------------------------------------------------------------------

  /** The settings used when none are stored, and written by a reset. */
  const DefaultSettings := Settings(
    darkMode := false,
    fontSize := "medium",
    fontFamily := "Roboto, sans-serif",
    syncEnabled := true,
    maxNotes := 100,
    contextMenu := true,
    notifications := true)

  /** What the page's form controls show, one control per settings field. */
  datatype SettingsForm = SettingsForm(
    darkModeChecked: bool,
    fontSizeValue: string,
    fontFamilyValue: string,
    syncEnabledChecked: bool,
    maxNotesValue: int,
    contextMenuChecked: bool,
    notificationsChecked: bool)

  /** The stored settings, or the defaults when none are stored. */
  function LoadedSettings(stored: Option<Settings>): (s: Settings)
    ensures stored.Some? ==> s == stored.value
    ensures stored.None? ==> s == DefaultSettings
  {
    match stored
    case Some(s) => s
    case None => DefaultSettings
  }

  /** The form after the page copies a settings record into its controls. */
  function FormShowing(s: Settings): SettingsForm
  {
    SettingsForm(s.darkMode, s.fontSize, s.fontFamily, s.syncEnabled, s.maxNotes, s.contextMenu, s.notifications)
  }

  /** The record a save builds from the form's controls: each field holds what its control shows. */
  function SettingsFromForm(f: SettingsForm): (s: Settings)
    ensures FormShowing(s) == f
  {
    Settings(
      darkMode := f.darkModeChecked,
      fontSize := f.fontSizeValue,
      fontFamily := f.fontFamilyValue,
      syncEnabled := f.syncEnabledChecked,
      maxNotes := f.maxNotesValue,
      contextMenu := f.contextMenuChecked,
      notifications := f.notificationsChecked)
  }

  /** The context-menu effect of saving `s`: the entry exists exactly when `contextMenu` is set. */
  function MenuAfterSave(s: Settings): (e: ContextMenu.Effect)
    ensures e == ContextMenu.Created <==> s.contextMenu
    ensures e != ContextMenu.Unchanged
  {
    if s.contextMenu then ContextMenu.Created else ContextMenu.Removed
  }

  /** Reads the stored settings (or the defaults) into the form. */
  method LoadSettings(store: SyncStorage) returns (form: SettingsForm)
    ensures store.settings.None? ==> form == FormShowing(DefaultSettings)
    ensures store.settings.Some? ==> form == FormShowing(store.settings.value)
  {
    var settings := LoadedSettings(store.settings);
    form := FormShowing(settings);
  }

  /** Writes the whole record built from the form, then creates or removes the context-menu entry. */
  method SaveSettings(store: SyncStorage, form: SettingsForm) returns (menu: ContextMenu.Effect)
    modifies store`settings
    ensures store.settings == Some(SettingsFromForm(form))
    ensures menu == ContextMenu.Created <==> form.contextMenuChecked
    ensures menu == ContextMenu.Removed <==> !form.contextMenuChecked
  {
    var settings := SettingsFromForm(form);
    store.settings := Some(settings);
    menu := MenuAfterSave(settings);
  }

  /**
   When the user confirms, writes the defaults, reloads the form and re-creates
   the context-menu entry; otherwise does nothing.
   */
  method ResetSettings(store: SyncStorage, confirmed: bool) returns (menu: ContextMenu.Effect, shown: Option<SettingsForm>)
    modifies store`settings
    ensures confirmed ==> store.settings == Some(DefaultSettings)
    ensures confirmed ==> shown == Some(FormShowing(DefaultSettings)) && menu == ContextMenu.Created
    ensures !confirmed ==> store.settings == old(store.settings) && shown == None && menu == ContextMenu.Unchanged
  {
    menu, shown := ContextMenu.Unchanged, None;
    if confirmed {
      store.settings := Some(DefaultSettings);
      var form := LoadSettings(store);
      shown := Some(form);
      menu := ContextMenu.Created;
    }
  }

  /** A form that is saved and then loaded again shows exactly what it showed before. */
  lemma SaveThenLoadShowsSameForm(f: SettingsForm)
    ensures FormShowing(LoadedSettings(Some(SettingsFromForm(f)))) == f
  {
  }

  /** With nothing stored, and after a reset, every setting has its documented default. */
  lemma LoadWithoutStoredSettingsGivesDefaults()
    ensures LoadedSettings(None) == LoadedSettings(Some(DefaultSettings)) == DefaultSettings
    ensures var d := LoadedSettings(None);
      && !d.darkMode && d.fontSize == "medium" && d.fontFamily == "Roboto, sans-serif"
      && d.syncEnabled && d.maxNotes == 100 && d.contextMenu && d.notifications
  {
  }

  // ---------------------------------------------------------------------------
  // Import merge
  // ---------------------------------------------------------------------------

  /** The ids of the given notes. */
  function Ids(notes: seq<Note>): set<int>
  {
    set n | n in notes :: n.id
  }

  /**
   The imported notes a merge appends: those whose id is not in `ids`, in
   their import order. Duplicates within `imported` are not removed.
   */
  function Appended(ids: set<int>, imported: seq<Note>): (r: seq<Note>)
    ensures |r| <= |imported|
    ensures forall k :: 0 <= k < |r| ==> r[k].id !in ids
    decreases |imported|
  {
    if imported == [] then []
    else
      var last := imported[|imported| - 1];
      Appended(ids, imported[..|imported| - 1]) + (if last.id in ids then [] else [last])
  }

  /**
   The collection after importing `imported` into `current`: the current
   notes, unchanged and in order, followed by notes whose ids are all new.
   */
  function Merged(current: seq<Note>, imported: seq<Note>): (r: seq<Note>)
    ensures |current| <= |r| <= |current| + |imported|
    ensures r[..|current|] == current
    ensures forall k :: |current| <= k < |r| ==> r[k].id !in Ids(current)
  {
    current + Appended(Ids(current), imported)
  }

  /**
   The merge as the page runs it: copy the current notes, take the set of
   their ids once, and push every imported note whose id is not in that set.
   */
  method MergeNotes(current: seq<Note>, imported: seq<Note>) returns (merged: seq<Note>)
    ensures merged == Merged(current, imported)
  {
    merged := current;
    var currentIds := Ids(current);
    for i := 0 to |imported|
      invariant merged == current + Appended(currentIds, imported[..i])
    {
      assert imported[..i + 1][..i] == imported[..i];
      if imported[i].id !in currentIds {
        merged := merged + [imported[i]];
      }
    }
    assert imported[..|imported|] == imported;
  }

  /** An imported note is appended exactly when its id is not among `ids`. */
  lemma {:induction false} AppendedMembership(ids: set<int>, imported: seq<Note>, n: Note)
    ensures n in Appended(ids, imported) <==> n in imported && n.id !in ids
    decreases |imported|
  {
    if imported != [] {
      var init := imported[..|imported| - 1];
      AppendedMembership(ids, init, n);
      assert imported == init + [imported[|imported| - 1]];
    }
  }

  /** Notes from an earlier part of the import are appended before those of a later part. */
  lemma {:induction false} AppendedConcat(ids: set<int>, a: seq<Note>, b: seq<Note>)
    ensures Appended(ids, a + b) == Appended(ids, a) + Appended(ids, b)
    decreases |b|
  {
    if b == [] {
      assert a + b == a;
    } else {
      var initB, last := b[..|b| - 1], b[|b| - 1];
      var extra := if last.id in ids then [] else [last];
      AppendedConcat(ids, a, initB);
      var ab := a + b;
      assert ab[..|ab| - 1] == a + initB;
      assert ab[|ab| - 1] == last;
      assert Appended(ids, ab) == Appended(ids, a + initB) + extra;
      assert Appended(ids, b) == Appended(ids, initB) + extra;
    }
  }

  /** When no imported id is already known, every imported note is appended, duplicates included. */
  lemma {:induction false} AppendedAllNew(ids: set<int>, imported: seq<Note>)
    requires forall n :: n in imported ==> n.id !in ids
    ensures Appended(ids, imported) == imported
    decreases |imported|
  {
    if imported != [] {
      var init := imported[..|imported| - 1];
      AppendedAllNew(ids, init);
      assert imported == init + [imported[|imported| - 1]];
    }
  }

  /**
   After the current notes come exactly the imported notes with an unknown
   id; a note whose id is already present is never appended, so for every id
   of the current collection the merged collection keeps the current note.
   */
  lemma MergeAppendsOnlyNewIds(current: seq<Note>, imported: seq<Note>)
    ensures var m := Merged(current, imported);
      forall n :: n in m[|current|..] <==> n in imported && n.id !in Ids(current)
    ensures var m := Merged(current, imported);
      forall k :: 0 <= k < |m| && m[k].id in Ids(current) ==> k < |current| && m[k] == current[k]
  {
    var m := Merged(current, imported);
    var tail := Appended(Ids(current), imported);
    assert m[|current|..] == tail;
    forall n
      ensures n in m[|current|..] <==> n in imported && n.id !in Ids(current)
    {
      AppendedMembership(Ids(current), imported, n);
    }
    forall k | 0 <= k < |m| && m[k].id in Ids(current)
      ensures k < |current| && m[k] == current[k]
    {
    }
  }

  /** Importing `a + b` is importing `a` and then appending what `b` contributes: import order is kept. */
  lemma MergeKeepsImportOrder(current: seq<Note>, a: seq<Note>, b: seq<Note>)
    ensures Merged(current, a + b) == Merged(current, a) + Appended(Ids(current), b)
  {
    AppendedConcat(Ids(current), a, b);
  }

  /**
   Imported notes whose ids are all new are appended as they are, even when
   the import itself holds the same id twice: the id set is never updated.
   */
  lemma MergeKeepsImportDuplicates(current: seq<Note>, imported: seq<Note>)
    requires forall n :: n in imported ==> n.id !in Ids(current)
    ensures Merged(current, imported) == current + imported
  {
    AppendedAllNew(Ids(current), imported);
  }

  /** Importing into an empty collection yields exactly the imported array. */
  lemma MergeIntoEmpty(imported: seq<Note>)
    ensures Merged([], imported) == imported
  {
    AppendedAllNew(Ids([]), imported);
  }

  // ---------------------------------------------------------------------------
  // Export and import
  // ---------------------------------------------------------------------------

  /** The chosen import file, already parsed. */
  datatype Payload =
    | NoFile                         // no file was chosen
    | Unparseable(message: string)   // the parser rejected the text, with its message
    | NotAnArray                     // the text parsed to something other than an array
    | NoteArray(notes: seq<Note>)

  /** What the user is shown. */
  datatype ImportResult =
    | NothingChosen
    | ImportFailed(alert: string)
    | ImportDeclined
    | Imported(reportedCount: nat)

  const NotArrayMessage := "Invalid format: Imported data is not an array"
  const ImportErrorPrefix := "Error importing notes: "

  /** The array an export writes to the backup file: the stored notes, or none. */
  method ExportNotes(store: SyncStorage) returns (exported: seq<Note>)
    ensures store.notes.None? ==> exported == []
    ensures store.notes.Some? ==> exported == store.notes.value
  {
    exported := OrEmpty(store.notes);
  }

  /**
   Imports a parsed file: a payload that is not an array is reported and
   nothing is written; an array is merged and written only if the user
   confirms, and the count reported is the length of the imported array.
   */
  method ImportNotes(store: SyncStorage, payload: Payload, confirmed: bool) returns (result: ImportResult)
    modifies store`notes
    ensures payload.NoFile? ==> result == NothingChosen
    ensures payload.Unparseable? ==> result == ImportFailed(ImportErrorPrefix + payload.message)
    ensures payload.NotAnArray? ==> result == ImportFailed(ImportErrorPrefix + NotArrayMessage)
    ensures payload.NoteArray? && !confirmed ==> result == ImportDeclined
    ensures !(payload.NoteArray? && confirmed) ==> store.notes == old(store.notes)
    ensures payload.NoteArray? && confirmed ==>
      && store.notes == Some(Merged(OrEmpty(old(store.notes)), payload.notes))
      && result == Imported(|payload.notes|)
  {
    match payload
    case NoFile =>
      result := NothingChosen;
    case Unparseable(message) =>
      result := ImportFailed(ImportErrorPrefix + message);
    case NotAnArray =>
      result := ImportFailed(ImportErrorPrefix + NotArrayMessage);
    case NoteArray(importedNotes) =>
      if confirmed {
        var currentNotes := OrEmpty(store.notes);
        var mergedNotes := MergeNotes(currentNotes, importedNotes);
        store.notes := Some(mergedNotes);
        result := Imported(|importedNotes|);
      } else {
        result := ImportDeclined;
      }
  }

  /**
   Exporting the notes of `src` and importing that file, confirmed, into a
   store with no notes leaves the same notes there.
   */
  method ExportThenImportIntoEmpty(src: SyncStorage, dst: SyncStorage)
    requires dst.notes == None || dst.notes == Some([])
    modifies dst`notes
    ensures dst.notes == Some(OrEmpty(old(src.notes)))
  {
    var exported := ExportNotes(src);
    var result := ImportNotes(dst, NoteArray(exported), true);
    MergeIntoEmpty(exported);
  }

  /**
   Current ids 1 and 2, imported ids 2 and 3: the stored note 2 is kept, only
   note 3 is appended, yet the import reports two notes.
   */
  lemma ReportedCountIsImportLength(n1: Note, n2: Note, n2Imported: Note, n3: Note)
    requires n1.id == 1 && n2.id == 2 && n2Imported.id == 2 && n3.id == 3
    ensures Merged([n1, n2], [n2Imported, n3]) == [n1, n2, n3]
    ensures |Merged([n1, n2], [n2Imported, n3])| - |[n1, n2]| == 1 < |[n2Imported, n3]|
  {
    var ids := Ids([n1, n2]);
    assert ids == {1, 2};
    var imported := [n2Imported, n3];
    assert imported[..1] == [n2Imported];
    assert [n2Imported][..0] == [];
    assert Appended(ids, [n2Imported]) == Appended(ids, []) == [];
    assert Appended(ids, imported) == Appended(ids, [n2Imported]) + [n3];
  }
}
