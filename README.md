# Chrome Notes: a verified model of the note, history and settings logic

This project models the data logic of the Chrome Notes browser extension. The
extension has three scripts that read and write browser storage:

- **Options page** (`options.js`). It handles the settings record: the
  defaults, loading the stored settings or the defaults, saving the record
  built from the form (which also creates or removes the "Add to Chrome Notes"
  context-menu entry), and reset. It also exports the notes and imports a
  backup file. An import merges the backup into the current notes by id.
- **Quick-capture popup** (`popup.js`). It trims the typed text and ignores
  blank input. It downloads the text as a dated line and puts a history entry
  at the front of a list capped at five entries.
- **Background script** (`background.js`). On install it creates the "notes"
  array if it is missing. A click on the context-menu entry with text selected
  appends a new note built from the selection and the tab.

Browser storage is modelled as objects whose fields are the storage keys:
`Storage.SyncStorage` holds `notes` and `settings`, and
`Popup.QuickCapture.noteHistory` holds the local bucket's `noteHistory`. A key
that was never written is `None`. Each asynchronous get/set pair becomes one
method from the state before to the state after. Clock readings, the formatted
date, the user's answer to a confirmation dialog and the parsed import file are
parameters. The effect on the context-menu entry is returned as a
`ContextMenu.Effect`, and the popup's downloads are recorded in a `downloads`
field.

Files: `storage.dfy` (modules `Storage` and `ContextMenu`), `options.dfy`,
`popup.dfy`, `background.dfy`.

Two promises that the extension's names and comments make are not kept by its
code. The model follows the code in both:

- The comment on the import merge (options.js:141) says it avoids duplicates
  by id. The loop at options.js:145-149 only skips an imported note whose id is
  already among the current notes. Two imported notes with the same new id are
  both appended (`Options.MergeKeepsImportDuplicates`). Nothing checks that an
  imported note has content either. A context-menu capture takes its id from a
  clock reading that need not be new. So the model does not
  prove that ids are unique. The only collection invariant it proves is that
  install and context-menu capture keep every stored note's content non-empty.
- The import reports the length of the imported array as the number of notes
  imported, not the number actually appended
  (`Options.ReportedCountIsImportLength`).

## Model

| member | source | states |
|---|---|---|
| `Options.LoadSettings` | options.js:39-52 | the form shows the stored settings, or the default record when none are stored |
| `Options.SaveSettings` | options.js:54-78 | the whole record built from the form is written and nothing else; the menu entry is created exactly when the context-menu box is checked and removed exactly when it is not |
| `Options.ResetSettings` | options.js:81-98 | when confirmed, the stored settings become exactly the defaults, the form shows the defaults and the menu entry is re-created; when declined, nothing changes |
| `Options.SaveThenLoadShowsSameForm` | options.js:41-63 | a saved form, loaded again, shows every control as it was |
| `Options.LoadedSettings` | options.js:41 | the settings in force are the stored record when there is one, and the default record otherwise |
| `Options.SettingsFromForm` | options.js:55-63 | the record a save builds holds, in each field, exactly what the form's control shows |
| `Options.MenuAfterSave` | options.js:72-77 | after a save, the menu entry is created if and only if `contextMenu` is true, and a save always acts on the entry |
| `Options.LoadWithoutStoredSettingsGivesDefaults` | options.js:19-41 | with nothing stored, and after a reset, each of the seven settings has its documented default value |
| `Options.Appended` | options.js:143-149 | the notes an import appends are at most the imported ones, and none has an id already among the current ids |
| `Options.MergeNotes` | options.js:139-149 | the copy-then-push loop guarded by the id set computes the merged collection `Merged` |
| `Options.AppendedMembership` | options.js:145-149 | a note is appended if and only if it is imported and its id is not among the current ids |
| `Options.AppendedConcat` | options.js:145-149 | notes from an earlier part of the import are appended before notes from a later part |
| `Options.AppendedAllNew` | options.js:143-149 | when no imported id is known, every imported note is appended in order |
| `Options.Merged` | options.js:139-149 | the merged collection begins with every current note, unchanged and in order, is at most the two lengths together, and no note after the current ones has a current id |
| `Options.MergeAppendsOnlyNewIds` | options.js:142-149 | after the current notes come exactly the imported notes with unknown ids; any note whose id is a current id is the current note in its place, so the existing note wins over the imported one |
| `Options.MergeKeepsImportOrder` | options.js:145-149 | merging `a + b` equals merging `a` and then appending what `b` contributes, so the import order is kept |
| `Options.MergeKeepsImportDuplicates` | options.js:143-149 | duplicate ids inside the import are all appended when new, because the id set comes only from the current notes |
| `Options.MergeIntoEmpty` | options.js:139-149 | merging into an empty or missing collection yields exactly the imported array |
| `Options.ExportNotes` | options.js:100-105 | the exported array is the stored notes, or empty when none are stored |
| `Options.ImportNotes` | options.js:123-163 | no file does nothing; unparseable text or a non-array is reported with the error message and writes nothing; a declined import writes nothing; a confirmed import writes the merge and reports the imported array's length |
| `Options.ExportThenImportIntoEmpty` | options.js:100-149 | exporting one store's notes and importing the file, confirmed, into a store with no notes leaves exactly those notes there |
| `Options.ReportedCountIsImportLength` | options.js:137-153 | with current ids 1, 2 and imported ids 2, 3, the result is notes 1, 2, 3 with the stored note 2 kept, and one note is appended while two are reported |
| `Popup.Trim` | popup.js:15 | the trimmed text is no longer than the input and neither starts nor ends with a JavaScript white-space or line-terminator character |
| `Popup.TrimStartIndex` | popup.js:15 | the trimmed text starts at the first position that is not white space: every skipped character is white space, and the character there is not |
| `Popup.TrimEndIndex` | popup.js:15 | the trimmed text ends just after the last character that is not white space: every dropped character is white space |
| `Popup.TrimCutsOnlyWhitespace` | popup.js:19 | the trimmed text is a slice of the input with only white space cut on either side, and it neither starts nor ends with white space |
| `Popup.TrimBlankIffAllWhitespace` | popup.js:15 | the input trims to the empty string if and only if every character is white space |
| `Popup.TrimIdempotent` | popup.js:15-19 | trimming the trimmed text changes nothing |
| `Popup.DownloadLine` | popup.js:20 | the download line is the date, one space, the content, then a newline, and nothing else |
| `Popup.Remembered` | popup.js:51-60 | the new history has length min(old length + 1, 5), the new entry at index 0, then the first min(old length, 4) old entries in order |
| `Popup.RememberedAllIsNewestFirst` | popup.js:45-60 | after any nonzero number of captures, the history is the captures newest-first followed by the older history, cut to five |
| `Popup.RememberedAllIsBounded` | popup.js:58-60 | the history never exceeds five entries, and after a capture its first entry is the newest |
| `Storage.OrEmpty` | options.js:102 | a stored array is read as it is, and a missing key is read as the empty array |
| `Popup.QuickCapture.LoadNoteHistory` | popup.js:73-77 | a missing stored history is shown as empty, a stored one as it is |
| `Popup.QuickCapture.SaveToHistory` | popup.js:45-68 | the stored history becomes the old history (empty if missing) with the new entry remembered at the front |
| `Popup.QuickCapture.SaveNote` | popup.js:14-38 | blank input leaves the input, history and downloads unchanged; otherwise the trimmed text is downloaded as `"<date> <content>\n"` to rough_notes.txt, remembered with the same date, and the input is cleared |
| `Background.OnInstalled` | background.js:4-20 | a missing notes value becomes the empty array, an existing array is untouched, and the menu entry is created |
| `Background.OnContextMenuClicked` | background.js:23-55 | a click that is not on `createNote` or has no selected text changes nothing; otherwise the notes are the old notes with exactly one note at the end, holding the selected text, the title `"Note from "` + tab title, category `other`, no tags, the tab's url and the two separate clock readings as id and lastModified; notes with content keep having content |

## Left out

- content.js, the `getTabInfo` message handler (background.js:58-69) and `displayNoteHistory`: DOM creation, styling and message passing, with no data logic.
- The `console.log` call on install (background.js:5): it only writes to the developer console.
- Storage asynchrony, storage errors and the read-modify-write races between the popup, the options page and the background script. Each operation is one atomic step from the stored state before to the state after.
- Blob, object-URL and anchor downloads, `chrome.downloads`, `chrome.notifications`, `chrome.contextMenus.create`/`remove`, the success-message timers and the file-input reset. A download is a record in `downloads`, a notification is the `notified` flag, and the menu change is a `ContextMenu.Effect`.
- `confirm` is a boolean parameter. Of the `alert` texts, only the error alert is modelled as a string. The success alert is modelled by its count.
- Date formatting (`toLocaleDateString`, `toISOString` in the export file name) and `Date.now`/`getTime`: the formatted date and the clock readings are parameters.
- `JSON.parse`/`JSON.stringify`: the import file arrives already parsed (`Options.Payload`), and an export is the array it would write. Imported notes are `Note` records with integer ids. Imported values of other shapes are not modelled.
- `Options.SettingsForm`: the number input is an integer, so `parseInt` on non-numeric text, which gives NaN, is not modelled.
- `Background.OnContextMenuClicked`: a click with no tab object at all is not modelled. An absent tab title is written as "undefined", as the template literal does.
- Note search, sorting and editing belong to the main popup editor, which is not part of this model.
