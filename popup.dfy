/**
 The quick-capture popup: the typed text is trimmed, offered as a one-line
 download to "rough_notes.txt", and remembered at the front of a history of
 at most five entries kept in the local storage bucket.
 */
module Popup {
  import opened Storage

  // ---------------------------------------------------------------------------
  // Trimming
  // ---------------------------------------------------------------------------

  /** The characters the JavaScript `trim` removes: white space and line terminators. */
  predicate IsJsWhitespace(c: char)
  {
    || c == '\t' || c == '\n' || c == '\U{000B}' || c == '\U{000C}' || c == '\r' || c == ' '
    || c == '\U{00A0}' || c == '\U{1680}' || ('\U{2000}' <= c <= '\U{200A}')
    || c == '\U{2028}' || c == '\U{2029}' || c == '\U{202F}' || c == '\U{205F}'
    || c == '\U{3000}' || c == '\U{FEFF}'
  }

  /** Where the text of `s` starts when looking from `from` on: the first position that is not white space. */
  function TrimStartIndex(s: string, from: nat): (i: nat)
    requires from <= |s|
    ensures from <= i <= |s|
    ensures forall k :: from <= k < i ==> IsJsWhitespace(s[k])
    ensures i == |s| || !IsJsWhitespace(s[i])
    decreases |s| - from
  {
    if from < |s| && IsJsWhitespace(s[from]) then TrimStartIndex(s, from + 1) else from
  }

  /** Where the text of `s[lo..hi]` ends: just after the last position that is not white space. */
  function TrimEndIndex(s: string, lo: nat, hi: nat): (j: nat)
    requires lo <= hi <= |s|
    ensures lo <= j <= hi
    ensures forall k :: j <= k < hi ==> IsJsWhitespace(s[k])
    ensures j == lo || !IsJsWhitespace(s[j - 1])
    decreases hi
  {
    if lo < hi && IsJsWhitespace(s[hi - 1]) then TrimEndIndex(s, lo, hi - 1) else hi
  }

  /** `s` without leading and trailing white space. */
  function Trim(s: string): (r: string)
    ensures |r| <= |s|
    ensures r == [] || (!IsJsWhitespace(r[0]) && !IsJsWhitespace(r[|r| - 1]))
  {
    var i := TrimStartIndex(s, 0);
    s[i..TrimEndIndex(s, i, |s|)]
  }

  /**
   The trimmed text is a slice of the input that neither starts nor ends with
   white space, and everything cut off on either side is white space.
   */
  lemma TrimCutsOnlyWhitespace(s: string)
    ensures exists i, j ::
      && 0 <= i <= j <= |s| && Trim(s) == s[i..j]
      && (forall k :: 0 <= k < i ==> IsJsWhitespace(s[k]))
      && (forall k :: j <= k < |s| ==> IsJsWhitespace(s[k]))
      && (i == j || (!IsJsWhitespace(s[i]) && !IsJsWhitespace(s[j - 1])))
  {
    var i := TrimStartIndex(s, 0);
    var j := TrimEndIndex(s, i, |s|);
    assert Trim(s) == s[i..j];
  }

  /** Input trims to nothing exactly when every character of it is white space. */
  lemma TrimBlankIffAllWhitespace(s: string)
    ensures Trim(s) == [] <==> forall k :: 0 <= k < |s| ==> IsJsWhitespace(s[k])
  {
    var i := TrimStartIndex(s, 0);
    var j := TrimEndIndex(s, i, |s|);
    assert |Trim(s)| == j - i;
  }

  /** Trimming twice is trimming once. */
  lemma TrimIdempotent(s: string)
    ensures Trim(Trim(s)) == Trim(s)
  {
    var i := TrimStartIndex(s, 0);
    var j := TrimEndIndex(s, i, |s|);
    var r := Trim(s);
    assert r == s[i..j];
    assert r != [] ==> r[0] == s[i] && r[|r| - 1] == s[j - 1];
    assert TrimStartIndex(r, 0) == 0;
    assert TrimEndIndex(r, 0, |r|) == |r|;
  }

  // ---------------------------------------------------------------------------
  // Download line and history
  // ---------------------------------------------------------------------------

  const RoughNotesFile := "rough_notes.txt"

  /** The most entries the history keeps. */
  const MaxHistory := 5

  /** A download started by the popup. */
  datatype Download = Download(filename: string, text: string, saveAs: bool)

  datatype HistoryEntry = HistoryEntry(date: string, content: string, timestamp: int)

  function Min(a: int, b: int): int
  {
    if a <= b then a else b
  }

  /** The downloaded line: the date, one space, the note, a newline. */
  function DownloadLine(date: string, content: string): (line: string)
    ensures |line| == |date| + |content| + 2
    ensures line[..|date|] == date && line[|date|] == ' '
    ensures line[|date| + 1..|line| - 1] == content && line[|line| - 1] == '\n'
  {
    date + " " + content + "\n"
  }

  /**
   The history after remembering `entry`: it comes first, followed by the
   newest entries that still fit; only the oldest are dropped.
   */
  function Remembered(history: seq<HistoryEntry>, entry: HistoryEntry): (r: seq<HistoryEntry>)
    ensures |r| == Min(|history| + 1, MaxHistory)
    ensures r[0] == entry
    ensures r[1..] == history[..Min(|history|, MaxHistory - 1)]
  {
    var h := [entry] + history;
    if |h| > MaxHistory then h[..MaxHistory] else h
  }

  /** The history after remembering each of `entries` in turn, the last one most recently. */
  function RememberedAll(history: seq<HistoryEntry>, entries: seq<HistoryEntry>): seq<HistoryEntry>
    decreases |entries|
  {
    if entries == [] then history
    else Remembered(RememberedAll(history, entries[..|entries| - 1]), entries[|entries| - 1])
  }

  function Reversed<T>(s: seq<T>): (r: seq<T>)
    ensures |r| == |s|
  {
    if s == [] then [] else [s[|s| - 1]] + Reversed(s[..|s| - 1])
  }

  /** Remembering an entry is putting it in front and keeping the first five. */
  lemma RememberedIsCappedCons(history: seq<HistoryEntry>, entry: HistoryEntry)
    ensures Remembered(history, entry) == ([entry] + history)[..Min(|history| + 1, MaxHistory)]
  {
  }

  lemma ConsOfPrefix<T>(e: T, s: seq<T>, m: nat, j: nat)
    requires m <= |s| && j <= m + 1
    ensures ([e] + s[..m])[..j] == ([e] + s)[..j]
  {
    assert forall k | 0 <= k < j :: ([e] + s[..m])[k] == ([e] + s)[k];
  }

  /**
   After any number of captures the history holds the newest captures first,
   then the older history, cut to at most five entries.
   */
  lemma {:induction false} RememberedAllIsNewestFirst(history: seq<HistoryEntry>, entries: seq<HistoryEntry>)
    requires entries != []
    ensures RememberedAll(history, entries)
         == (Reversed(entries) + history)[..Min(|entries| + |history|, MaxHistory)]
    decreases |entries|
  {
    var init, e := entries[..|entries| - 1], entries[|entries| - 1];
    var before := RememberedAll(history, init);
    assert RememberedAll(history, entries) == Remembered(before, e);
    assert Reversed(entries) == [e] + Reversed(init);
    RememberedIsCappedCons(before, e);
    if init == [] {
      assert before == history;
      assert Reversed(entries) + history == [e] + history;
    } else {
      RememberedAllIsNewestFirst(history, init);
      var rest := Reversed(init) + history;
      var m := Min(|init| + |history|, MaxHistory);
      assert before == rest[..m];
      assert Reversed(entries) + history == [e] + rest;
      ConsOfPrefix(e, rest, m, Min(m + 1, MaxHistory));
    }
  }

  /** However many captures are made, the history never holds more than five entries. */
  lemma RememberedAllIsBounded(history: seq<HistoryEntry>, entries: seq<HistoryEntry>)
    requires entries != [] || |history| <= MaxHistory
    ensures |RememberedAll(history, entries)| <= MaxHistory
    ensures entries != [] ==> RememberedAll(history, entries)[0] == entries[|entries| - 1]
  {
    if entries != [] {
      RememberedAllIsNewestFirst(history, entries);
    }
  }

  // ---------------------------------------------------------------------------
  // The popup
  // ---------------------------------------------------------------------------

  /**
   The popup's state: the text in its input box, the "noteHistory" key of the
   local bucket, and the downloads it has started.
   */
  class QuickCapture {
    var noteInput: string
    var noteHistory: Option<seq<HistoryEntry>>
    var downloads: seq<Download>

    constructor (noteInput: string, noteHistory: Option<seq<HistoryEntry>>)
      ensures this.noteInput == noteInput && this.noteHistory == noteHistory && downloads == []
    {
      this.noteInput := noteInput;
      this.noteHistory := noteHistory;
      downloads := [];
    }

    /** The history shown when the popup opens: the stored one, or none. */
    method LoadNoteHistory() returns (shown: seq<HistoryEntry>)
      ensures noteHistory.None? ==> shown == []
      ensures noteHistory.Some? ==> shown == noteHistory.value
    {
      shown := OrEmpty(noteHistory);
    }

    /** Puts a new entry at the front of the stored history and keeps at most five. */
    method SaveToHistory(date: string, content: string, now: int)
      modifies this`noteHistory
      ensures noteHistory == Some(Remembered(OrEmpty(old(noteHistory)), HistoryEntry(date, content, now)))
    {
      var history := OrEmpty(noteHistory);
      history := [HistoryEntry(date, content, now)] + history;
      if |history| > MaxHistory {
        history := history[..MaxHistory];
      }
      noteHistory := Some(history);
    }

    /**
     Captures the input: blank input changes nothing; otherwise the trimmed
     text is downloaded as a dated line, remembered in the history with the
     same date, and the input box is cleared.
     */
    method SaveNote(formattedDate: string, now: int)
      modifies this
      ensures Trim(old(noteInput)) == [] ==>
        noteInput == old(noteInput) && noteHistory == old(noteHistory) && downloads == old(downloads)
      ensures Trim(old(noteInput)) != [] ==>
        var content := Trim(old(noteInput));
        && noteInput == ""
        && downloads == old(downloads) + [Download(RoughNotesFile, DownloadLine(formattedDate, content), false)]
        && noteHistory == Some(Remembered(OrEmpty(old(noteHistory)), HistoryEntry(formattedDate, content, now)))
    {
      if Trim(noteInput) != "" {
        var noteContent := Trim(noteInput);
        var noteWithDate := DownloadLine(formattedDate, noteContent);
        downloads := downloads + [Download(RoughNotesFile, noteWithDate, false)];
        SaveToHistory(formattedDate, noteContent, now);
        noteInput := "";
      }
    }
  }
}
