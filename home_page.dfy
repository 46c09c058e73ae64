/** The note editor page: an ordered list of notes with a cursor, the editor text
    that mirrors the note at the cursor, and the browser's `localStorage`, which
    holds the whole list under `'notes'` and the two Notion credentials. Each
    event handler is one atomic step on that state. */
module HomePage {
  import opened Wrappers
  import NotionClient

  const NotesSlot: string := "notes"
  const ApiKeySlot: string := "notion_api_key"
  const DatabaseIdSlot: string := "notion_database_id"

  const SuccessAlert: string := "Successfully posted to Notion!"
  const FailureAlert: string := "Failed to post to Notion. Please check your API configuration."

  /** A `localStorage` value after `JSON.parse`: the note list, or a plain string. */
  datatype Item = Text(value: string) | NoteList(notes: seq<string>)

  /** The shape this page writes: the list under `'notes'`, strings under the
      credential keys. */
  predicate WellTyped(storage: map<string, Item>) {
    && (NotesSlot in storage ==> storage[NotesSlot].NoteList?)
    && (ApiKeySlot in storage ==> storage[ApiKeySlot].Text?)
    && (DatabaseIdSlot in storage ==> storage[DatabaseIdSlot].Text?)
  }

  /** `localStorage.getItem(key)` is truthy: present and not `''`. */
  predicate Truthy(storage: map<string, Item>, key: string) {
    key in storage && storage[key].Text? && storage[key].value != ""
  }

  /** The outcome the user sees from the Post button. */
  datatype PostResult = ConfigurationRequested | Alerted(message: string)

  /** `(currentNoteIndex + 1) % notes.length`. */
  function NextIndex(cursor: nat, length: nat): (next: nat)
    requires cursor < length
    ensures next < length
    ensures next == if cursor + 1 == length then 0 else cursor + 1
  {
    (cursor + 1) % length
  }

  /** The cursor after `k` presses of Next. */
  function Advance(cursor: nat, length: nat, k: nat): (c: nat)
    requires cursor < length
    ensures c < length
    decreases k
  {
    if k == 0 then cursor else NextIndex(Advance(cursor, length, k - 1), length)
  }

  /** Within one lap, `k` presses of Next move the cursor `k` places to the right,
      wrapping once past the last note. */
  lemma {:induction false} AdvanceWithinLap(cursor: nat, length: nat, k: nat)
    requires cursor < length && k <= length
    ensures Advance(cursor, length, k) == if cursor + k < length then cursor + k else cursor + k - length
    decreases k
  {
    if k > 0 {
      AdvanceWithinLap(cursor, length, k - 1);
    }
  }

  /** Presses of Next compose: `a` presses then `b` presses are `a + b` presses. */
  lemma {:induction false} AdvanceCompose(cursor: nat, length: nat, a: nat, b: nat)
    requires cursor < length
    ensures Advance(Advance(cursor, length, a), length, b) == Advance(cursor, length, a + b)
    decreases b
  {
    if b > 0 {
      AdvanceCompose(cursor, length, a, b - 1);
    }
  }

  /** Pressing Next as many times as there are notes returns to the starting note. */
  lemma NextCycles(cursor: nat, length: nat)
    requires cursor < length
    ensures Advance(cursor, length, length) == cursor
  {
    AdvanceWithinLap(cursor, length, length);
  }

  /** Hence the cursor is periodic in the number of presses, with the list length as
      period. */
  lemma NextPeriodic(cursor: nat, length: nat, k: nat)
    requires cursor < length
    ensures Advance(cursor, length, k + length) == Advance(cursor, length, k)
  {
    AdvanceCompose(cursor, length, length, k);
    NextCycles(cursor, length);
    assert length + k == k + length;
  }

  /** `notes.filter((_, index) => index !== i)`, walking the list with `i` counted
      down as the index goes up. */
  function FilterOutIndex(notes: seq<string>, i: int): seq<string>
    decreases |notes|
  {
    if notes == [] then []
    else (if i == 0 then [] else [notes[0]]) + FilterOutIndex(notes[1..], i - 1)
  }

  lemma {:induction false} FilterOutMissingIndex(notes: seq<string>, i: int)
    requires i < 0
    ensures FilterOutIndex(notes, i) == notes
    decreases |notes|
  {
    if notes != [] {
      FilterOutMissingIndex(notes[1..], i - 1);
    }
  }

  /** The filter removes exactly the entry at `i` and keeps the rest in order. */
  lemma {:induction false} FilterOutIndexRemoves(notes: seq<string>, i: nat)
    requires i < |notes|
    ensures FilterOutIndex(notes, i) == notes[..i] + notes[i + 1..]
    decreases |notes|
  {
    if i == 0 {
      FilterOutMissingIndex(notes[1..], -1);
    } else {
      FilterOutIndexRemoves(notes[1..], i - 1);
      assert notes[1..][..i - 1] == notes[1..i];
      assert notes[1..][i..] == notes[i + 1..];
      assert [notes[0]] + notes[1..i] == notes[..i];
    }
  }

  class Home {
    var notes: seq<string>
    var cursor: nat
    var text: string
    var storage: map<string, Item>
    var showApiModal: bool
    var notionConfigured: bool
    /** The module-level key holder of the Notion helper. */
    const client: NotionClient.Client

    /** The page invariant: at least one note, the cursor on a note, the editor
        showing that note, the saved list (when there is one) equal to the list in
        memory, and, once both credentials are saved, the helper holding the saved
        key. */
    ghost predicate Valid()
      reads this, client
    {
      && |notes| >= 1
      && cursor < |notes|
      && text == notes[cursor]
      && WellTyped(storage)
      && (NotesSlot in storage ==> storage[NotesSlot] == NoteList(notes))
      && (Truthy(storage, ApiKeySlot) && Truthy(storage, DatabaseIdSlot) ==>
            client.apiKey == Some(storage[ApiKeySlot].value))
    }

    /** Loading the page: the module-level `initializeNotion(env || '')`, the initial
        state, and the mount effect that reads the credentials and the saved notes.
        `envKey` is `NEXT_PUBLIC_NOTION_API_KEY`. */
    constructor (saved: map<string, Item>, envKey: Option<string>)
      requires WellTyped(saved)
      ensures fresh(client)
      ensures storage == saved && cursor == 0 && !showApiModal
      ensures notionConfigured <==> Truthy(saved, ApiKeySlot) && Truthy(saved, DatabaseIdSlot)
      ensures client.apiKey == Some(if notionConfigured then saved[ApiKeySlot].value else envKey.GetOr(""))
      ensures NotesSlot in saved ==>
        notes == saved[NotesSlot].notes && text == (if |notes| > 0 then notes[0] else "")
      ensures NotesSlot !in saved ==> notes == [""] && text == ""
      ensures NotesSlot !in saved || |saved[NotesSlot].notes| > 0 ==> Valid()
    {
      var c := new NotionClient.Client();
      c.Initialize(envKey.GetOr(""));
      var configured := false;
      if Truthy(saved, ApiKeySlot) && Truthy(saved, DatabaseIdSlot) {
        c.Initialize(saved[ApiKeySlot].value);
        configured := true;
      }
      var loaded: seq<string>, shown: string;
      if NotesSlot in saved {
        loaded := saved[NotesSlot].notes;
        shown := if |loaded| > 0 then loaded[0] else "";
      } else {
        loaded, shown := [""], "";
      }
      client := c;
      notes, cursor, text := loaded, 0, shown;
      storage := saved;
      showApiModal, notionConfigured := false, configured;
    }

    /** `handleTextChange`: the note at the cursor becomes `newText`, and the whole
        list is saved. */
    method TextChange(newText: string)
      requires Valid()
      modifies this
      ensures Valid()
      ensures |notes| == |old(notes)| && cursor == old(cursor)
      ensures notes[cursor] == newText && text == newText
      ensures forall j :: 0 <= j < |notes| && j != cursor ==> notes[j] == old(notes)[j]
      ensures storage == old(storage)[NotesSlot := NoteList(notes)]
      ensures showApiModal == old(showApiModal) && notionConfigured == old(notionConfigured)
    {
      text := newText;
      var updatedNotes := notes;
      updatedNotes := updatedNotes[cursor := newText];
      notes := updatedNotes;
      storage := storage[NotesSlot := NoteList(updatedNotes)];
    }

    /** `handleNewNote`: append an empty note, move to it, and save. */
    method NewNote()
      requires Valid()
      modifies this
      ensures Valid()
      ensures notes == old(notes) + [""]
      ensures cursor == |old(notes)| && text == ""
      ensures storage == old(storage)[NotesSlot := NoteList(notes)]
      ensures showApiModal == old(showApiModal) && notionConfigured == old(notionConfigured)
    {
      var updatedNotes := notes + [""];
      notes := updatedNotes;
      cursor := |updatedNotes| - 1;
      text := "";
      storage := storage[NotesSlot := NoteList(updatedNotes)];
    }

    /** `handleNextNote`: move the cursor one note to the right, wrapping around;
        nothing is saved. */
    method NextNote()
      requires Valid()
      modifies this
      ensures Valid()
      ensures notes == old(notes) && storage == old(storage)
      ensures cursor == NextIndex(old(cursor), |notes|) && text == notes[cursor]
      ensures showApiModal == old(showApiModal) && notionConfigured == old(notionConfigured)
    {
      var nextIndex := (cursor + 1) % |notes|;
      cursor := nextIndex;
      text := notes[nextIndex];
    }

    /** `handleDeleteNote`: a lone note is cleared instead of removed; otherwise the
        note at the cursor is removed, the cursor moves back one (staying at 0 when
        already there), and the list is saved. */
    method DeleteNote()
      requires Valid()
      modifies this
      ensures Valid()
      ensures |old(notes)| <= 1 ==>
        notes == [""] && cursor == 0 && text == "" && storage == old(storage)[NotesSlot := NoteList([""])]
      ensures |old(notes)| > 1 ==>
        && notes == old(notes)[..old(cursor)] + old(notes)[old(cursor) + 1..]
        && |notes| == |old(notes)| - 1
        && cursor == (if old(cursor) > 0 then old(cursor) - 1 else 0)
        && text == notes[cursor]
        && storage == old(storage)[NotesSlot := NoteList(notes)]
      ensures showApiModal == old(showApiModal) && notionConfigured == old(notionConfigured)
    {
      if |notes| <= 1 {
        text := "";
        notes := [""];
        storage := storage[NotesSlot := NoteList([""])];
        return;
      }
      var updatedNotes := FilterOutIndex(notes, cursor);
      FilterOutIndexRemoves(notes, cursor);
      notes := updatedNotes;
      var newIndex := if cursor > 0 then cursor - 1 else 0;
      cursor := newIndex;
      text := updatedNotes[newIndex];
      storage := storage[NotesSlot := NoteList(updatedNotes)];
    }

    /** `handleApiConfig`: save both credentials, hand the key to the Notion helper,
        and close the dialog. Nothing is validated here. */
    method ApiConfig(apiKey: string, databaseId: string)
      requires Valid()
      modifies this, client
      ensures Valid()
      ensures storage == old(storage)[ApiKeySlot := Text(apiKey)][DatabaseIdSlot := Text(databaseId)]
      ensures client.apiKey == Some(apiKey)
      ensures notionConfigured && !showApiModal
      ensures notes == old(notes) && cursor == old(cursor) && text == old(text)
    {
      storage := storage[ApiKeySlot := Text(apiKey)];
      storage := storage[DatabaseIdSlot := Text(databaseId)];
      client.Initialize(apiKey);
      notionConfigured := true;
      showApiModal := false;
    }

    /** `handlePostToNotion`: without both saved credentials open the dialog and send
        nothing; otherwise post the editor text with the saved database id and the
        saved key, which `Valid()` ties to the helper's. Neither outcome touches
        the notes. */
    method PostToNotion(fetch: NotionClient.RequestBody -> NotionClient.FetchResponse)
      returns (result: PostResult, sent: Option<NotionClient.RequestBody>)
      requires Valid()
      modifies this
      ensures Valid()
      ensures notes == old(notes) && cursor == old(cursor) && text == old(text) && storage == old(storage)
      ensures notionConfigured == old(notionConfigured)
      ensures !(Truthy(storage, ApiKeySlot) && Truthy(storage, DatabaseIdSlot)) ==>
        result == ConfigurationRequested && sent == None && showApiModal
      ensures Truthy(storage, ApiKeySlot) && Truthy(storage, DatabaseIdSlot) ==>
        && showApiModal == old(showApiModal)
        && sent == Some(NotionClient.RequestBody(storage[DatabaseIdSlot].value, text, None, storage[ApiKeySlot].value))
        && result == Alerted(if fetch(sent.value).ok then SuccessAlert else FailureAlert)
    {
      if !(Truthy(storage, ApiKeySlot) && Truthy(storage, DatabaseIdSlot)) {
        showApiModal := true;
        return ConfigurationRequested, None;
      }
      var databaseId := storage[DatabaseIdSlot].value;
      var outcome;
      outcome, sent := client.Post(databaseId, text, None, fetch);
      if outcome.Success? {
        result := Alerted(SuccessAlert);
      } else {
        result := Alerted(FailureAlert);
      }
    }
  }
}
