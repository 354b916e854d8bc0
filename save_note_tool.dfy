/** The save_note tool: a note, with an optional tag, is stored as two
    rows of the memory's `logs` table, a short "Note: ..." row and the row
    that holds the whole note. */
module SaveNoteTool {
  import opened Common
  import opened Json
  import opened Memory

  /** The marker in front of the note and the one in front of the tag. */
  const ContentMarker := "NOTE_CONTENT: "
  const TagMarker := "TAG: "

  /** The levels the two rows are written at. */
  const NoteLevel := "NOTE"
  const UserNoteLevel := "USER_NOTE"

  const EmptyNote := "Note content cannot be empty."
  const SaveFailed := "Failed to save note to memory (database error)."

  /** The notes accepted: strings with something other than whitespace. */
  predicate ValidNote(note: Json) {
    Truthy(note) && note.JStr? && Strip(note.s) != ""
  }

  /** The message of the first row: the note's first 100 characters, with
      "..." when it was longer. */
  function Snippet(note: string): (r: string)
    ensures |note| <= 100 ==> r == "Note: " + note
    ensures |note| > 100 ==> |r| == 109 && r[6..106] == note[..100]
  {
    "Note: " + (if |note| > 100 then note[..100] + "..." else note)
  }

  /** The message of the second row: the note after its marker, then the
      tag after " TAG: " when a tag is given. */
  function NoteMessage(note: string, tag: Json): string {
    ContentMarker + note + (if Truthy(tag) then " " + TagMarker + Str(tag) else "")
  }

  function Saved(id: nat, tag: Json): string {
    "Note saved successfully with ID " + NatToString(id) + "." +
    (if Truthy(tag) then " (Tag: '" + Str(tag) + "')" else "")
  }

  /** The answer once the rows are written, from the id the second write
      returned (None when the database failed). */
  function SaveAnswer(tag: Json, id: Option<nat>): (r: Json)
    ensures r.JObj? && "status" in r.fields
    ensures id.None? <==> r == ErrorResult(SaveFailed)
    ensures id.Some? ==> r.fields["status"] == JStr("success") && "note_id" in r.fields && r.fields["note_id"] == JInt(id.value)
  {
    match id
    case None => ErrorResult(SaveFailed)
    case Some(n) =>
      JObj(map["result" := JStr(Saved(n, tag)), "note_id" := JInt(n), "status" := JStr("success")])
  }

  /** Neither level the tool writes is one the memory keeps, so both rows
      are stored at "INFO". */
  lemma NotesStoredAsInfo()
    ensures NormaliseLevel(NoteLevel) == "INFO" && NormaliseLevel(UserNoteLevel) == "INFO"
  {
    UpperUnchanged(NoteLevel);
    UpperUnchanged(UserNoteLevel);
    assert |"USER_NOTE"| == 9 && "NOTE"[0] == 'N';
  }

  lemma AppendTwo<T>(before: seq<T>, middle: seq<T>, after: seq<T>)
    requires |middle| == |before| + 1 && middle[..|before|] == before
    requires |after| == |middle| + 1 && after[..|middle|] == middle
    ensures after == before + [middle[|before|], after[|middle|]]
  {
    assert after == middle + [after[|middle|]];
    assert middle == before + [middle[|before|]];
  }

  /** `SaveNoteTool(memory_manager)`: construction fails only without a
      manager. */
  method NewSaveNoteTool(memory: MemoryManager?) returns (r: Result<SaveNoteTool>)
    ensures r.Raised? <==> memory == null
    ensures r.Raised? ==> r.exc == Exc("ValueError", "MemoryManager instance is required for SaveNoteTool.")
    ensures r.Ok? ==> r.value.memory == memory
  {
    if memory == null {
      return Raised(Exc("ValueError", "MemoryManager instance is required for SaveNoteTool."));
    }
    var t := new SaveNoteTool(memory);
    r := Ok(t);
  }

  /** The save_note tool, with the memory it writes to. */
  class SaveNoteTool {
    const memory: MemoryManager

    constructor(memory: MemoryManager)
      ensures this.memory == memory
    {
      this.memory := memory;
    }

    /** Refuses an empty note; otherwise writes the snippet row at level
        "NOTE" and the full row at level "USER_NOTE", and answers with the
        id of the second. */
    method Execute(note: Json, tag: Json) returns (r: Json)
      requires memory.Valid()
      modifies memory`logs, memory`clock
      ensures memory.Valid()
      ensures !ValidNote(note) ==>
                r == ErrorResult(EmptyNote) && memory.logs == old(memory.logs) && memory.clock == old(memory.clock)
      ensures ValidNote(note) ==>
                var n := |old(memory.logs)|;
                var c := old(memory.clock);
                memory.logs == old(memory.logs) + [LogRow(n + 1, Snippet(note.s), "INFO", c + 1),
                                                   LogRow(n + 2, NoteMessage(note.s, tag), "INFO", c + 2)] &&
                r == SaveAnswer(tag, Some(n + 2))
    {
      if !Truthy(note) || !note.JStr? || Strip(note.s) == "" {
        return ErrorResult(EmptyNote);
      }
      var message := ContentMarker + note.s;
      if Truthy(tag) {
        message := message + (" " + TagMarker + Str(tag));
      }
      assert message == NoteMessage(note.s, tag);
      var id := WriteRows(Snippet(note.s), message);
      r := SaveAnswer(tag, Some(id));
    }

    /** The two `log_event` calls: the snippet row, then the note row, both
        stored at "INFO"; answers the id of the second. */
    method WriteRows(snippet: string, message: string) returns (id: nat)
      requires memory.Valid()
      modifies memory`logs, memory`clock
      ensures memory.Valid()
      ensures var n := |old(memory.logs)|;
              var c := old(memory.clock);
              memory.logs == old(memory.logs) + [LogRow(n + 1, snippet, "INFO", c + 1), LogRow(n + 2, message, "INFO", c + 2)] &&
              id == n + 2
    {
      NotesStoredAsInfo();
      ghost var before := memory.logs;
      var first := memory.LogEvent(snippet, NoteLevel);
      ghost var middle := memory.logs;
      assert middle[|before|] == LogRow(|before| + 1, snippet, "INFO", old(memory.clock) + 1);
      id := memory.LogEvent(message, UserNoteLevel);
      assert memory.logs[|middle|] == LogRow(|before| + 2, message, "INFO", old(memory.clock) + 2);
      AppendTwo(before, middle, memory.logs);
    }
  }
}
