/** The get_notes tool: reads back the notes save_note wrote, i.e. the
    `logs` rows asked for at level "USER_NOTE", keeps those whose message
    carries the requested tag and that are not older than `since`, and
    rebuilds each note from its message. */
module GetNotesTool {
  import opened Common
  import opened Json
  import opened Memory
  import opened SaveNoteTool

  const BadSince := "Invalid 'since' date/time format. Please use ISO 8601 format (e.g., YYYY-MM-DDTHH:MM:SSZ)."

  // ------------------------------------------------------------ parsing

  /** A note rebuilt from a message: the text before the first "TAG: " with
      every "NOTE_CONTENT: " removed, stripped, and the stripped rest as the
      tag; without a "TAG: " the whole message is the note. */
  function ParseMessage(message: string): (r: (string, Option<string>))
    ensures r.1.Some? <==> Contains(message, TagMarker)
  {
    match SplitOnce(message, TagMarker)
    case (before, Some(after)) => (Strip(Replace(before, ContentMarker, "")), Some(Strip(after)))
    case (_, None) => (Strip(Replace(message, ContentMarker, "")), None)
  }

  /** No "TAG: " begins inside the content marker, so the marker never
      creates a tag. */
  lemma TagNotInMarker(s: string)
    ensures Contains(ContentMarker + s, TagMarker) ==> Contains(s, TagMarker)
  {
    var m := ContentMarker;
    var x := m + s;
    if Contains(x, TagMarker) {
      var p: nat :| p <= |x| && OccursAt(x, TagMarker, p);
      assert x[p] == 'T' && x[p + 1] == 'A' by {
        assert x[p..p + 5] == TagMarker;
        assert TagMarker[0] == 'T' && TagMarker[1] == 'A';
      }
      assert forall i :: 0 <= i < 14 ==> x[i] == m[i];
      assert p >= 14;
      var q := p - 14;
      forall j | q <= j < q + 5
        ensures s[j] == x[j + 14]
      {
      }
      assert s[q..q + 5] == x[p..p + 5];
      ContainsAt(s, TagMarker, q);
    }
  }

  /** The separator " TAG:" cannot complete a "TAG: " unless the note
      followed by one space already holds one. */
  lemma TagNotAcrossSeparator(note: string)
    requires !Contains(note + " ", TagMarker)
    ensures !Contains(note + " TAG:", TagMarker)
  {
    var x := note + " TAG:";
    var y := note + " ";
    if Contains(x, TagMarker) {
      var p: nat :| p <= |x| && OccursAt(x, TagMarker, p);
      var n := |note|;
      assert x[p..p + 5] == TagMarker;
      assert x[n] == ' ';
      assert TagMarker[0] == 'T' && TagMarker[1] == 'A' && TagMarker[2] == 'G' && TagMarker[3] == ':';
      assert x[p] == 'T' && x[p + 1] == 'A' && x[p + 2] == 'G' && x[p + 3] == ':';
      assert p + 5 <= n + 1;
      assert y == x[..n + 1];
      PrefixAgree(x, y, TagMarker, p);
      ContainsAt(y, TagMarker, p);
    }
  }

  /** Removing the markers from a text that starts with the content marker
      and has none of its own leaves the rest. */
  lemma ReplaceMarker(s: string)
    requires !Contains(s, ContentMarker)
    ensures Replace(ContentMarker + s, ContentMarker, "") == s
  {
    var x := ContentMarker + s;
    assert OccursAt(x, ContentMarker, 0);
    assert x[|ContentMarker|..] == s;
  }

  /** `Contains` of a longer text holds of any text it starts with. */
  lemma ContainsPrefixOf(s: string, t: string, sub: string)
    requires Contains(s, sub)
    ensures Contains(s + t, sub)
  {
    ContainsConcat(s, t, sub);
  }

  /** The round trip: the note save_note stores is parsed back to the
      stripped note and the stripped tag (no tag when none was given), as
      long as the note does not itself contain, or end with the start of, a
      marker. */
  lemma SaveThenParse(note: string, tag: Json)
    requires !Contains(note + " ", TagMarker) && !Contains(note + " ", ContentMarker)
    ensures ParseMessage(NoteMessage(note, tag)) ==
              (Strip(note), if Truthy(tag) then Some(Strip(Str(tag))) else None)
  {
    if Truthy(tag) {
      var t := Str(tag);
      var a := ContentMarker + note + " ";
      assert NoteMessage(note, tag) == a + TagMarker + t;
      TagNotAcrossSeparator(note);
      assert a + TagMarker[..4] == ContentMarker + (note + " TAG:");
      TagNotInMarker(note + " TAG:");
      SplitOnceAt(a, TagMarker, t);
      assert a == ContentMarker + (note + " ");
      ReplaceMarker(note + " ");
      StripTrailingSpace(note);
    } else {
      assert NoteMessage(note, tag) == ContentMarker + note;
      if Contains(note, TagMarker) {
        ContainsPrefixOf(note, " ", TagMarker);
      }
      if Contains(note, ContentMarker) {
        ContainsPrefixOf(note, " ", ContentMarker);
      }
      TagNotInMarker(note);
      ReplaceMarker(note);
    }
  }

  // ------------------------------------------------------------ selecting

  /** The tag filter: a plain substring test for "TAG: <tag>" in the
      message, so a tag also matches every tag it is a prefix of. */
  predicate MatchesTag(message: string, tag: Json) {
    !Truthy(tag) || Contains(message, TagMarker + Str(tag))
  }

  /** A note saved with a tag is found by that tag. */
  lemma TaggedNoteMatches(note: string, tag: Json)
    ensures MatchesTag(NoteMessage(note, tag), tag)
  {
    if Truthy(tag) {
      var m := NoteMessage(note, tag);
      var y := TagMarker + Str(tag);
      var k := |ContentMarker| + |note| + 1;
      assert |m| == k + |y|;
      forall j | 0 <= j < |y|
        ensures m[k + j] == y[j]
      {
      }
      assert m[k..k + |y|] == y;
      ContainsAt(m, y, k);
    }
  }

  /** The rows the loop keeps: the tag matches and the `since` test, given
      as `notBefore` (false also when a row's timestamp does not parse),
      passes. */
  function Selected(tag: Json, notBefore: LogRow -> bool): LogRow -> bool {
    (row: LogRow) => MatchesTag(row.message, tag) && notBefore(row)
  }

  /** The dictionary built for one kept row. */
  function NoteOf(row: LogRow): (r: Json)
    ensures r.JObj? && r.fields.Keys == {"id", "note", "tag", "timestamp"}
    ensures r.fields["id"] == JInt(row.id) && r.fields["timestamp"] == JInt(row.timestamp)
    ensures r.fields["note"] == JStr(ParseMessage(row.message).0) && r.fields["tag"] == OptStr(ParseMessage(row.message).1)
  {
    var (note, tag) := ParseMessage(row.message);
    JObj(map["id" := JInt(row.id), "note" := JStr(note), "tag" := OptStr(tag), "timestamp" := JInt(row.timestamp)])
  }

  function NotesFrom(rows: seq<LogRow>): (r: seq<Json>)
    ensures |r| == |rows| && forall i :: 0 <= i < |rows| ==> r[i] == NoteOf(rows[i])
  {
    if rows == [] then [] else [NoteOf(rows[0])] + NotesFrom(rows[1..])
  }

  lemma {:induction false} NotesFromSnoc(rows: seq<LogRow>, row: LogRow)
    ensures NotesFrom(rows + [row]) == NotesFrom(rows) + [NoteOf(row)]
  {
    if rows != [] {
      assert (rows + [row])[1..] == rows[1..] + [row];
      NotesFromSnoc(rows[1..], row);
    }
  }

  /** How many kept rows the loop returns: it stops once it holds `limit`
      notes, testing only after appending, so a limit below 1 still lets one
      note through. */
  function Taken(kept: nat, limit: int): (r: nat)
    ensures r <= kept
    ensures kept > 0 ==> r > 0
    ensures limit >= 1 ==> r == if kept < limit then kept else limit
  {
    if kept < Cap(limit) then kept else Cap(limit)
  }

  /** The notes answered for the rows `get_logs` returned: the selected rows,
      in the order they came, up to `Taken` of them. */
  function NotesOf(rows: seq<LogRow>, tag: Json, notBefore: LogRow -> bool, limit: int): seq<Json> {
    var kept := Filter(rows, Selected(tag, notBefore));
    NotesFrom(kept[..Taken(|kept|, limit)])
  }

  /** What the notes are: each is rebuilt from a row that was returned, that
      matches the tag and passes `since`, in the order of the rows; there
      are `Taken` of them, and the rows skipped at the end are the selected
      ones beyond the limit. */
  lemma NotesOfSpec(rows: seq<LogRow>, tag: Json, notBefore: LogRow -> bool, limit: int)
    ensures var kept := Filter(rows, Selected(tag, notBefore));
            var notes := NotesOf(rows, tag, notBefore, limit);
            |notes| == Taken(|kept|, limit) &&
            (forall i :: 0 <= i < |notes| ==> notes[i] == NoteOf(kept[i])) &&
            (forall x :: x in kept ==> x in rows && MatchesTag(x.message, tag) && notBefore(x))
  {
    FilterMembers(rows, Selected(tag, notBefore));
  }

  /** The loop over the rows: skip rows that fail the filters, rebuild the
      others, and stop as soon as `limit` notes are held. */
  method Collect(rows: seq<LogRow>, tag: Json, notBefore: LogRow -> bool, limit: int) returns (notes: seq<Json>)
    ensures notes == NotesOf(rows, tag, notBefore, limit)
  {
    notes := [];
    var i := 0;
    while i < |rows|
      invariant 0 <= i <= |rows|
      invariant notes == NotesFrom(Filter(rows[..i], Selected(tag, notBefore)))
      invariant |notes| < Cap(limit)
    {
      CollectStep(rows, i, tag, notBefore);
      if MatchesTag(rows[i].message, tag) && notBefore(rows[i]) {
        notes := notes + [NoteOf(rows[i])];
        i := i + 1;
        if |notes| >= limit {
          CollectStops(rows, i, tag, notBefore, limit);
          return;
        }
      } else {
        i := i + 1;
      }
    }
    assert rows[..i] == rows;
  }

  /** One row of the loop: a row that matches the tag and passes `since`
      adds its note, any other row adds nothing. */
  lemma CollectStep(rows: seq<LogRow>, i: nat, tag: Json, notBefore: LogRow -> bool)
    requires i < |rows|
    ensures var keep := Selected(tag, notBefore);
            var before := Filter(rows[..i], keep);
            if MatchesTag(rows[i].message, tag) && notBefore(rows[i]) then
              Filter(rows[..i + 1], keep) == before + [rows[i]] &&
              NotesFrom(Filter(rows[..i + 1], keep)) == NotesFrom(before) + [NoteOf(rows[i])]
            else Filter(rows[..i + 1], keep) == before
  {
    var keep := Selected(tag, notBefore);
    FilterSnoc(rows, i, keep);
    if keep(rows[i]) {
      NotesFromSnoc(Filter(rows[..i], keep), rows[i]);
    } else {
      assert Filter(rows[..i], keep) + [] == Filter(rows[..i], keep);
    }
  }

  function Cap(limit: int): int {
    if limit < 1 then 1 else limit
  }

  /** When the notes of the first `i` rows reach the limit, they are all the
      notes answered. */
  lemma CollectStops(rows: seq<LogRow>, i: nat, tag: Json, notBefore: LogRow -> bool, limit: int)
    requires i <= |rows|
    requires |Filter(rows[..i], Selected(tag, notBefore))| == Cap(limit)
    ensures NotesFrom(Filter(rows[..i], Selected(tag, notBefore))) == NotesOf(rows, tag, notBefore, limit)
  {
    var keep := Selected(tag, notBefore);
    FilterPrefix(rows, i, keep);
    assert Filter(rows, keep)[..Cap(limit)] == Filter(rows[..i], keep);
  }

  /** The `limit` a call leaves out. */
  const DefaultLimit := 20

  /** `GetNotesTool(memory_manager)`: construction fails only without a
      manager. */
  method NewGetNotesTool(memory: MemoryManager?) returns (r: Result<GetNotesTool>)
    ensures r.Raised? <==> memory == null
    ensures r.Raised? ==> r.exc == Exc("ValueError", "MemoryManager instance is required for GetNotesTool.")
    ensures r.Ok? ==> r.value.memory == memory
  {
    if memory == null {
      return Raised(Exc("ValueError", "MemoryManager instance is required for GetNotesTool."));
    }
    var t := new GetNotesTool(memory);
    r := Ok(t);
  }

  /** The get_notes tool, with the memory it reads. */
  class GetNotesTool {
    const memory: MemoryManager

    constructor(memory: MemoryManager)
      ensures this.memory == memory
    {
      this.memory := memory;
    }

    /** A `since` that is not a string raises before anything is read; one
        that `fromisoformat` rejects (after "Z" becomes "+00:00", decided by
        `isoParses`) is refused; otherwise the notes are collected from the
        rows `get_logs` returns for level "USER_NOTE" and `limit * 5`, with
        `limit` 20 when the call leaves it out.
        Since `log_event` never stores that level, there are none. */
    method Execute(tag: Json, since: Json, limitArg: Arg<int>, isoParses: string -> bool, notBefore: LogRow -> bool)
      returns (r: Result<Json>)
      requires memory.Valid()
      ensures Truthy(since) && !since.JStr? ==>
                r == Raised(Exc("AttributeError", "'" + TypeName(since) + "' object has no attribute 'replace'"))
      ensures Truthy(since) && since.JStr? && !isoParses(Replace(since.s, "Z", "+00:00")) ==>
                r == Ok(ErrorResult(BadSince))
      ensures !Truthy(since) || (since.JStr? && isoParses(Replace(since.s, "Z", "+00:00"))) ==>
                r == Ok(SuccessResult(JList([]), "success"))
    {
      if Truthy(since) {
        if !since.JStr? {
          return Raised(Exc("AttributeError", "'" + TypeName(since) + "' object has no attribute 'replace'"));
        }
        if !isoParses(Replace(since.s, "Z", "+00:00")) {
          return Ok(ErrorResult(BadSince));
        }
      }
      var limit := ArgOr(limitArg, DefaultLimit);
      var rows := memory.GetLogs(Some(UserNoteLevel), limit * 5);
      NotesStoredAsInfo();
      NoRowsAtUnknownLevel(memory.logs, UserNoteLevel);
      var keep := if Truthy(since) then notBefore else (row: LogRow) => true;
      var notes := Collect(rows, tag, keep, limit);
      assert rows == [];
      r := Ok(SuccessResult(JList(notes), "success"));
    }
  }
}
