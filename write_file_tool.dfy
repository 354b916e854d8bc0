/** The write_file tool: overwrites or appends to a file of the same
    sandbox directory the read_file tool reads from, under the same name
    rules. */
module WriteFileTool {
  import opened Common
  import opened Json
  import opened FileSystem
  import opened ReadFileTool

  /** What a call answers (or raises) and the filesystem after it. */
  datatype Outcome = Outcome(result: Result<Json>, nodes: Nodes)

  function UnsafeWrite(filename: string): string {
    "Invalid or unsafe filename: '" + filename + "'. Writing is restricted to the designated agent directory."
  }

  function InvalidMode(mode: string): string {
    "Invalid mode: '" + mode + "'. Must be 'overwrite' or 'append'."
  }

  function CouldNotWrite(filename: string, e: Exc): string {
    "Could not write to file '" + filename + "': " + e.msg
  }

  function UnexpectedWrite(filename: string): string {
    "An unexpected error occurred while writing to '" + filename + "'."
  }

  function Wrote(count: nat, filename: string, mode: string): string {
    "Successfully wrote " + NatToString(count) + " bytes to '" + filename + "' (mode: " + mode + ")."
  }

  /** `mode.lower() if mode else "overwrite"`, for a mode that is falsy or
      a string. */
  function NormalizedMode(mode: Json): string
    requires !Truthy(mode) || mode.JStr?
  {
    if Truthy(mode) then Lower(mode.s) else "overwrite"
  }

  predicate ValidMode(mode: Json) {
    (!Truthy(mode) || mode.JStr?) && NormalizedMode(mode) in {"overwrite", "append"}
  }

  /** The error `open` raises for writing at `p`, if any: a directory
      cannot be opened, a missing file is created only in an existing
      directory. */
  function OpenForWrite(nodes: Nodes, p: Path): Option<Exc> {
    if IsDir(nodes, p) then Some(IsADirectory(p))
    else if IsFile(nodes, p) || IsDir(nodes, Dirname(p)) then None
    else if Blocked(nodes, p) then Some(NotADirectory(p))
    else Some(NoSuchFile(p))
  }

  /** The text the file ends with: the content after nothing (overwrite) or
      after the file's old text, if it had one (append). */
  function Written(nodes: Nodes, p: Path, mode: string, content: string): string {
    (if mode == "append" && IsFile(nodes, p) then nodes[p].content else "") + content
  }

  /** The open and the write at `p` with the normalised mode `m`: a
      content that is not a string fails at the write, after the open has
      truncated or created the file. */
  function OpenAndWrite(nodes: Nodes, p: Path, filename: string, content: Json, m: string): (r: Outcome)
  {
    match OpenForWrite(nodes, p)
    case Some(e) => Outcome(Ok(ErrorResult(CouldNotWrite(filename, e))), nodes)
    case None =>
      if content.JStr? then
        Outcome(Ok(SuccessResult(JStr(Wrote(|content.s|, filename, m)), "success")), nodes[p := File(Written(nodes, p, m, content.s))])
      else
        Outcome(Ok(ErrorResult(UnexpectedWrite(filename))), nodes[p := File(Written(nodes, p, m, ""))])
  }

  /** The call answered with status "success". */
  predicate Succeeded(o: Outcome) {
    o.result.Ok? && o.result.value.JObj? && "status" in o.result.value.fields &&
    o.result.value.fields["status"] == JStr("success")
  }

  /** The mode check and the write at the sandboxed path `p`: a truthy
      mode that is not a string has no `lower`. */
  function ModeAndWrite(nodes: Nodes, p: Path, filename: string, content: Json, mode: Json): (r: Outcome)
  {
    if Truthy(mode) && !mode.JStr? then
      Outcome(Raised(Exc("AttributeError", "'" + TypeName(mode) + "' object has no attribute 'lower'")), nodes)
    else if !ValidMode(mode) then Outcome(Ok(ErrorResult(InvalidMode(Str(mode)))), nodes)
    else OpenAndWrite(nodes, p, filename, content, NormalizedMode(mode))
  }

  /** write_file: `len(content)` is taken first (and raises for a value
      without a length), then the name and the mode are checked before the
      file is opened and written. */
  function WriteOutcome(nodes: Nodes, base: Path, filename: string, content: Json, mode: Json): (r: Outcome)
    requires Clean(base)
  {
    if !Sized(content) then
      Outcome(Raised(Exc("TypeError", "object of type '" + TypeName(content) + "' has no len()")), nodes)
    else match SafeFilePath(base, filename)
      case None => Outcome(Ok(ErrorResult(UnsafeWrite(filename))), nodes)
      case Some(p) => ModeAndWrite(nodes, p, filename, content, mode)
  }

  /** The name rules are read_file's: an unsafe name gets the unsafe-name
      error and writes nothing, and any other name is written at the same
      flattened path read_file reads. */
  lemma WriteRefusesUnsafe(nodes: Nodes, base: Path, filename: string, content: Json, mode: Json)
    requires Clean(base) && Sized(content)
    ensures Unsafe(filename) ==>
              WriteOutcome(nodes, base, filename, content, mode) == Outcome(Ok(ErrorResult(UnsafeWrite(filename))), nodes)
    ensures !Unsafe(filename) ==>
              WriteOutcome(nodes, base, filename, content, mode) == ModeAndWrite(nodes, Flattened(base, filename), filename, content, mode)
  {
    SafeFilePathSpec(base, filename);
  }

  /** The mode acts only through its lower-cased form, a falsy mode being
      "overwrite"; any other mode is refused and writes nothing. */
  lemma ModeRules(nodes: Nodes, p: Path, filename: string, content: Json, mode: Json)
    ensures !Truthy(mode) ==>
              ModeAndWrite(nodes, p, filename, content, mode) == OpenAndWrite(nodes, p, filename, content, "overwrite")
    ensures mode.JStr? && Lower(mode.s) in {"overwrite", "append"} ==>
              ModeAndWrite(nodes, p, filename, content, mode) == OpenAndWrite(nodes, p, filename, content, Lower(mode.s))
    ensures mode.JStr? && mode.s != "" && Lower(mode.s) !in {"overwrite", "append"} ==>
              ModeAndWrite(nodes, p, filename, content, mode) == Outcome(Ok(ErrorResult(InvalidMode(mode.s))), nodes)
  {
    if mode.JStr? && mode.s == "" {
      assert Lower(mode.s) == "";
    }
  }

  /** A write at `p` succeeds exactly when the file can be opened and the
      content is a string; it then leaves the written text at `p` and
      reports the length of the content and the mode. */
  lemma OpenAndWriteSpec(nodes: Nodes, p: Path, filename: string, content: Json, m: string)
    ensures var o := OpenAndWrite(nodes, p, filename, content, m);
            Succeeded(o) <==>
              content.JStr? && OpenForWrite(nodes, p).None?
    ensures var o := OpenAndWrite(nodes, p, filename, content, m);
            Succeeded(o) ==>
              o.nodes == nodes[p := File(Written(nodes, p, m, content.s))] &&
              o.result.value == SuccessResult(JStr(Wrote(|content.s|, filename, m)), "success")
    ensures OpenForWrite(nodes, p).Some? ==> OpenAndWrite(nodes, p, filename, content, m).nodes == nodes
  {
  }

  /** Opening for writing succeeds only at a file or in a directory. */
  lemma OpenedInDir(nodes: Nodes, p: Path)
    requires Tree(nodes) && OpenForWrite(nodes, p).None?
    ensures p != [] && IsDir(nodes, Dirname(p)) && !IsDir(nodes, p)
  {
    assert IsDir(nodes, []);
    if IsFile(nodes, p) {
      assert IsDir(nodes, Dirname(p));
    }
  }

  /** A write at `p` leaves a tree and changes no entry but `p`. */
  lemma OpenAndWriteKeepsTree(nodes: Nodes, p: Path, filename: string, content: Json, m: string)
    requires Tree(nodes)
    ensures var after := OpenAndWrite(nodes, p, filename, content, m).nodes;
            Tree(after) && forall q :: q != p ==> (q in after <==> q in nodes) && (q in nodes ==> after[q] == nodes[q])
  {
    if OpenForWrite(nodes, p).None? {
      OpenedInDir(nodes, p);
      FileInDir(nodes, p, Written(nodes, p, m, if content.JStr? then content.s else ""));
    }
  }

  /** Every call leaves a tree, and changes no entry but the flattened path. */
  lemma WriteKeepsTree(nodes: Nodes, base: Path, filename: string, content: Json, mode: Json)
    requires Clean(base) && Tree(nodes)
    ensures var after := WriteOutcome(nodes, base, filename, content, mode).nodes;
            Tree(after) && forall q :: q != Flattened(base, filename) ==> (q in after <==> q in nodes) && (q in nodes ==> after[q] == nodes[q])
  {
    if Sized(content) {
      WriteRefusesUnsafe(nodes, base, filename, content, mode);
      if !Unsafe(filename) && ValidMode(mode) {
        OpenAndWriteKeepsTree(nodes, Flattened(base, filename), filename, content, NormalizedMode(mode));
      }
    }
  }

  /** Past the name check, a call succeeds exactly when the mode is valid,
      the content a string and `p` can be opened for writing. */
  lemma ModeAndWriteSucceeds(nodes: Nodes, p: Path, filename: string, content: Json, mode: Json)
    ensures Succeeded(ModeAndWrite(nodes, p, filename, content, mode)) <==>
              ValidMode(mode) && content.JStr? && OpenForWrite(nodes, p).None?
  {
    if ValidMode(mode) {
      OpenAndWriteSpec(nodes, p, filename, content, NormalizedMode(mode));
    }
  }

  /** A call succeeds exactly when the content is a string, the name safe,
      the mode valid and the flattened path can be opened for writing. */
  lemma WriteSucceeds(nodes: Nodes, base: Path, filename: string, content: Json, mode: Json)
    requires Clean(base)
    ensures var o := WriteOutcome(nodes, base, filename, content, mode);
            Succeeded(o) <==>
              content.JStr? && !Unsafe(filename) && ValidMode(mode) &&
              OpenForWrite(nodes, Flattened(base, filename)).None?
  {
    if Sized(content) {
      WriteRefusesUnsafe(nodes, base, filename, content, mode);
      if !Unsafe(filename) {
        ModeAndWriteSucceeds(nodes, Flattened(base, filename), filename, content, mode);
      }
    }
  }

  /** Writing and then reading the same name back whole gives the content
      (after the old text, when appending to an existing file), with its
      line breaks read as "\n". */
  lemma WriteThenRead(nodes: Nodes, base: Path, filename: string, content: string, mode: Json)
    requires Clean(base)
    requires var o := WriteOutcome(nodes, base, filename, JStr(content), mode);
             Succeeded(o)
    ensures var after := WriteOutcome(nodes, base, filename, JStr(content), mode).nodes;
            ValidMode(mode) && ReadAnswer(after, base, filename, JNull) ==
              SuccessResult(JStr(Universal(Written(nodes, Flattened(base, filename), NormalizedMode(mode), content))), "success")
  {
    WriteSucceeds(nodes, base, filename, JStr(content), mode);
    WriteRefusesUnsafe(nodes, base, filename, JStr(content), mode);
    OpenAndWriteSpec(nodes, Flattened(base, filename), filename, JStr(content), NormalizedMode(mode));
    SafeFilePathSpec(base, filename);
  }

  /** The write_file tool, with the sandbox directory it was set up for. */
  class WriteFileTool {
    const base: Path
    const disk: Disk

    ghost predicate Valid()
      reads this, disk
    {
      Clean(base) && disk.Valid()
    }

    /** Sets up the sandbox directory below `cwd`. */
    constructor(cwd: Path, disk: Disk)
      requires Clean(cwd) && disk.Valid()
      modifies disk
      ensures Valid() && this.disk == disk && base == BaseFilePath(cwd)
      ensures disk.nodes == Prepared(old(disk.nodes), BaseFilePath(cwd))
    {
      base := BaseFilePath(cwd);
      this.disk := disk;
      new;
      PreparedSpec(disk.nodes, base);
      if base !in disk.nodes {
        match MakeDirs(disk.nodes, base)
        case Ok(made) =>
          disk.nodes := made;
        case Raised(_) =>
      }
    }

    /** Checks the content, the name and the mode, then writes. */
    method Execute(filename: string, content: Json, mode: Json) returns (r: Result<Json>)
      requires Valid()
      modifies disk
      ensures Valid()
      ensures Outcome(r, disk.nodes) == WriteOutcome(old(disk.nodes), base, filename, content, mode)
    {
      ghost var before := disk.nodes;
      if !Sized(content) {
        r := Raised(Exc("TypeError", "object of type '" + TypeName(content) + "' has no len()"));
        return;
      }
      var safe := SafeFilePath(base, filename);
      WriteRefusesUnsafe(before, base, filename, content, mode);
      SafeFilePathSpec(base, filename);
      if safe.None? {
        r := Ok(ErrorResult(UnsafeWrite(filename)));
        return;
      }
      if Truthy(mode) && !mode.JStr? {
        r := Raised(Exc("AttributeError", "'" + TypeName(mode) + "' object has no attribute 'lower'"));
        return;
      }
      var m := if Truthy(mode) then Lower(mode.s) else "overwrite";
      if m != "overwrite" && m != "append" {
        r := Ok(ErrorResult(InvalidMode(Str(mode))));
        return;
      }
      assert m == NormalizedMode(mode);
      r := WriteAt(safe.value, filename, content, m);
    }

    /** Opens the file at `p` (truncating it for overwrite, creating it
        when missing) and then adds the content to it. */
    method WriteAt(p: Path, filename: string, content: Json, m: string) returns (r: Result<Json>)
      requires Valid()
      modifies disk
      ensures Valid()
      ensures Outcome(r, disk.nodes) == OpenAndWrite(old(disk.nodes), p, filename, content, m)
    {
      ghost var before := disk.nodes;
      var failure := OpenForWrite(disk.nodes, p);
      if failure.Some? {
        r := Ok(ErrorResult(CouldNotWrite(filename, failure.value)));
      } else {
        var kept := if m == "append" && IsFile(disk.nodes, p) then disk.nodes[p].content else "";
        disk.nodes := disk.nodes[p := File(kept)];
        if !content.JStr? {
          assert kept == Written(before, p, m, "");
          r := Ok(ErrorResult(UnexpectedWrite(filename)));
        } else {
          disk.nodes := disk.nodes[p := File(disk.nodes[p].content + content.s)];
          assert disk.nodes == before[p := File(Written(before, p, m, content.s))];
          r := Ok(SuccessResult(JStr(Wrote(|content.s|, filename, m)), "success"));
        }
      }
      assert Outcome(r, disk.nodes) == OpenAndWrite(before, p, filename, content, m);
      OpenAndWriteKeepsTree(before, p, filename, content, m);
    }
  }
}
