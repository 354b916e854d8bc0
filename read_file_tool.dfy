/** The read_file tool: a file of the sandbox directory `var/agent_files`
    below the working directory, named by its basename only, read whole or
    up to a number of characters. The sandbox rules and the directory set-up
    are shared with the write_file tool. */
module ReadFileTool {
  import opened Common
  import opened Json
  import opened FileSystem

  /** `abspath(join(getcwd(), "var", "agent_files"))` */
  function BaseFilePath(cwd: Path): (r: Path)
    requires Clean(cwd)
    ensures Clean(r) && cwd < r
  {
    cwd + ["var", "agent_files"]
  }

  /** The names the sandbox refuses outright: empty, containing "..", or
      absolute. */
  predicate Unsafe(filename: string) {
    filename == "" || Contains(filename, "..") || filename[0] == '/'
  }

  /** The path a name is mapped to: the basename, normalised below `base`,
      and kept only when its string still starts with the base's string. */
  function SafeFilePath(base: Path, filename: string): (r: Option<Path>)
    requires Clean(base)
  {
    if Unsafe(filename) then None
    else
      var full := Normalize(base, [Basename(filename)]);
      if Render(base) <= Render(full) then Some(full) else None
  }

  /** Where a safe name lands: directly in `base`, or `base` itself when the
      name ends in "/" or is ".". */
  function Flattened(base: Path, filename: string): Path {
    var b := Basename(filename);
    if b == "" || b == "." then base else base + [b]
  }

  /** A name is refused exactly when it is unsafe; otherwise any directories
      in it are dropped and the file is taken directly from `base`, so the
      final prefix check never refuses. */
  lemma SafeFilePathSpec(base: Path, filename: string)
    requires Clean(base)
    ensures SafeFilePath(base, filename).None? <==> Unsafe(filename)
    ensures !Unsafe(filename) ==> SafeFilePath(base, filename) == Some(Flattened(base, filename))
    ensures !Unsafe(filename) ==> base <= Flattened(base, filename) && |Flattened(base, filename)| <= |base| + 1
  {
    if !Unsafe(filename) {
      var b := Basename(filename);
      var k := BasenameSuffix(filename);
      if b == ".." {
        assert OccursAt(filename, "..", k);
        ContainsAt(filename, "..", k);
      }
      if b == "" || b == "." {
        assert Normalize(base, [b]) == Normalize(base, []);
      } else {
        NormalizePlain(base, [b]);
        RenderChild(base, b);
      }
    }
  }

  /** The sandbox directory as the constructors leave it: `makedirs` when it
      does not exist, a failure being logged and ignored. */
  function Prepared(nodes: Nodes, base: Path): Nodes
    requires Tree(nodes)
  {
    if base in nodes then nodes
    else match MakeDirs(nodes, base)
      case Ok(made) => made
      case Raised(_) => nodes
  }

  /** Preparing keeps a tree and every existing entry; afterwards `base` is
      a directory exactly when it already was one or was missing with no
      file on the way to it. */
  lemma PreparedSpec(nodes: Nodes, base: Path)
    requires Tree(nodes)
    ensures var r := Prepared(nodes, base);
            Tree(r) && (forall q :: q in nodes ==> q in r && r[q] == nodes[q]) &&
            (IsDir(r, base) <==> IsDir(nodes, base) || (base !in nodes && forall k :: 0 <= k < |base| ==> !IsFile(nodes, base[..k])))
  {
    if base !in nodes {
      MakeDirsSucceeds(nodes, base);
      assert base[..|base|] == base;
      if MakeDirs(nodes, base).Ok? {
        MakeDirsResult(nodes, base);
      }
    }
  }

  // ------------------------------------------------------------ reading

  /** An open text file: its characters and the read position. */
  datatype Handle = Handle(text: string, pos: nat)

  /** `f.read(n)` (or `f.read()` when `n` is None): the characters from the
      position on, at most `n` of them, and the position after them. */
  function Read(h: Handle, n: Option<nat>): (r: (string, Handle))
    requires h.pos <= |h.text|
    ensures r.1.text == h.text && h.pos <= r.1.pos <= |h.text| && r.0 == h.text[h.pos..r.1.pos]
    ensures n.None? ==> r.1.pos == |h.text|
    ensures n.Some? ==> |r.0| <= n.value && (|r.0| < n.value ==> r.1.pos == |h.text|)
  {
    var end := if n.None? || h.pos + n.value > |h.text| then |h.text| else h.pos + n.value;
    (h.text[h.pos..end], Handle(h.text, end))
  }

  /** After a full read of `n` characters, the one-character peek finds
      more exactly when the file is longer than `n`. */
  lemma PeekDetectsTruncation(text: string, n: nat)
    requires n > 0
    ensures var (content, h) := Read(Handle(text, 0), Some(n));
            |content| == n ==> (Read(h, Some(1)).0 != "" <==> |text| > n)
  {
  }

  /** The first `n` characters of `text` when `n` is positive, else all of it. */
  function Bounded(text: string, n: int): string {
    if 0 < n < |text| then text[..n] else text
  }

  function UnsafeName(filename: string): string {
    "Invalid or unsafe filename: '" + filename + "'. Reading is restricted to files within the designated agent directory."
  }

  function NotFound(filename: string): string {
    "File '" + filename + "' not found in the agent directory."
  }

  function NotAFile(filename: string): string {
    "'" + filename + "' is not a file."
  }

  function Unexpected(filename: string): string {
    "An unexpected error occurred while reading '" + filename + "'."
  }

  /** read_file's answer: the refusals in order, then the file's text as
      text mode reads it (universal newlines), cut
      to `max_bytes` characters when that is a positive integer. A
      `max_bytes` that is neither None nor an integer fails the comparison
      with 0. */
  function ReadAnswer(nodes: Nodes, base: Path, filename: string, maxBytes: Json): (r: Json)
    requires Clean(base)
    ensures r.JObj? && "status" in r.fields
  {
    match SafeFilePath(base, filename)
    case None => ErrorResult(UnsafeName(filename))
    case Some(p) =>
      if p !in nodes then ErrorResult(NotFound(filename))
      else if nodes[p].Dir? then ErrorResult(NotAFile(filename))
      else if maxBytes.JNull? then SuccessResult(JStr(Universal(nodes[p].content)), "success")
      else if !IsInt(maxBytes) then ErrorResult(Unexpected(filename))
      else SuccessResult(JStr(Bounded(Universal(nodes[p].content), IntValue(maxBytes))), "success")
  }

  /** The unsafe-name error is given exactly for unsafe names. */
  lemma ReadRefusesUnsafe(nodes: Nodes, base: Path, filename: string, maxBytes: Json)
    requires Clean(base)
    ensures ReadAnswer(nodes, base, filename, maxBytes) == ErrorResult(UnsafeName(filename)) <==> Unsafe(filename)
  {
    SafeFilePathSpec(base, filename);
    var r := ReadAnswer(nodes, base, filename, maxBytes);
    if !Unsafe(filename) {
      var p := Flattened(base, filename);
      var n := |UnsafeName(filename)|;
      assert |NotFound(filename)| != n && |NotAFile(filename)| != n && |Unexpected(filename)| != n;
    }
  }

  /** A read succeeds exactly when the flattened name is a file and
      `max_bytes` is None or an integer; the text returned is then a prefix
      of the file, of exactly `max_bytes` characters when the file is longer
      than a positive `max_bytes`, and the whole file otherwise. */
  lemma ReadSpec(nodes: Nodes, base: Path, filename: string, maxBytes: Json)
    requires Clean(base)
    ensures var r := ReadAnswer(nodes, base, filename, maxBytes);
            r.fields["status"] == JStr("success") <==>
              !Unsafe(filename) && IsFile(nodes, Flattened(base, filename)) && (maxBytes.JNull? || IsInt(maxBytes))
    ensures var r := ReadAnswer(nodes, base, filename, maxBytes);
            r.fields["status"] == JStr("success") ==>
              var text := Universal(nodes[Flattened(base, filename)].content);
              "result" in r.fields && r.fields["result"].JStr? && r.fields["result"].s <= text &&
              (if IsInt(maxBytes) && 0 < IntValue(maxBytes) < |text| then |r.fields["result"].s| == IntValue(maxBytes)
               else r.fields["result"].s == text)
  {
    SafeFilePathSpec(base, filename);
  }

  /** The `max_bytes` a call leaves out. */
  const DefaultMaxBytes := 4096

  /** Leaving `max_bytes` out reads at most the first 4096 characters of a
      readable file, while passing None reads all of it. */
  lemma OmittedLimit(nodes: Nodes, base: Path, filename: string)
    requires Clean(base)
    requires !Unsafe(filename) && IsFile(nodes, Flattened(base, filename))
    ensures var text := Universal(nodes[Flattened(base, filename)].content);
            ReadAnswer(nodes, base, filename, ArgOr(Omitted, JInt(DefaultMaxBytes))) ==
              SuccessResult(JStr(if |text| > 4096 then text[..4096] else text), "success")
    ensures var text := Universal(nodes[Flattened(base, filename)].content);
            ReadAnswer(nodes, base, filename, ArgOr(Given(JNull), JInt(DefaultMaxBytes))) ==
              SuccessResult(JStr(text), "success")
  {
    SafeFilePathSpec(base, filename);
  }

  /** The read_file tool, with the sandbox directory it was set up for. */
  class ReadFileTool {
    const base: Path
    const disk: Disk

    ghost predicate Valid()
      reads this, disk
    {
      Clean(base) && disk.Valid()
    }

    /** Sets up the sandbox directory below `cwd`. */
    constructor(cwd: Path, disk: Disk)
      requires Clean(cwd) && disk.Valid()
      modifies disk
      ensures Valid() && this.disk == disk && base == BaseFilePath(cwd)
      ensures disk.nodes == Prepared(old(disk.nodes), BaseFilePath(cwd))
    {
      base := BaseFilePath(cwd);
      this.disk := disk;
      new;
      PreparedSpec(disk.nodes, base);
      if base !in disk.nodes {
        match MakeDirs(disk.nodes, base)
        case Ok(made) =>
          disk.nodes := made;
        case Raised(_) =>
      }
    }

    /** Reads `filename`, with `max_bytes` 4096 when the call leaves it
        out: a bounded read is followed by a one-character peek when it
        filled `max_bytes`, which only serves the log. */
    method Execute(filename: string, maxBytesArg: Arg<Json>) returns (r: Json)
      requires Valid()
      ensures r == ReadAnswer(disk.nodes, base, filename, ArgOr(maxBytesArg, JInt(DefaultMaxBytes)))
    {
      var maxBytes := ArgOr(maxBytesArg, JInt(DefaultMaxBytes));
      var safe := SafeFilePath(base, filename);
      if safe.None? {
        return ErrorResult(UnsafeName(filename));
      }
      var p := safe.value;
      if p !in disk.nodes {
        return ErrorResult(NotFound(filename));
      }
      if !disk.nodes[p].File? {
        return ErrorResult(NotAFile(filename));
      }
      var h := Handle(Universal(disk.nodes[p].content), 0);
      var content: string;
      if maxBytes.JNull? {
        var (all, _) := Read(h, None);
        content := all;
        assert content == h.text[0..|h.text|] == h.text;
      } else if !IsInt(maxBytes) {
        return ErrorResult(Unexpected(filename));
      } else if IntValue(maxBytes) > 0 {
        var n := IntValue(maxBytes);
        var (chunk, rest) := Read(h, Some(n));
        content := chunk;
        assert content == Bounded(h.text, n);
        if |content| == n {
          var (more, _) := Read(rest, Some(1));
        }
      } else {
        var (all, _) := Read(h, None);
        content := all;
        assert content == h.text[0..|h.text|] == h.text;
      }
      r := SuccessResult(JStr(content), "success");
    }
  }
}
