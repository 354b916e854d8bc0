/** The file-operations plugin: reads, writes, deletes, lists and moves
    paths below a base directory, refusing any path that normalises to a
    place outside it. Every answer is a message string (a list of entries
    for a listing); errors never escape. */
module FileOps {
  import opened Common
  import opened Json
  import opened FileSystem

  // ------------------------------------------------------------ _resolve_path

  function JoinTypeError(path: Json): Exc {
    Exc("TypeError", "join() argument must be str, bytes, or os.PathLike object, not '" + TypeName(path) + "'")
  }

  function OutsideError(path: string, base: Path): Exc {
    Exc("ValueError", "Path '" + path + "' is outside the allowed base directory '" + Render(base) + "'.")
  }

  /** The absolute path `path` names below `base`; an absolute `path`
      replaces `base`, and a result outside `base` raises. */
  function Resolve(base: Path, path: Json): (r: Result<Path>)
    requires Clean(base)
    ensures r.Ok? ==> Clean(r.value)
  {
    if !path.JStr? then Raised(JoinTypeError(path))
    else
      var p := AbsJoin(base, path.s);
      if base <= p then Ok(p) else Raised(OutsideError(path.s, base))
  }

  /** Every resolved path lies in the base directory, and a string path
      resolves exactly when its normal form does. */
  lemma ResolveWithin(base: Path, s: string)
    requires Clean(base)
    ensures Resolve(base, JStr(s)).Ok? <==> base <= AbsJoin(base, s)
    ensures Resolve(base, JStr(s)).Ok? ==> base <= Resolve(base, JStr(s)).value
    ensures Resolve(base, JStr(s)).Raised? ==> Resolve(base, JStr(s)).exc == OutsideError(s, base)
  {
  }

  /** A relative path of plain components names the path below the base,
      and an absolute one does not depend on the base. */
  lemma {:induction false} ResolveRelative(base: Path, parts: seq<string>)
    requires Clean(base) && |parts| > 0
    requires forall i :: 0 <= i < |parts| ==> Plain(parts[i])
    ensures Resolve(base, JStr(Join("/", parts))) == Ok(base + parts)
  {
    SplitJoin(parts);
    NormalizePlain(base, parts);
    var s := Join("/", parts);
    assert parts[0] != [] && s[0] == parts[0][0] by { JoinHead(parts); }
  }

  lemma {:induction false} JoinHead(parts: seq<string>)
    requires |parts| > 0 && parts[0] != ""
    ensures Join("/", parts) != [] && Join("/", parts)[0] == parts[0][0]
  {
  }

  /** Splitting a join of slash-free components gives them back. */
  lemma {:induction false} SplitJoin(parts: seq<string>)
    requires |parts| > 0 && forall i :: 0 <= i < |parts| ==> '/' !in parts[i]
    ensures SplitSlash(Join("/", parts)) == parts
    decreases |parts|
  {
    var s := Join("/", parts);
    if |parts| == 1 {
      BeforeSlash(parts[0], "");
      assert s == parts[0] + "";
    } else {
      var rest := Join("/", parts[1..]);
      assert s == parts[0] + ("/" + rest);
      BeforeSlash(parts[0], "/" + rest);
      assert s[|parts[0]| + 1..] == rest;
      SplitJoin(parts[1..]);
      assert SplitSlash(s) == [parts[0]] + SplitSlash(rest);
    }
  }

  lemma {:induction false} BeforeSlash(a: string, b: string)
    requires '/' !in a && (b == "" || b[0] == '/')
    ensures BeforeChar(a + b, '/') == a
    decreases |a|
  {
    if a != [] {
      assert (a + b)[1..] == a[1..] + b;
      BeforeSlash(a[1..], b);
    } else {
      assert a + b == b;
    }
  }

  lemma ResolveAbsolute(base1: Path, base2: Path, s: string)
    requires Clean(base1) && Clean(base2) && |s| > 0 && s[0] == '/'
    ensures AbsJoin(base1, s) == AbsJoin(base2, s)
  {
  }

  /** Two levels up and back down cannot stay inside a non-root base that
      is not itself named like the target. */
  lemma TraversalRejected(base: Path, name: string)
    requires Clean(base) && base != [] && Plain(name) && base[|base| - 1] != name
    ensures Resolve(base, JStr("../../" + name)).Raised?
    ensures Resolve(base, JStr("../../" + name)).exc.kind == "ValueError"
  {
    var up := Dirname(Dirname(base));
    UpUpNormal(base, name);
    assert |up| + 1 < |base| || (up + [name])[|base| - 1] != base[|base| - 1];
  }

  lemma UpUpNormal(base: Path, name: string)
    requires Clean(base) && Plain(name)
    ensures AbsJoin(base, "../../" + name) == Dirname(Dirname(base)) + [name]
  {
    var s := "../../" + name;
    UpUpSplit(name);
    var up := Dirname(Dirname(base));
    calc {
      AbsJoin(base, s);
      Normalize(base, ["..", "..", name]);
      { assert ["..", "..", name][1..] == ["..", name]; }
      Normalize(Dirname(base), ["..", name]);
      { assert ["..", name][1..] == [name]; }
      Normalize(up, [name]);
      { assert [name][1..] == []; }
      Normalize(up + [name], []);
    }
  }

  lemma UpUpSplit(name: string)
    requires Plain(name)
    ensures SplitSlash("../../" + name) == ["..", "..", name]
  {
    var s := "../../" + name;
    var t := "../" + name;
    assert s == ".." + ("/" + t) && s[3..] == t;
    BeforeSlash("..", "/" + t);
    assert t == ".." + ("/" + name) && t[3..] == name;
    BeforeSlash("..", "/" + name);
    BeforeSlash(name, "");
    assert name + "" == name;
    assert SplitSlash(name) == [name];
    assert SplitSlash(t) == [".."] + [name];
  }

  // ------------------------------------------------------------ outcomes

  /** An answer and the filesystem it leaves. */
  datatype Effect = Effect(message: string, nodes: Nodes)

  /** The message of an exception caught around an operation: a
      ValueError from path resolution is shown alone, anything else after
      the operation's own context. */
  function Caught(e: Exc, context: string): string {
    if e.kind == "ValueError" then "Error: " + e.msg else context + ": " + e.msg
  }

  /** read_file: the file's content as text mode reads it, or the message
      for the reason it cannot be read. */
  function ReadAnswer(nodes: Nodes, base: Path, path: Json): (r: string)
    requires Clean(base)
  {
    match Resolve(base, path)
    case Raised(e) => Caught(e, "Error reading file '" + Str(path) + "'")
    case Ok(p) =>
      if IsFile(nodes, p) then Universal(nodes[p].content)
      else if IsDir(nodes, p) then "Error reading file '" + path.s + "': " + IsADirectory(p).msg
      else if Blocked(nodes, p) then "Error reading file '" + path.s + "': " + NotADirectory(p).msg
      else "Error: File not found at '" + path.s + "'."
  }

  function AlreadyExists(path: string): string {
    "Error: File '" + path + "' already exists. Set overwrite=True to replace."
  }

  function Written(path: string): string {
    "File '" + path + "' written successfully."
  }

  /** write_file: refuses an existing path unless `overwrite` is truthy,
      creates the parent directories, truncates the file and writes the
      content (a non-string content leaves it empty). */
  function WriteEffect(nodes: Nodes, base: Path, path: Json, content: Json, overwrite: Json): (r: Effect)
    requires Clean(base) && Tree(nodes)
  {
    match Resolve(base, path)
    case Raised(e) => Effect(Caught(e, "Error writing file '" + Str(path) + "'"), nodes)
    case Ok(p) =>
      var context := "Error writing file '" + path.s + "'";
      if p in nodes && !Truthy(overwrite) then Effect(AlreadyExists(path.s), nodes)
      else match MakeDirs(nodes, Dirname(p))
        case Raised(e) => Effect(Caught(e, context), nodes)
        case Ok(made) =>
          if IsDir(made, p) then Effect(Caught(IsADirectory(p), context), made)
          else if !content.JStr? then
            Effect(context + ": write() argument must be str, not " + WriteArgType(content), made[p := File("")])
          else Effect(Written(path.s), made[p := File(content.s)])
  }

  /** A successful write leaves the file holding the content, its parent
      directories in place, and every other existing entry unchanged. */
  lemma WriteSucceeds(nodes: Nodes, base: Path, s: string, content: string, overwrite: Json)
    requires Clean(base) && Tree(nodes)
    requires WriteEffect(nodes, base, JStr(s), JStr(content), overwrite).message == Written(s)
    ensures var p := Resolve(base, JStr(s));
            var after := WriteEffect(nodes, base, JStr(s), JStr(content), overwrite).nodes;
            p.Ok? && base <= p.value && (p.value !in nodes || Truthy(overwrite)) &&
            after[p.value] == File(content) && IsDir(after, Dirname(p.value)) &&
            (forall q :: q in nodes && q != p.value ==> q in after && after[q] == nodes[q])
  {
    var p := Resolve(base, JStr(s)).value;
    MakeDirsResult(nodes, Dirname(p));
  }

  /** An existing path is never replaced without `overwrite`. */
  lemma WriteRefusesExisting(nodes: Nodes, base: Path, s: string, content: Json, overwrite: Json)
    requires Clean(base) && Tree(nodes) && !Truthy(overwrite)
    requires Resolve(base, JStr(s)).Ok? && Resolve(base, JStr(s)).value in nodes
    ensures WriteEffect(nodes, base, JStr(s), content, overwrite) == Effect(AlreadyExists(s), nodes)
  {
  }

  /** Every write leaves a tree. */
  lemma WriteKeepsTree(nodes: Nodes, base: Path, path: Json, content: Json, overwrite: Json)
    requires Clean(base) && Tree(nodes)
    ensures Tree(WriteEffect(nodes, base, path, content, overwrite).nodes)
  {
    var r := Resolve(base, path);
    var after := WriteEffect(nodes, base, path, content, overwrite).nodes;
    if r.Raised? || (r.value in nodes && !Truthy(overwrite)) {
      assert after == nodes;
    } else {
      var p := r.value;
      if MakeDirs(nodes, Dirname(p)).Raised? {
        assert after == nodes;
      } else {
        MakeDirsResult(nodes, Dirname(p));
        var made := MakeDirs(nodes, Dirname(p)).value;
        if IsDir(made, p) {
          assert after == made;
        } else {
          assert IsDir(made, []);
          var c := if content.JStr? then content.s else "";
          assert after == made[p := File(c)];
          FileInDir(made, p, c);
        }
      }
    }
  }

  /** A null content reaches `f.write` and is refused as "not None", leaving
      the new file empty. */
  lemma WriteNullContent(nodes: Nodes, base: Path, s: string, overwrite: Json)
    requires Clean(base) && Tree(nodes)
    requires Resolve(base, JStr(s)).Ok? && Resolve(base, JStr(s)).value !in nodes
    requires MakeDirs(nodes, Dirname(Resolve(base, JStr(s)).value)).Ok?
    ensures var e := WriteEffect(nodes, base, JStr(s), JNull, overwrite);
            e.message == "Error writing file '" + s + "'" + ": write() argument must be str, not None" &&
            e.nodes[Resolve(base, JStr(s)).value] == File("")
  {
    var p := Resolve(base, JStr(s)).value;
    var made := MakeDirs(nodes, Dirname(p)).value;
    MakeDirsResult(nodes, Dirname(p));
    assert p != [] && |Dirname(p)| < |p|;
    assert !IsDir(made, p);
    assert ": write() argument must be str, not " + "None" == ": write() argument must be str, not None";
  }

  /** Writing and then reading the same path gives back the content, with
      its line breaks read as "\n". */
  lemma WriteThenRead(nodes: Nodes, base: Path, s: string, content: string, overwrite: Json)
    requires Clean(base) && Tree(nodes)
    requires WriteEffect(nodes, base, JStr(s), JStr(content), overwrite).message == Written(s)
    ensures ReadAnswer(WriteEffect(nodes, base, JStr(s), JStr(content), overwrite).nodes, base, JStr(s)) == Universal(content)
  {
    WriteSucceeds(nodes, base, s, content, overwrite);
  }

  function Deleted(path: string): string {
    "File '" + path + "' deleted successfully."
  }

  function NotAFile(path: string): string {
    "Error: Not a file or file not found at '" + path + "'."
  }

  /** delete_file: removes a regular file; anything else is refused. */
  function DeleteEffect(nodes: Nodes, base: Path, path: Json): (r: Effect)
    requires Clean(base)
  {
    match Resolve(base, path)
    case Raised(e) => Effect(Caught(e, "Error deleting file '" + Str(path) + "'"), nodes)
    case Ok(p) =>
      if !IsFile(nodes, p) then Effect(NotAFile(path.s), nodes)
      else Effect(Deleted(path.s), nodes - {p})
  }

  /** Deleting succeeds exactly on a regular file, removes only it, and
      keeps a tree. */
  lemma DeleteSpec(nodes: Nodes, base: Path, s: string)
    requires Clean(base) && Tree(nodes)
    ensures var p := Resolve(base, JStr(s));
            var r := DeleteEffect(nodes, base, JStr(s));
            (r.message == Deleted(s) <==> p.Ok? && IsFile(nodes, p.value)) &&
            (r.message == Deleted(s) ==> r.nodes == nodes - {p.value}) &&
            (r.message != Deleted(s) ==> r.nodes == nodes) &&
            Tree(r.nodes)
  {
    var p := Resolve(base, JStr(s));
    if p.Ok? && IsFile(nodes, p.value) {
      RemoveFile(nodes, p.value);
    }
    assert Deleted(s)[0] == 'F';
    if p.Raised? {
      assert Caught(p.exc, "Error deleting file '" + s + "'")[0] == 'E';
    } else if !IsFile(nodes, p.value) {
      assert NotAFile(s)[0] == 'E';
    }
  }

  /** Removing a file keeps a tree: nothing lies below a file. */
  lemma RemoveFile(nodes: Nodes, p: Path)
    requires Tree(nodes) && IsFile(nodes, p)
    ensures Tree(nodes - {p})
  {
    assert p != [];
    var after := nodes - {p};
    forall q | q in after && q != [] ensures IsDir(after, Dirname(q)) {
      var up := Dirname(q);
      assert IsDir(nodes, up);
    }
  }

  /** Deleting a file and then reading it reports it missing. */
  lemma DeleteThenRead(nodes: Nodes, base: Path, s: string)
    requires Clean(base) && Tree(nodes)
    requires DeleteEffect(nodes, base, JStr(s)).message == Deleted(s)
    ensures ReadAnswer(DeleteEffect(nodes, base, JStr(s)).nodes, base, JStr(s)) == "Error: File not found at '" + s + "'."
  {
    DeleteSpec(nodes, base, s);
    var p := Resolve(base, JStr(s)).value;
    var after := nodes - {p};
    forall k | 0 <= k < |p| ensures !IsFile(after, p[..k]) {
      AncestorsAreDirs(nodes, p, k);
    }
  }

  // ------------------------------------------------------------ move_file

  /** The entries outside the subtree rooted at `s`. */
  function Outside(n: Nodes, s: Path): set<Path> {
    set q | q in n && !(s <= q)
  }

  /** Where the entries of the subtree at `s` land when it becomes `r`. */
  function Relocated(n: Nodes, s: Path, r: Path): set<Path> {
    set q | q in n && s <= q :: r + q[|s|..]
  }

  /** What lies at `q` after the subtree at `s` moved to `r`. */
  function MovedNode(n: Nodes, s: Path, r: Path, q: Path): Node {
    if r <= q && s + q[|r|..] in n then n[s + q[|r|..]]
    else if q in n then n[q]
    else Dir
  }

  /** `os.rename(s, r)`: the subtree at `s` now lies at `r`, replacing a
      file there. */
  function Relocate(n: Nodes, s: Path, r: Path): Nodes {
    map q | q in Outside(n, s) + Relocated(n, s, r) :: MovedNode(n, s, r, q)
  }

  function ShutilError(msg: string): Exc {
    Exc("Error", msg)
  }

  /** The rename of `s` to `r` at the heart of shutil.move, called with
      destination `dst`, with the failures its fallback path reports. The
      "into itself" error names `dst`, as shutil.move formats it; `r` lies
      below `s` exactly when `dst` does, since `r` is `dst` or, when `dst`
      is a directory, an absent entry of it. */
  function Rename(n: Nodes, s: Path, r: Path, dst: Path): Result<Nodes> {
    if s == r then Ok(n)
    else if IsDir(n, s) && s <= r then
      Raised(ShutilError("Cannot move a directory '" + Render(s) + "' into itself '" + Render(dst) + "'."))
    else if IsDir(n, s) && IsFile(n, r) then Raised(FileExists(r))
    else Ok(Relocate(n, s, r))
  }

  /** shutil.move: into an existing directory the entry keeps its name and
      must not be there already; otherwise it is renamed to `d`. */
  function ShutilMove(n: Nodes, s: Path, d: Path): Result<Nodes> {
    if IsDir(n, d) then
      if s == d then Ok(n)
      else if s == [] then Raised(ShutilError("Destination path '" + Render(d) + "/' already exists"))
      else
        var r := d + [s[|s| - 1]];
        if r in n then Raised(ShutilError("Destination path '" + Render(r) + "' already exists"))
        else Rename(n, s, r, d)
    else Rename(n, s, d, d)
  }

  /** Moving a directory into a directory below it is refused, and the
      message names the destination as given. */
  lemma MoveIntoItselfNamesDestination(n: Nodes, s: Path, d: Path)
    requires s != [] && IsDir(n, s) && IsDir(n, d) && s < d && d + [s[|s| - 1]] !in n
    ensures ShutilMove(n, s, d) ==
              Raised(ShutilError("Cannot move a directory '" + Render(s) + "' into itself '" + Render(d) + "'."))
  {
    var r := d + [s[|s| - 1]];
    assert s <= r by {
      forall i | 0 <= i < |s|
        ensures s[i] == r[i]
      {
        assert s[i] == d[i];
      }
    }
  }

  /** How a text file's `write` names the type of a non-string argument:
      the type's name, except "None" for None. */
  function WriteArgType(content: Json): (r: string)
    ensures content.JNull? ==> r == "None"
    ensures !content.JNull? ==> r == TypeName(content)
  {
    if content.JNull? then "None" else TypeName(content)
  }

  function SourceMissing(path: string): string {
    "Error: Source '" + path + "' not found."
  }

  function Moved(source: string, destination: string): string {
    "Moved '" + source + "' to '" + destination + "' successfully."
  }

  /** move_file: both paths must resolve and the source must exist; the
      destination's parent directories are created before the move. */
  function MoveEffect(nodes: Nodes, base: Path, source: Json, destination: Json): (r: Effect)
    requires Clean(base) && Tree(nodes)
  {
    var context := "Error moving '" + Str(source) + "' to '" + Str(destination) + "'";
    match Resolve(base, source)
    case Raised(e) => Effect(Caught(e, context), nodes)
    case Ok(s) =>
      match Resolve(base, destination)
      case Raised(e) => Effect(Caught(e, context), nodes)
      case Ok(d) =>
        if s !in nodes then Effect(SourceMissing(source.s), nodes)
        else match MakeDirs(nodes, Dirname(d))
          case Raised(e) => Effect(Caught(e, context), nodes)
          case Ok(made) =>
            match ShutilMove(made, s, d)
            case Raised(e) => Effect(Caught(e, context), made)
            case Ok(moved) => Effect(Moved(source.s, destination.s), moved)
  }

  /** A missing source is reported and nothing changes. */
  lemma MoveNeedsSource(nodes: Nodes, base: Path, source: string, destination: string)
    requires Clean(base) && Tree(nodes)
    requires Resolve(base, JStr(source)).Ok? && Resolve(base, JStr(destination)).Ok?
    requires Resolve(base, JStr(source)).value !in nodes
    ensures MoveEffect(nodes, base, JStr(source), JStr(destination)) == Effect(SourceMissing(source), nodes)
  {
  }

  /** The conditions under which a rename leaves a tree. */
  ghost predicate CanRelocate(n: Nodes, s: Path, r: Path) {
    Tree(n) && s in n && s != [] && s != r && !(s <= r) &&
    IsDir(n, Dirname(r)) && (r !in n || (IsFile(n, s) && IsFile(n, r)))
  }

  lemma RelocatedAt(n: Nodes, s: Path, r: Path, q: Path)
    requires q in Relocated(n, s, r)
    ensures r <= q && s + q[|r|..] in n
  {
    var q' :| q' in n && s <= q' && q == r + q'[|s|..];
    assert q[|r|..] == q'[|s|..];
    assert s + q'[|s|..] == q';
  }

  /** Nothing below `r` exists before the rename, except `r` itself. */
  lemma NothingAtTarget(n: Nodes, s: Path, r: Path, u: Path)
    requires CanRelocate(n, s, r) && u in n && r <= u
    ensures u == r && IsFile(n, r)
  {
    if r != u {
      assert u[..|r|] == r;
      AncestorsAreDirs(n, u, |r|);
    }
  }

  /** An entry of the moved subtree lands below `r` unchanged. */
  lemma MovedTo(n: Nodes, s: Path, r: Path, x: Path)
    requires x in n && s <= x
    ensures r + x[|s|..] in Relocate(n, s, r)
    ensures Relocate(n, s, r)[r + x[|s|..]] == n[x]
  {
    var q := r + x[|s|..];
    assert q in Relocated(n, s, r);
    assert q[|r|..] == x[|s|..];
    assert s + x[|s|..] == x;
  }

  /** An entry outside both subtrees stays as it was. */
  lemma Stays(n: Nodes, s: Path, r: Path, x: Path)
    requires x in n && !(s <= x) && !(r <= x)
    ensures x in Relocate(n, s, r) && Relocate(n, s, r)[x] == n[x]
  {
    assert x in Outside(n, s);
  }

  /** The moved entry itself lies in the target's parent, which stays. */
  lemma TargetParent(n: Nodes, s: Path, r: Path)
    requires CanRelocate(n, s, r)
    ensures IsDir(Relocate(n, s, r), Dirname(r))
  {
    Stays(n, s, r, Dirname(r));
  }

  /** An entry that moved below the target has the moved copy of its old
      parent as parent. */
  lemma MovedParent(n: Nodes, s: Path, r: Path, t: Path)
    requires Tree(n) && t != [] && s + t in n
    ensures IsDir(Relocate(n, s, r), Dirname(r + t))
  {
    var up := Dirname(s + t);
    assert IsDir(n, up);
    assert up == s + Dirname(t);
    MovedTo(n, s, r, up);
    assert up[|s|..] == Dirname(t);
    assert Dirname(r + t) == r + Dirname(t);
  }

  /** An entry that stayed has its parent in place, and the parent did not
      move. */
  lemma StayedParent(n: Nodes, s: Path, r: Path, q: Path)
    requires CanRelocate(n, s, r) && q != []
    requires q in n && !(s <= q)
    ensures IsDir(Relocate(n, s, r), Dirname(q))
  {
    var u := Dirname(q);
    assert IsDir(n, u);
    assert !(s <= u);
    if r <= u {
      NothingAtTarget(n, s, r, u);
    }
    Stays(n, s, r, u);
  }

  lemma RelocateParent(n: Nodes, s: Path, r: Path, q: Path)
    requires CanRelocate(n, s, r)
    requires q in Relocate(n, s, r) && q != []
    ensures IsDir(Relocate(n, s, r), Dirname(q))
  {
    if r <= q && s + q[|r|..] in n {
      var t := q[|r|..];
      assert q == r + t;
      if t == [] {
        assert q == r;
        TargetParent(n, s, r);
      } else {
        MovedParent(n, s, r, t);
      }
    } else {
      if q in Relocated(n, s, r) {
        RelocatedAt(n, s, r, q);
      }
      StayedParent(n, s, r, q);
    }
  }

  /** A rename that passes its checks keeps a tree. */
  lemma RelocateTree(n: Nodes, s: Path, r: Path)
    requires CanRelocate(n, s, r)
    ensures Tree(Relocate(n, s, r))
  {
    var m := Relocate(n, s, r);
    assert [] in Outside(n, s);
    assert r != [];
    forall q | q in m && q != [] ensures IsDir(m, Dirname(q)) {
      RelocateParent(n, s, r, q);
    }
  }

  /** A file has nothing below it, so it is never a proper prefix of a
      path whose parent is a directory. */
  lemma FileNotAbove(n: Nodes, s: Path, r: Path)
    requires Tree(n) && IsFile(n, s) && r != [] && IsDir(n, Dirname(r))
    ensures !(s < r)
  {
    if s < r {
      assert s <= Dirname(r);
      if s != Dirname(r) {
        NothingBelow(n, s, Dirname(r));
      }
    }
  }

  /** Every prefix of a directory is a directory. */
  lemma DirPrefix(n: Nodes, x: Path, y: Path)
    requires Tree(n) && IsDir(n, x) && y <= x
    ensures IsDir(n, y)
  {
    if y != x {
      assert x[..|y|] == y;
      AncestorsAreDirs(n, x, |y|);
    }
  }

  /** Every successful shutil.move keeps a tree. */
  lemma ShutilMoveTree(n: Nodes, s: Path, d: Path)
    requires Tree(n) && s in n && IsDir(n, Dirname(d))
    ensures ShutilMove(n, s, d).Ok? ==> Tree(ShutilMove(n, s, d).value)
  {
    if IsDir(n, d) {
      if s != d && s != [] {
        var r := d + [s[|s| - 1]];
        assert Dirname(r) == d;
        if r !in n && s != r && !(IsDir(n, s) && s <= r) {
          if IsFile(n, s) {
            FileNotAbove(n, s, r);
          }
          RelocateTree(n, s, r);
        }
      }
    } else if s != d && !(IsDir(n, s) && (s <= d || IsFile(n, d))) {
      assert IsDir(n, []);
      assert s != [] && d != [];
      if IsFile(n, s) {
        FileNotAbove(n, s, d);
      }
      RelocateTree(n, s, d);
    }
  }

  /** Every move leaves a tree. */
  lemma MoveKeepsTree(nodes: Nodes, base: Path, source: Json, destination: Json)
    requires Clean(base) && Tree(nodes)
    ensures Tree(MoveEffect(nodes, base, source, destination).nodes)
  {
    var rs, rd := Resolve(base, source), Resolve(base, destination);
    var after := MoveEffect(nodes, base, source, destination).nodes;
    if rs.Raised? || rd.Raised? || rs.value !in nodes {
      assert after == nodes;
    } else {
      var s, d := rs.value, rd.value;
      var made := MakeDirs(nodes, Dirname(d));
      if made.Raised? {
        assert after == nodes;
      } else {
        MakeDirsResult(nodes, Dirname(d));
        ShutilMoveTree(made.value, s, d);
        var moved := ShutilMove(made.value, s, d);
        assert after == if moved.Raised? then made.value else moved.value;
      }
    }
  }

  /** Moving a file onto a path that is not a directory puts its content
      there: reading the destination gives it (line breaks read as "\n"),
      and the source is gone. */
  lemma MoveThenRead(nodes: Nodes, base: Path, source: string, destination: string)
    requires Clean(base) && Tree(nodes)
    requires Resolve(base, JStr(source)).Ok? && Resolve(base, JStr(destination)).Ok?
    requires IsFile(nodes, Resolve(base, JStr(source)).value)
    requires !IsDir(nodes, Resolve(base, JStr(destination)).value)
    requires MoveEffect(nodes, base, JStr(source), JStr(destination)).message == Moved(source, destination)
    ensures var after := MoveEffect(nodes, base, JStr(source), JStr(destination)).nodes;
            ReadAnswer(after, base, JStr(destination)) == Universal(nodes[Resolve(base, JStr(source)).value].content) &&
            (Resolve(base, JStr(source)) != Resolve(base, JStr(destination)) ==>
               ReadAnswer(after, base, JStr(source)) == "Error: File not found at '" + source + "'.")
  {
    var s, d := Resolve(base, JStr(source)).value, Resolve(base, JStr(destination)).value;
    MovedEffect(nodes, base, source, destination);
    MakeDirsResult(nodes, Dirname(d));
    var made := MakeDirs(nodes, Dirname(d)).value;
    assert IsDir(nodes, []);
    assert d != [] && !(d <= Dirname(d));
    assert !IsDir(made, d);
    if s != d {
      FileNotAbove(made, s, d);
      RelocatedApart(made, s, d);
    }
  }

  /** A move reported as done went through: the directories above the
      destination were made, and the entry was moved within them. */
  lemma MovedEffect(nodes: Nodes, base: Path, source: string, destination: string)
    requires Clean(base) && Tree(nodes)
    requires Resolve(base, JStr(source)).Ok? && Resolve(base, JStr(destination)).Ok?
    requires MoveEffect(nodes, base, JStr(source), JStr(destination)).message == Moved(source, destination)
    ensures var s, d := Resolve(base, JStr(source)).value, Resolve(base, JStr(destination)).value;
            var made := MakeDirs(nodes, Dirname(d));
            made.Ok? && ShutilMove(made.value, s, d) == Ok(MoveEffect(nodes, base, JStr(source), JStr(destination)).nodes)
  {
    MoveErrorsStartWithE(nodes, base, source, destination);
    assert Moved(source, destination)[0] == 'M';
  }

  /** Every message of a move that did not go through starts with "Error". */
  lemma MoveErrorsStartWithE(nodes: Nodes, base: Path, source: string, destination: string)
    requires Clean(base) && Tree(nodes)
    requires Resolve(base, JStr(source)).Ok? && Resolve(base, JStr(destination)).Ok?
    ensures var s, d := Resolve(base, JStr(source)).value, Resolve(base, JStr(destination)).value;
            var made := MakeDirs(nodes, Dirname(d));
            !(s in nodes && made.Ok? && ShutilMove(made.value, s, d).Ok?) ==>
              var m := MoveEffect(nodes, base, JStr(source), JStr(destination)).message;
              m != "" && m[0] == 'E'
  {
    var s, d := Resolve(base, JStr(source)).value, Resolve(base, JStr(destination)).value;
    var context := "Error moving '" + source + "' to '" + destination + "'";
    assert context[0] == 'E';
    if s in nodes {
      var made := MakeDirs(nodes, Dirname(d));
      if made.Raised? {
        CaughtInitial(made.exc, context);
      } else if ShutilMove(made.value, s, d).Raised? {
        CaughtInitial(ShutilMove(made.value, s, d).exc, context);
      }
    }
  }

  lemma CaughtInitial(e: Exc, context: string)
    requires context != "" && context[0] == 'E'
    ensures Caught(e, context) != "" && Caught(e, context)[0] == 'E'
  {
  }

  /** A file renamed to another free path is found there, and its old path
      is neither an entry nor below a file. */
  lemma RelocatedApart(made: Nodes, s: Path, d: Path)
    requires Tree(made) && IsFile(made, s) && s != d && !(s < d) && !IsDir(made, d)
    ensures var after := Relocate(made, s, d);
            d in after && after[d] == made[s] && s !in after && !Blocked(after, s)
  {
    MovedTo(made, s, d, s);
    assert d + s[|s|..] == d;
    MovedSourceGone(made, s, d);
  }

  /** After a file moved away, its old path is free and every directory
      above it is still there. */
  lemma MovedSourceGone(n: Nodes, s: Path, d: Path)
    requires Tree(n) && IsFile(n, s) && s != d && !(s < d) && !IsDir(n, d)
    ensures s !in Relocate(n, s, d)
    ensures forall k :: 0 <= k < |s| ==> IsDir(Relocate(n, s, d), s[..k])
  {
    var m := Relocate(n, s, d);
    if s in Relocated(n, s, d) {
      var q :| q in n && s <= q && s == d + q[|s|..];
      if q != s {
        NothingBelow(n, s, q);
      }
    }
    forall k | 0 <= k < |s| ensures IsDir(m, s[..k]) {
      AncestorsAreDirs(n, s, k);
      assert !(s <= s[..k]);
      if d <= s[..k] {
        DirPrefix(n, s[..k], d);
      }
    }
  }

  // ------------------------------------------------------------ list_directory

  /** The names directly inside `p`. */
  function Children(nodes: Nodes, p: Path): set<string> {
    set q | q in nodes && |q| == |p| + 1 && q[..|p|] == p :: q[|p|]
  }

  /** `os.path.join(path, name)` for a name without '/'. */
  function JoinName(path: string, name: string): string {
    if path == "" || path[|path| - 1] == '/' then path + name else path + "/" + name
  }

  /** The entry list_directory reports for one name. */
  function ListEntry(nodes: Nodes, p: Path, path: string, name: string): Json {
    JObj(map[
      "name" := JStr(name),
      "type" := JStr(if IsDir(nodes, p + [name]) then "dir" else "file"),
      "path" := JStr(JoinName(path, name))])
  }

  function Entries(nodes: Nodes, p: Path, path: string, order: seq<string>): (r: seq<Json>)
    ensures |r| == |order|
    ensures forall i :: 0 <= i < |order| ==> r[i] == ListEntry(nodes, p, path, order[i])
  {
    seq(|order|, i requires 0 <= i < |order| => ListEntry(nodes, p, path, order[i]))
  }

  lemma EntriesSnoc(nodes: Nodes, p: Path, path: string, order: seq<string>, name: string)
    ensures Entries(nodes, p, path, order + [name]) ==
            Entries(nodes, p, path, order) + [ListEntry(nodes, p, path, name)]
  {
    var a, b := Entries(nodes, p, path, order + [name]), Entries(nodes, p, path, order) + [ListEntry(nodes, p, path, name)];
    assert |a| == |b|;
    forall i | 0 <= i < |a| ensures a[i] == b[i] {
      assert (order + [name])[i] == if i < |order| then order[i] else name;
    }
  }

  /** The one-element error list list_directory answers with, if any. */
  function ListError(nodes: Nodes, base: Path, path: Json): Option<string>
    requires Clean(base)
  {
    match Resolve(base, path)
    case Raised(e) => Some(Caught(e, "Error listing directory '" + Str(path) + "'"))
    case Ok(p) =>
      if IsDir(nodes, p) then None
      else Some("Error: Directory not found or not a directory at '" + path.s + "'.")
  }

  /** `order` names every child of the directory once. */
  predicate Enumerates(order: seq<string>, names: set<string>) {
    Distinct(order) && Elems(order) == names
  }

  /** `items` is a possible answer of list_directory: the error alone, or
      one entry for each child of the directory, in some order. */
  ghost predicate Listing(nodes: Nodes, base: Path, path: Json, items: seq<Json>)
    requires Clean(base)
  {
    match ListError(nodes, base, path)
    case Some(msg) => items == [JStr(msg)]
    case None =>
      var p := Resolve(base, path).value;
      exists order :: Enumerates(order, Children(nodes, p)) && items == Entries(nodes, p, path.s, order)
  }

  /** A listing has exactly one entry per child, with its type. */
  lemma ListingCount(nodes: Nodes, base: Path, path: Json, items: seq<Json>)
    requires Clean(base) && ListError(nodes, base, path).None? && Listing(nodes, base, path, items)
    ensures var p := Resolve(base, path).value;
            |items| == |Children(nodes, p)| &&
            forall name :: name in Children(nodes, p) ==> ListEntry(nodes, p, path.s, name) in items
  {
    var p := Resolve(base, path).value;
    var order :| Enumerates(order, Children(nodes, p)) && items == Entries(nodes, p, path.s, order);
    DistinctCard(order);
    forall name | name in Children(nodes, p) ensures ListEntry(nodes, p, path.s, name) in items {
      var i :| 0 <= i < |order| && order[i] == name;
      assert items[i] == ListEntry(nodes, p, path.s, name);
    }
  }

  /** A file just written with a plain name is listed in the base
      directory as a file. */
  lemma WriteThenList(nodes: Nodes, base: Path, name: string, content: string, overwrite: Json)
    requires Clean(base) && Tree(nodes) && Plain(name)
    requires WriteEffect(nodes, base, JStr(name), JStr(content), overwrite).message == Written(name)
    ensures var after := WriteEffect(nodes, base, JStr(name), JStr(content), overwrite).nodes;
            name in Children(after, base) && !IsDir(after, base + [name])
  {
    ResolveRelative(base, [name]);
    assert Join("/", [name]) == name;
    WriteSucceeds(nodes, base, name, content, overwrite);
    var q := base + [name];
    assert q[..|base|] == base && q[|base|] == name;
  }

  // ------------------------------------------------------------ the tool

  function UnknownAction(action: string): string {
    "Error: Unknown action '" + action + "' for FileOpsTool."
  }

  /** The base directory: the absolute form of a non-empty argument, or
      the working directory. */
  function BaseFor(cwd: Path, baseDirectory: Option<string>): (r: Path)
    requires Clean(cwd)
    ensures Clean(r)
  {
    if TruthyStr(baseDirectory) then AbsJoin(cwd, baseDirectory.value) else cwd
  }

  /** FileOpsTool(base_directory): a named base directory is created when
      it does not exist; a failure to create it escapes. */
  method NewFileOpsTool(disk: Disk, cwd: Path, baseDirectory: Option<string>) returns (r: Result<FileOpsTool>)
    requires disk.Valid() && Clean(cwd)
    modifies disk
    ensures disk.Valid()
    ensures var b := BaseFor(cwd, baseDirectory);
            var create := TruthyStr(baseDirectory) && b !in old(disk.nodes);
            (r.Ok? <==> !create || MakeDirs(old(disk.nodes), b).Ok?) &&
            (r.Ok? ==> fresh(r.value) && r.value.base == b && r.value.disk == disk && r.value.Valid()) &&
            (r.Ok? && create ==> disk.nodes == MakeDirs(old(disk.nodes), b).value && IsDir(disk.nodes, b)) &&
            (!create ==> disk.nodes == old(disk.nodes)) &&
            (r.Raised? ==> r.exc == MakeDirs(old(disk.nodes), b).exc && disk.nodes == old(disk.nodes))
  {
    var b := BaseFor(cwd, baseDirectory);
    if TruthyStr(baseDirectory) && b !in disk.nodes {
      var made := MakeDirs(disk.nodes, b);
      if made.Raised? {
        return Raised(made.exc);
      }
      MakeDirsResult(disk.nodes, b);
      disk.nodes := made.value;
    }
    var tool := new FileOpsTool(b, disk);
    r := Ok(tool);
  }

  class FileOpsTool {
    const base: Path
    const disk: Disk

    ghost predicate Valid()
      reads this, disk
    {
      Clean(base) && disk.Valid()
    }

    constructor(base: Path, disk: Disk)
      requires Clean(base)
      ensures this.base == base && this.disk == disk
    {
      this.base := base;
      this.disk := disk;
    }

    /** write_file, step by step: resolve, refuse, create the parents,
        truncate, write. */
    method WriteFile(path: Json, content: Json, overwrite: Json) returns (message: string)
      requires Valid()
      modifies disk
      ensures Valid()
      ensures Effect(message, disk.nodes) == WriteEffect(old(disk.nodes), base, path, content, overwrite)
    {
      WriteKeepsTree(disk.nodes, base, path, content, overwrite);
      var resolved := Resolve(base, path);
      if resolved.Raised? {
        return Caught(resolved.exc, "Error writing file '" + Str(path) + "'");
      }
      var p := resolved.value;
      var context := "Error writing file '" + path.s + "'";
      if p in disk.nodes && !Truthy(overwrite) {
        return AlreadyExists(path.s);
      }
      var made := MakeDirs(disk.nodes, Dirname(p));
      if made.Raised? {
        return Caught(made.exc, context);
      }
      disk.nodes := made.value;
      if IsDir(disk.nodes, p) {
        return Caught(IsADirectory(p), context);
      }
      disk.nodes := disk.nodes[p := File("")];
      if !content.JStr? {
        return context + ": write() argument must be str, not " + WriteArgType(content);
      }
      disk.nodes := disk.nodes[p := File(content.s)];
      message := Written(path.s);
    }

    /** delete_file */
    method DeleteFile(path: Json) returns (message: string)
      requires Valid()
      modifies disk
      ensures Valid()
      ensures Effect(message, disk.nodes) == DeleteEffect(old(disk.nodes), base, path)
    {
      var resolved := Resolve(base, path);
      if resolved.Raised? {
        return Caught(resolved.exc, "Error deleting file '" + Str(path) + "'");
      }
      var p := resolved.value;
      if !IsFile(disk.nodes, p) {
        return NotAFile(path.s);
      }
      RemoveFile(disk.nodes, p);
      disk.nodes := disk.nodes - {p};
      message := Deleted(path.s);
    }

    /** move_file: resolve both paths, check the source, create the
        destination's parents, move. */
    method MoveFile(source: Json, destination: Json) returns (message: string)
      requires Valid()
      modifies disk
      ensures Valid()
      ensures Effect(message, disk.nodes) == MoveEffect(old(disk.nodes), base, source, destination)
    {
      MoveKeepsTree(disk.nodes, base, source, destination);
      var context := "Error moving '" + Str(source) + "' to '" + Str(destination) + "'";
      var rs := Resolve(base, source);
      if rs.Raised? {
        return Caught(rs.exc, context);
      }
      var rd := Resolve(base, destination);
      if rd.Raised? {
        return Caught(rd.exc, context);
      }
      var s, d := rs.value, rd.value;
      if s !in disk.nodes {
        return SourceMissing(source.s);
      }
      var made := MakeDirs(disk.nodes, Dirname(d));
      if made.Raised? {
        return Caught(made.exc, context);
      }
      disk.nodes := made.value;
      var moved := ShutilMove(disk.nodes, s, d);
      if moved.Raised? {
        return Caught(moved.exc, context);
      }
      disk.nodes := moved.value;
      message := Moved(source.s, destination.s);
    }

    /** list_directory: one entry per child, taken in whatever order the
        directory yields them. */
    method ListDirectory(path: Json) returns (items: seq<Json>)
      requires Valid()
      ensures Listing(disk.nodes, base, path, items)
    {
      var error := ListError(disk.nodes, base, path);
      if error.Some? {
        return [JStr(error.value)];
      }
      var p := Resolve(base, path).value;
      var nodes := disk.nodes;
      var children := Children(nodes, p);
      var remaining := children;
      ghost var order: seq<string> := [];
      items := [];
      while remaining != {}
        invariant remaining <= children
        invariant Distinct(order) && Elems(order) == children - remaining
        invariant items == Entries(nodes, p, path.s, order)
        decreases |remaining|
      {
        var name :| name in remaining;
        assert name !in Elems(order);
        DistinctSnoc(order, name);
        assert Elems(order + [name]) == Elems(order) + {name};
        assert (children - remaining) + {name} == children - (remaining - {name});
        EntriesSnoc(nodes, p, path.s, order, name);
        items := items + [ListEntry(nodes, p, path.s, name)];
        order := order + [name];
        remaining := remaining - {name};
      }
      assert Enumerates(order, children);
    }

    /** execute: dispatch on the action name, with the documented defaults
        for missing parameters. */
    method Execute(action: string, params: Obj) returns (r: Json)
      requires Valid()
      modifies disk
      ensures Valid()
      ensures action == "read_file" ==>
                r == JStr(ReadAnswer(old(disk.nodes), base, Get(params, "path", JNull))) &&
                disk.nodes == old(disk.nodes)
      ensures action == "write_file" ==>
                r.JStr? &&
                Effect(r.s, disk.nodes) ==
                  WriteEffect(old(disk.nodes), base, Get(params, "path", JNull),
                              Get(params, "content", JStr("")), Get(params, "overwrite", JBool(false)))
      ensures action == "delete_file" ==>
                r.JStr? && Effect(r.s, disk.nodes) == DeleteEffect(old(disk.nodes), base, Get(params, "path", JNull))
      ensures action == "list_directory" ==>
                r.JList? && Listing(old(disk.nodes), base, Get(params, "path", JStr(".")), r.items) &&
                disk.nodes == old(disk.nodes)
      ensures action == "move_file" ==>
                r.JStr? &&
                Effect(r.s, disk.nodes) ==
                  MoveEffect(old(disk.nodes), base, Get(params, "source_path", JNull),
                             Get(params, "destination_path", JNull))
      ensures action !in {"read_file", "write_file", "delete_file", "list_directory", "move_file"} ==>
                r == JStr(UnknownAction(action)) && disk.nodes == old(disk.nodes)
    {
      if action == "read_file" {
        r := JStr(ReadAnswer(disk.nodes, base, Get(params, "path", JNull)));
      } else if action == "write_file" {
        var message := WriteFile(Get(params, "path", JNull), Get(params, "content", JStr("")),
                                 Get(params, "overwrite", JBool(false)));
        r := JStr(message);
      } else if action == "delete_file" {
        var message := DeleteFile(Get(params, "path", JNull));
        r := JStr(message);
      } else if action == "list_directory" {
        var items := ListDirectory(Get(params, "path", JStr(".")));
        r := JList(items);
      } else if action == "move_file" {
        var message := MoveFile(Get(params, "source_path", JNull), Get(params, "destination_path", JNull));
        r := JStr(message);
      } else {
        r := JStr(UnknownAction(action));
      }
    }
  }
}
