/** The part of a POSIX filesystem the file plugins touch: a tree of files
    and directories keyed by normalised absolute paths (the sequence of
    components below "/"), the string forms `os.path` works on, and
    `os.makedirs`. */
module FileSystem {
  import opened Common

  /** An absolute path: its components below the root. */
  type Path = seq<string>

  datatype Node = File(content: string) | Dir

  type Nodes = map<Path, Node>

  function Dirname(p: Path): (r: Path)
    ensures p != [] ==> |r| == |p| - 1 && r + [p[|p| - 1]] == p
    ensures p == [] ==> r == []
  {
    if p == [] then [] else p[..|p| - 1]
  }

  predicate IsFile(nodes: Nodes, p: Path) {
    p in nodes && nodes[p].File?
  }

  predicate IsDir(nodes: Nodes, p: Path) {
    p in nodes && nodes[p].Dir?
  }

  /** The root is a directory and every other entry lies in a directory. */
  ghost predicate Tree(nodes: Nodes) {
    IsDir(nodes, []) &&
    forall p {:trigger Dirname(p)} :: p in nodes && p != [] ==> IsDir(nodes, Dirname(p))
  }

  /** Every proper prefix of an entry is a directory. */
  lemma {:induction false} AncestorsAreDirs(nodes: Nodes, p: Path, k: nat)
    requires Tree(nodes) && p in nodes && k < |p|
    ensures IsDir(nodes, p[..k])
    decreases |p| - k
  {
    var up := Dirname(p);
    assert IsDir(nodes, up);
    if k < |up| {
      AncestorsAreDirs(nodes, up, k);
      assert up[..k] == p[..k];
    } else {
      assert up == p[..k];
    }
  }

  /** A shorter prefix of a path is a proper prefix of a longer one. */
  lemma PrefixBelow(d: Path, a: nat, b: nat)
    requires a < b <= |d|
    ensures d[..a] < d[..b]
  {
    assert d[..b][..a] == d[..a];
  }

  /** Nothing lies below a path that is not a directory. */
  lemma NothingBelow(nodes: Nodes, p: Path, q: Path)
    requires Tree(nodes) && !IsDir(nodes, p) && p < q
    ensures q !in nodes
  {
    if q in nodes {
      assert q[..|p|] == p;
      AncestorsAreDirs(nodes, q, |p|);
    }
  }

  /** Some proper prefix of `p` is a file, so `p` cannot be reached. */
  predicate Blocked(nodes: Nodes, p: Path) {
    exists k :: 0 <= k < |p| && IsFile(nodes, p[..k])
  }

  /** Storing a file in an existing directory keeps a tree. */
  lemma FileInDir(nodes: Nodes, p: Path, content: string)
    requires Tree(nodes) && p != [] && IsDir(nodes, Dirname(p)) && !IsDir(nodes, p)
    ensures Tree(nodes[p := File(content)])
  {
    var after := nodes[p := File(content)];
    forall q | q in after && q != [] ensures IsDir(after, Dirname(q)) {
      if q != p {
        var up := Dirname(q);
        assert IsDir(nodes, up) && up != p;
      }
    }
  }

  // ------------------------------------------------------------ path strings

  /** The string form of an absolute path. */
  function Render(p: Path): string {
    "/" + Join("/", p)
  }

  lemma {:induction false} JoinSnoc(parts: seq<string>, c: string)
    requires parts != []
    ensures Join("/", parts + [c]) == Join("/", parts) + "/" + c
  {
    if |parts| == 1 {
      assert (parts + [c])[1..] == [c];
    } else {
      assert (parts + [c])[1..] == parts[1..] + [c];
      JoinSnoc(parts[1..], c);
    }
  }

  /** The string of a child path extends its parent's string. */
  lemma RenderChild(p: Path, c: string)
    ensures Render(p + [c]) == Render(p) + (if p == [] then "" else "/") + c
  {
    if p != [] {
      JoinSnoc(p, c);
    } else {
      assert p + [c] == [c];
    }
  }

  /** `s.split('/')` */
  function SplitSlash(s: string): (r: seq<string>)
    ensures |r| >= 1
    ensures forall i :: 0 <= i < |r| ==> '/' !in r[i]
    decreases |s|
  {
    var head := BeforeChar(s, '/');
    if |head| == |s| then [s] else [head] + SplitSlash(s[|head| + 1..])
  }

  /** `os.path.basename(s)`: the text after the last '/'. */
  function Basename(s: string): (r: string)
    ensures '/' !in r
  {
    var parts := SplitSlash(s);
    parts[|parts| - 1]
  }

  /** The last part of a split is a suffix of the string. */
  lemma {:induction false} SplitLastSuffix(s: string) returns (k: nat)
    ensures k <= |s| && s[k..] == SplitSlash(s)[|SplitSlash(s)| - 1]
    decreases |s|
  {
    var head := BeforeChar(s, '/');
    if |head| == |s| {
      k := 0;
    } else {
      var rest := s[|head| + 1..];
      var j := SplitLastSuffix(rest);
      k := |head| + 1 + j;
      assert SplitSlash(s) == [head] + SplitSlash(rest);
      assert s[k..] == rest[j..];
    }
  }

  /** The basename is a suffix of the path it is taken from. */
  lemma BasenameSuffix(s: string) returns (k: nat)
    ensures k <= |s| && s[k..] == Basename(s)
  {
    k := SplitLastSuffix(s);
  }

  /** A component of a normalised path. */
  predicate Plain(c: string) {
    c != "" && c != "." && c != ".." && '/' !in c
  }

  predicate Clean(p: Path) {
    forall i :: 0 <= i < |p| ==> Plain(p[i])
  }

  /** `os.path.normpath` of the path `acc` followed by `parts`: empty and "."
      components vanish, ".." removes the preceding component (and stays at
      the root). */
  function Normalize(acc: Path, parts: seq<string>): (r: Path)
    requires forall i :: 0 <= i < |parts| ==> '/' !in parts[i]
    requires Clean(acc)
    ensures Clean(r)
    decreases |parts|
  {
    if parts == [] then acc
    else if parts[0] == "" || parts[0] == "." then Normalize(acc, parts[1..])
    else if parts[0] == ".." then Normalize(Dirname(acc), parts[1..])
    else Normalize(acc + [parts[0]], parts[1..])
  }

  /** Plain components are appended unchanged. */
  lemma {:induction false} NormalizePlain(acc: Path, parts: seq<string>)
    requires Clean(acc) && forall i :: 0 <= i < |parts| ==> Plain(parts[i])
    requires forall i :: 0 <= i < |parts| ==> '/' !in parts[i]
    ensures Normalize(acc, parts) == acc + parts
    decreases |parts|
  {
    if parts != [] {
      NormalizePlain(acc + [parts[0]], parts[1..]);
      assert acc + [parts[0]] + parts[1..] == acc + parts;
    }
  }

  /** `os.path.abspath(os.path.join(base, s))`: an absolute `s` replaces
      `base`. */
  function AbsJoin(base: Path, s: string): (r: Path)
    requires Clean(base)
    ensures Clean(r)
  {
    Normalize(if |s| > 0 && s[0] == '/' then [] else base, SplitSlash(s))
  }

  // ------------------------------------------------------------ text files

  /** What reading a file opened in text mode gives: universal newlines turn
      "\r\n" and a lone "\r" into "\n"; every other character is kept. */
  function Universal(t: string): (r: string)
    ensures |r| <= |t|
    ensures forall i :: 0 <= i < |r| ==> r[i] != '\r'
    ensures (forall i :: 0 <= i < |t| ==> t[i] != '\r') ==> r == t
  {
    if t == [] then []
    else if t[0] == '\r' then "\n" + Universal(if |t| > 1 && t[1] == '\n' then t[2..] else t[1..])
    else
      assert t == [t[0]] + t[1..];
      [t[0]] + Universal(t[1..])
  }

  /** The translation is done once: reading translated text changes nothing. */
  lemma UniversalIdempotent(t: string)
    ensures Universal(Universal(t)) == Universal(t)
  {
  }

  /** Universal newlines never join or drop lines: the translated text holds
      one "\n" for each line break of the file, a line break being "\r\n",
      a lone "\r" or "\n". */
  lemma {:induction false} UniversalKeepsBreaks(t: string)
    ensures Breaks(Universal(t)) == Breaks(t)
  {
    if t != [] {
      if t[0] == '\r' {
        var rest := if |t| > 1 && t[1] == '\n' then t[2..] else t[1..];
        UniversalKeepsBreaks(rest);
        assert Universal(t) == "\n" + Universal(rest);
        assert Breaks("\n" + Universal(rest)) == 1 + Breaks(Universal(rest)) by {
          assert ("\n" + Universal(rest))[1..] == Universal(rest);
        }
      } else {
        UniversalKeepsBreaks(t[1..]);
        assert Universal(t) == [t[0]] + Universal(t[1..]);
        assert ([t[0]] + Universal(t[1..]))[1..] == Universal(t[1..]);
      }
    }
  }

  /** The number of line breaks in `t`, counting "\r\n" once. */
  function Breaks(t: string): nat {
    if t == [] then 0
    else if t[0] == '\r' then 1 + Breaks(if |t| > 1 && t[1] == '\n' then t[2..] else t[1..])
    else if t[0] == '\n' then 1 + Breaks(t[1..])
    else Breaks(t[1..])
  }

  // ------------------------------------------------------------ os errors

  function NoSuchFile(p: Path): Exc {
    Exc("FileNotFoundError", "[Errno 2] No such file or directory: '" + Render(p) + "'")
  }

  function FileExists(p: Path): Exc {
    Exc("FileExistsError", "[Errno 17] File exists: '" + Render(p) + "'")
  }

  function NotADirectory(p: Path): Exc {
    Exc("NotADirectoryError", "[Errno 20] Not a directory: '" + Render(p) + "'")
  }

  function IsADirectory(p: Path): Exc {
    Exc("IsADirectoryError", "[Errno 21] Is a directory: '" + Render(p) + "'")
  }

  // ------------------------------------------------------------ makedirs

  /** The length of the longest prefix of `d` that exists, searching from `k`. */
  function Reach(nodes: Nodes, d: Path, k: nat): (r: nat)
    requires k <= |d| && d[..k] in nodes
    ensures k <= r <= |d| && d[..r] in nodes
    ensures r < |d| ==> d[..r + 1] !in nodes
    decreases |d| - k
  {
    if k < |d| && d[..k + 1] in nodes then Reach(nodes, d, k + 1) else k
  }

  /** The proper descendants of `d[..k]` on the way to `d`. */
  function Below(d: Path, k: nat): set<Path>
    requires k <= |d|
  {
    set j | k < j <= |d| :: d[..j]
  }

  /** The entries of `nodes` with the missing paths of `added` added as
      directories. */
  function AddDirs(nodes: Nodes, added: set<Path>): Nodes {
    map q | q in nodes.Keys + added :: if q in nodes then nodes[q] else Dir
  }

  /** makedirs: the missing directories down to `d` are created; a file in
      the way raises (FileExistsError when `d` itself is one). */
  function MakeDirs(nodes: Nodes, d: Path): (r: Result<Nodes>)
    requires [] in nodes
  {
    var m := Reach(nodes, d, 0);
    if m == |d| then
      (assert d[..m] == d; if nodes[d].Dir? then Ok(nodes) else Raised(FileExists(d)))
    else if nodes[d[..m]].File? then Raised(NotADirectory(d[..m + 1]))
    else Ok(AddDirs(nodes, Below(d, m)))
  }

  /** `d[..m]` is the deepest existing prefix of `d`, a directory, and
      `d` itself is further down. */
  ghost predicate Deepest(nodes: Nodes, d: Path, m: nat) {
    m < |d| && IsDir(nodes, d[..m]) && d[..m + 1] !in nodes
  }

  lemma BelowAbsent(nodes: Nodes, d: Path, m: nat, j: nat)
    requires Tree(nodes) && Deepest(nodes, d, m) && m < j <= |d|
    ensures d[..j] !in nodes
  {
    if j > m + 1 {
      PrefixBelow(d, m + 1, j);
      NothingBelow(nodes, d[..m + 1], d[..j]);
    }
  }

  lemma AddedParent(nodes: Nodes, d: Path, m: nat, q: Path)
    requires Tree(nodes) && Deepest(nodes, d, m)
    requires q in AddDirs(nodes, Below(d, m)) && q != []
    ensures IsDir(AddDirs(nodes, Below(d, m)), Dirname(q))
  {
    var r := AddDirs(nodes, Below(d, m));
    var up := Dirname(q);
    if q in nodes {
      assert IsDir(nodes, up);
    } else {
      var j :| m < j <= |d| && q == d[..j];
      assert up == d[..j - 1];
      if j - 1 > m {
        assert up in Below(d, m);
        BelowAbsent(nodes, d, m, j - 1);
        assert r[up] == Dir;
      } else {
        assert IsDir(nodes, up);
      }
    }
  }

  /** Adding the paths below the deepest existing prefix keeps the tree and
      makes `d` a directory. */
  lemma AddDirsTree(nodes: Nodes, d: Path, m: nat)
    requires Tree(nodes) && Deepest(nodes, d, m)
    ensures Tree(AddDirs(nodes, Below(d, m))) && IsDir(AddDirs(nodes, Below(d, m)), d)
  {
    var r := AddDirs(nodes, Below(d, m));
    forall q | q in r && q != [] ensures IsDir(r, Dirname(q)) {
      AddedParent(nodes, d, m, q);
    }
    assert d == d[..|d|] && d in Below(d, m);
    BelowAbsent(nodes, d, m, |d|);
  }

  /** makedirs succeeds exactly when no prefix of `d` (itself included) is
      a file. */
  lemma MakeDirsSucceeds(nodes: Nodes, d: Path)
    requires Tree(nodes)
    ensures MakeDirs(nodes, d).Ok? <==> forall k :: 0 <= k <= |d| ==> !IsFile(nodes, d[..k])
  {
    var m := Reach(nodes, d, 0);
    if m == |d| {
      assert d[..m] == d;
      if nodes[d].Dir? {
        forall k | 0 <= k <= |d| ensures !IsFile(nodes, d[..k]) {
          if k < |d| { AncestorsAreDirs(nodes, d, k); }
        }
      } else {
        assert IsFile(nodes, d[..|d|]);
      }
    } else if nodes[d[..m]].File? {
      assert IsFile(nodes, d[..m]);
    } else {
      forall k | 0 <= k <= |d| ensures !IsFile(nodes, d[..k]) {
        if k < m {
          PrefixBelow(d, k, m);
          AncestorsAreDirs(nodes, d[..m], k);
          assert d[..m][..k] == d[..k];
        } else if k > m {
          BelowAbsent(nodes, d, m, k);
        }
      }
    }
  }

  /** A successful makedirs leaves a tree in which `d` is a directory, with
      every existing entry unchanged and only directories on the way to `d`
      added. */
  lemma MakeDirsResult(nodes: Nodes, d: Path)
    requires Tree(nodes) && MakeDirs(nodes, d).Ok?
    ensures var r := MakeDirs(nodes, d).value;
            Tree(r) && IsDir(r, d) &&
            (forall q :: q in nodes ==> q in r && r[q] == nodes[q]) &&
            (forall q :: q in r && q !in nodes ==> q <= d)
  {
    var m := Reach(nodes, d, 0);
    if m == |d| {
      assert d[..m] == d;
    } else {
      AddDirsTree(nodes, d, m);
      var r := AddDirs(nodes, Below(d, m));
      forall q | q in r && q !in nodes ensures q <= d {
        var j :| m < j <= |d| && q == d[..j];
      }
    }
  }

  /** The filesystem the model acts on. */
  class Disk {
    var nodes: Nodes

    ghost predicate Valid()
      reads this
    {
      Tree(nodes)
    }

    constructor()
      ensures Valid() && nodes == map[[] := Dir]
    {
      nodes := map[[] := Dir];
    }
  }
}
