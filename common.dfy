/** Values and Python string operations shared by every module of the model.
    Strings are `seq<char>`; case mapping and the alphanumeric test follow
    the ASCII subset of Python's `str` methods, white space the full set
    Python's `str.isspace()` accepts. */
module Common {

  datatype Option<T> = None | Some(value: T)

  /** A Python exception: its class name and its `str(e)` text. */
  datatype Exc = Exc(kind: string, msg: string)

  /** What a Python call does: return a value or raise an exception. */
  datatype Result<T> = Ok(value: T) | Raised(exc: Exc)

  /** The elements of a sequence, as a set. */
  function Elems<T>(s: seq<T>): set<T> {
    set x | x in s
  }

  /** No element occurs twice. */
  predicate Distinct<T(==)>(s: seq<T>) {
    forall i, j :: 0 <= i < j < |s| ==> s[i] != s[j]
  }

  lemma DistinctSnoc<T>(s: seq<T>, x: T)
    requires Distinct(s) && x !in s
    ensures Distinct(s + [x])
  {
  }

  /** A sequence without repetitions has as many elements as its set. */
  lemma {:induction false} DistinctCard<T>(s: seq<T>)
    requires Distinct(s)
    ensures |Elems(s)| == |s|
  {
    if s != [] {
      var t := s[1..];
      assert Distinct(t) by {
        forall i, j | 0 <= i < j < |t| ensures t[i] != t[j] {
          assert t[i] == s[i + 1] && t[j] == s[j + 1];
        }
      }
      DistinctCard(t);
      assert Elems(s) == Elems(t) + {s[0]};
      assert s[0] !in Elems(t) by {
        forall j | 0 <= j < |t|
          ensures t[j] != s[0]
        {
          assert t[j] == s[j + 1];
        }
      }
    }
  }

  /** Python truthiness of an optional string: `None` and `""` are falsy. */
  predicate TruthyStr(s: Option<string>) {
    s.Some? && s.value != ""
  }

  /** `a or b` for an optional string and a string fallback. */
  function OrElse(s: Option<string>, fallback: string): (r: string)
    ensures TruthyStr(s) ==> r == s.value
    ensures !TruthyStr(s) ==> r == fallback
  {
    if TruthyStr(s) then s.value else fallback
  }

  /** A keyword argument as a call passes it: left out, so that the
      parameter's default applies, or given (possibly as None). */
  datatype Arg<T> = Omitted | Given(value: T)

  /** The value a parameter takes: the argument given, else the default. */
  function ArgOr<T>(a: Arg<T>, default: T): (r: T)
    ensures a.Given? ==> r == a.value
    ensures a.Omitted? ==> r == default
  {
    if a.Given? then a.value else default
  }

  // ---------------------------------------------------------------- characters

  predicate IsLowerAscii(c: char) { 'a' <= c <= 'z' }
  predicate IsUpperAscii(c: char) { 'A' <= c <= 'Z' }
  predicate IsDigit(c: char) { '0' <= c <= '9' }
  predicate IsAlnum(c: char) { IsLowerAscii(c) || IsUpperAscii(c) || IsDigit(c) }

  /** Characters Python's `str.isspace()` accepts, which are those the
      argument-less `strip()` removes: the ASCII blanks, the separators
      U+001C to U+001F, and the Unicode white space U+0085, U+00A0, U+1680,
      U+2000 to U+200A, U+2028, U+2029, U+202F, U+205F and U+3000. */
  predicate IsSpace(c: char) {
    || c == ' ' || c == '\t' || c == '\n' || c == '\r' || c == '\U{000B}' || c == '\U{000C}'
    || ('\U{001C}' <= c <= '\U{001F}')
    || c == '\U{0085}' || c == '\U{00A0}' || c == '\U{1680}'
    || ('\U{2000}' <= c <= '\U{200A}')
    || c == '\U{2028}' || c == '\U{2029}' || c == '\U{202F}' || c == '\U{205F}' || c == '\U{3000}'
  }

  function UpperChar(c: char): (r: char)
    ensures !IsLowerAscii(r)
    ensures IsLowerAscii(c) ==> r as int == c as int - 32
    ensures !IsLowerAscii(c) ==> r == c
  {
    if IsLowerAscii(c) then (c as int - 32) as char else c
  }

  function LowerChar(c: char): (r: char)
    ensures !IsUpperAscii(r)
    ensures IsUpperAscii(c) ==> r as int == c as int + 32
    ensures !IsUpperAscii(c) ==> r == c
  {
    if IsUpperAscii(c) then (c as int + 32) as char else c
  }

  /** `s.upper()` */
  function Upper(s: string): (r: string)
    ensures |r| == |s|
    ensures forall i :: 0 <= i < |s| ==> r[i] == UpperChar(s[i])
  {
    seq(|s|, i requires 0 <= i < |s| => UpperChar(s[i]))
  }

  /** `s.lower()` */
  function Lower(s: string): (r: string)
    ensures |r| == |s|
    ensures forall i :: 0 <= i < |s| ==> r[i] == LowerChar(s[i])
  {
    seq(|s|, i requires 0 <= i < |s| => LowerChar(s[i]))
  }

  /** A string without lower-case letters is its own upper case. */
  lemma UpperUnchanged(s: string)
    requires forall i :: 0 <= i < |s| ==> !IsLowerAscii(s[i])
    ensures Upper(s) == s
  {
    assert forall i :: 0 <= i < |s| ==> Upper(s)[i] == s[i];
  }

  lemma UpperIdempotent(s: string)
    ensures Upper(Upper(s)) == Upper(s)
  {
  }

  lemma LowerIdempotent(s: string)
    ensures Lower(Lower(s)) == Lower(s)
  {
  }

  lemma LowerOfUpper(s: string)
    ensures Lower(Upper(s)) == Lower(s)
  {
  }

  // ---------------------------------------------------------------- stripping

  /** The index of the first non-whitespace character from `i` on. */
  function SkipSpaces(s: string, i: nat): (k: nat)
    requires i <= |s|
    decreases |s| - i
    ensures i <= k <= |s|
    ensures k < |s| ==> !IsSpace(s[k])
  {
    if i < |s| && IsSpace(s[i]) then SkipSpaces(s, i + 1) else i
  }

  /** Everything `SkipSpaces` passes over is whitespace. */
  lemma {:induction false} SkipSpacesAll(s: string, i: nat)
    requires i <= |s|
    decreases |s| - i
    ensures forall j :: i <= j < SkipSpaces(s, i) ==> IsSpace(s[j])
  {
    if i < |s| && IsSpace(s[i]) {
      SkipSpacesAll(s, i + 1);
    }
  }

  /** The end of `s[..k]` once its trailing whitespace is removed. */
  function TrimSpaces(s: string, k: nat): (e: nat)
    requires k <= |s|
    decreases k
    ensures e <= k
    ensures e > 0 ==> !IsSpace(s[e - 1])
  {
    if k > 0 && IsSpace(s[k - 1]) then TrimSpaces(s, k - 1) else k
  }

  /** Everything `TrimSpaces` cuts off is whitespace. */
  lemma {:induction false} TrimSpacesAll(s: string, k: nat)
    requires k <= |s|
    decreases k
    ensures forall j :: TrimSpaces(s, k) <= j < k ==> IsSpace(s[j])
  {
    if k > 0 && IsSpace(s[k - 1]) {
      TrimSpacesAll(s, k - 1);
    }
  }

  /** The index of the first character other than `c` from `i` on. */
  function SkipChar(s: string, c: char, i: nat): (k: nat)
    requires i <= |s|
    decreases |s| - i
    ensures i <= k <= |s|
    ensures k < |s| ==> s[k] != c
    ensures forall j :: i <= j < k ==> s[j] == c
  {
    if i < |s| && s[i] == c then SkipChar(s, c, i + 1) else i
  }

  /** The end of `s[..k]` once its trailing `c` characters are removed. */
  function TrimChar(s: string, c: char, k: nat): (e: nat)
    requires k <= |s|
    decreases k
    ensures e <= k
    ensures e > 0 ==> s[e - 1] != c
    ensures forall j :: e <= j < k ==> s[j] == c
  {
    if k > 0 && s[k - 1] == c then TrimChar(s, c, k - 1) else k
  }

  /** `s.lstrip()` */
  function LStrip(s: string): (r: string)
    ensures |r| <= |s| && r == s[|s| - |r|..]
    ensures r != [] ==> !IsSpace(r[0])
  {
    s[SkipSpaces(s, 0)..]
  }

  lemma LStripRemovesSpaces(s: string)
    ensures forall i :: 0 <= i < |s| - |LStrip(s)| ==> IsSpace(s[i])
  {
    SkipSpacesAll(s, 0);
  }

  /** `s.rstrip()` */
  function RStrip(s: string): (r: string)
    ensures r <= s
    ensures r != [] ==> !IsSpace(r[|r| - 1])
  {
    s[..TrimSpaces(s, |s|)]
  }

  lemma RStripRemovesSpaces(s: string)
    ensures forall i :: |RStrip(s)| <= i < |s| ==> IsSpace(s[i])
  {
    TrimSpacesAll(s, |s|);
  }

  /** `s.strip()` */
  function Strip(s: string): (r: string)
    ensures |r| <= |s|
    ensures r != [] ==> !IsSpace(r[0]) && !IsSpace(r[|r| - 1])
  {
    RStrip(LStrip(s))
  }

  /** Appending text does not move the first non-space position when one
      exists already. */
  lemma {:induction false} SkipSpacesAppend(s: string, t: string, i: nat)
    requires i <= |s| && SkipSpaces(s, i) < |s|
    decreases |s| - i
    ensures SkipSpaces(s + t, i) == SkipSpaces(s, i)
  {
    if IsSpace(s[i]) {
      SkipSpacesAppend(s, t, i + 1);
    }
  }

  /** Trimming inside `s` is unaffected by what follows it. */
  lemma {:induction false} TrimSpacesAppend(s: string, t: string, k: nat)
    requires k <= |s|
    decreases k
    ensures TrimSpaces(s + t, k) == TrimSpaces(s, k)
  {
    if k > 0 && IsSpace(s[k - 1]) {
      TrimSpacesAppend(s, t, k - 1);
    }
  }

  /** A trailing space makes no difference to `strip()`. */
  lemma StripTrailingSpace(s: string)
    ensures Strip(s + " ") == Strip(s)
  {
    var st := s + " ";
    if SkipSpaces(s, 0) < |s| {
      var k := SkipSpaces(s, 0);
      SkipSpacesAppend(s, " ", 0);
      var l := s[k..];
      assert LStrip(st) == l + " ";
      assert TrimSpaces(l + " ", |l| + 1) == TrimSpaces(l + " ", |l|);
      TrimSpacesAppend(l, " ", |l|);
    } else {
      SkipSpacesAll(s, 0);
      assert SkipSpaces(st, |s|) == |st|;
      SkipSpacesBlank(st, 0, |s|);
    }
  }

  /** Over a run of spaces, `SkipSpaces` reaches the end of the run. */
  lemma {:induction false} SkipSpacesBlank(s: string, i: nat, j: nat)
    requires i <= j <= |s| && forall m :: i <= m < j ==> IsSpace(s[m])
    decreases j - i
    ensures SkipSpaces(s, i) == SkipSpaces(s, j)
  {
    if i < j {
      SkipSpacesBlank(s, i + 1, j);
    }
  }

  /** True when `s.strip()` is empty, i.e. every character is whitespace. */
  predicate IsBlank(s: string) {
    forall i :: 0 <= i < |s| ==> IsSpace(s[i])
  }

  lemma StripEmptyIffBlank(s: string)
    ensures Strip(s) == [] <==> IsBlank(s)
  {
    var l := LStrip(s);
    LStripRemovesSpaces(s);
    if l == [] {
      assert forall i :: 0 <= i < |s| ==> IsSpace(s[i]);
    } else {
      RStripRemovesSpaces(l);
      assert RStrip(l) != [];
      var k := |s| - |l|;
      assert s[k] == l[0];
    }
  }

  /** `s.rstrip(c)` for a single character `c`. */
  function RStripChar(s: string, c: char): (r: string)
    ensures r <= s
    ensures r != [] ==> r[|r| - 1] != c
    ensures forall i :: |r| <= i < |s| ==> s[i] == c
  {
    s[..TrimChar(s, c, |s|)]
  }

  /** `s.lstrip(c)` for a single character `c`. */
  function LStripChar(s: string, c: char): (r: string)
    ensures |r| <= |s| && r == s[|s| - |r|..]
    ensures r != [] ==> r[0] != c
    ensures forall i :: 0 <= i < |s| - |r| ==> s[i] == c
  {
    s[SkipChar(s, c, 0)..]
  }

  // ---------------------------------------------------------------- searching

  /** `sub` occurs in `s` at index `j`. */
  predicate OccursAt(s: string, sub: string, j: nat) {
    j + |sub| <= |s| && s[j..j + |sub|] == sub
  }

  /** `s.find(sub, i)`, as an option instead of -1: the least index from `i`
      on at which `sub` occurs. */
  function FindFrom(s: string, sub: string, i: nat): (r: Option<nat>)
    decreases |s| - i
    ensures r.Some? ==> i <= r.value && OccursAt(s, sub, r.value)
    ensures r.Some? ==> forall j :: i <= j < r.value ==> !OccursAt(s, sub, j)
    ensures r.None? ==> forall j :: i <= j ==> !OccursAt(s, sub, j)
  {
    if i + |sub| > |s| then None
    else if OccursAt(s, sub, i) then Some(i)
    else FindFrom(s, sub, i + 1)
  }

  /** `s.find(sub)`: the least index at which `sub` occurs. */
  function Find(s: string, sub: string): (r: Option<nat>)
    ensures r.Some? ==> OccursAt(s, sub, r.value)
    ensures r.Some? ==> forall j: nat :: j < r.value ==> !OccursAt(s, sub, j)
    ensures r.None? ==> forall j: nat :: !OccursAt(s, sub, j)
  {
    FindFrom(s, sub, 0)
  }

  /** `sub in s` */
  predicate Contains(s: string, sub: string) {
    exists j: nat | j <= |s| :: OccursAt(s, sub, j)
  }

  /** `sub in s` exactly when `s.find(sub)` finds it. */
  lemma ContainsFind(s: string, sub: string)
    ensures Contains(s, sub) <==> Find(s, sub).Some?
  {
    if Find(s, sub).Some? {
      ContainsAt(s, sub, Find(s, sub).value);
    }
  }

  lemma ContainsAt(s: string, sub: string, k: nat)
    requires OccursAt(s, sub, k)
    ensures Contains(s, sub)
  {
  }

  lemma ContainsTail(s: string, sub: string)
    requires s != []
    ensures Contains(s[1..], sub) ==> Contains(s, sub)
  {
    if Contains(s[1..], sub) {
      var k: nat :| k <= |s[1..]| && OccursAt(s[1..], sub, k);
      assert s[1..][k..k + |sub|] == s[k + 1..k + 1 + |sub|];
      ContainsAt(s, sub, k + 1);
    }
  }

  /** Whether `sub` occurs at `j` is decided by a prefix long enough to hold it. */
  lemma PrefixAgree(s: string, t: string, sub: string, j: nat)
    requires |t| <= |s| && t == s[..|t|] && j + |sub| <= |t|
    ensures OccursAt(s, sub, j) <==> OccursAt(t, sub, j)
  {
    assert t[j..j + |sub|] == s[j..j + |sub|];
  }

  lemma ContainsConcat(a: string, b: string, sub: string)
    requires Contains(a, sub) || Contains(b, sub)
    ensures Contains(a + b, sub)
  {
    if Contains(a, sub) {
      var k: nat :| k <= |a| && OccursAt(a, sub, k);
      assert (a + b)[k..k + |sub|] == a[k..k + |sub|];
      ContainsAt(a + b, sub, k);
    } else {
      var k: nat :| k <= |b| && OccursAt(b, sub, k);
      assert (a + b)[|a| + k..|a| + k + |sub|] == b[k..k + |sub|];
      ContainsAt(a + b, sub, |a| + k);
    }
  }

  /** `s.strip()` is the slice of `s` from `a` that leaves only whitespace
      on either side. */
  lemma StripBounds(s: string) returns (a: nat)
    ensures a + |Strip(s)| <= |s| && Strip(s) == s[a..a + |Strip(s)|]
    ensures forall i :: 0 <= i < a ==> IsSpace(s[i])
    ensures forall i :: a + |Strip(s)| <= i < |s| ==> IsSpace(s[i])
  {
    var l := LStrip(s);
    var r := Strip(s);
    a := |s| - |l|;
    LStripRemovesSpaces(s);
    RStripRemovesSpaces(l);
    assert r == l[..|r|];
    forall i | a + |r| <= i < |s|
      ensures IsSpace(s[i])
    {
      assert l[i - a] == s[i];
    }
  }

  lemma ContainsInSlice(s: string, a: nat, r: string, sub: string)
    requires a + |r| <= |s| && r == s[a..a + |r|] && Contains(r, sub)
    ensures Contains(s, sub)
  {
    var j: nat :| j <= |r| && OccursAt(r, sub, j);
    var x, y := s[a + j..a + j + |sub|], r[j..j + |sub|];
    forall i | 0 <= i < |sub|
      ensures x[i] == y[i]
    {
      assert r[j + i] == s[a..a + |r|][j + i] == s[a + j + i];
    }
    assert x == y;
    ContainsAt(s, sub, a + j);
  }

  lemma ContainsBetweenSpaces(s: string, a: nat, r: string, sub: string)
    requires a + |r| <= |s| && r == s[a..a + |r|]
    requires forall i :: 0 <= i < a ==> IsSpace(s[i])
    requires forall i :: a + |r| <= i < |s| ==> IsSpace(s[i])
    requires sub != [] && !IsSpace(sub[0]) && !IsSpace(sub[|sub| - 1])
    requires Contains(s, sub)
    ensures Contains(r, sub)
  {
    var j: nat :| j <= |s| && OccursAt(s, sub, j);
    assert s[j] == sub[0] && s[j + |sub| - 1] == sub[|sub| - 1];
    assert a <= j && j + |sub| <= a + |r|;
    var x, y := r[j - a..j - a + |sub|], s[j..j + |sub|];
    forall i | 0 <= i < |sub|
      ensures x[i] == y[i]
    {
      assert r[j - a + i] == s[a..a + |r|][j - a + i] == s[j + i];
    }
    assert x == y;
    ContainsAt(r, sub, j - a);
  }

  /** Stripping surrounding whitespace never changes whether a phrase that
      begins and ends with a non-space character occurs. */
  lemma ContainsStrip(s: string, sub: string)
    requires sub != [] && !IsSpace(sub[0]) && !IsSpace(sub[|sub| - 1])
    ensures Contains(Strip(s), sub) <==> Contains(s, sub)
  {
    var r := Strip(s);
    var a := StripBounds(s);
    if Contains(r, sub) {
      ContainsInSlice(s, a, r, sub);
    }
    if Contains(s, sub) {
      ContainsBetweenSpaces(s, a, r, sub);
    }
  }

  /** The first occurrence of `sep` in `a + sep + b` is the displayed one
      unless an earlier one overlaps `a` and a proper prefix of `sep`. */
  lemma FindAfter(a: string, sep: string, b: string)
    requires sep != [] && !Contains(a + sep[..|sep| - 1], sep)
    ensures Find(a + sep + b, sep) == Some(|a|)
  {
    var s := a + sep + b;
    var t := a + sep[..|sep| - 1];
    assert s[|a|..|a| + |sep|] == sep;
    assert t == s[..|t|] by {
      assert s == t + ([sep[|sep| - 1]] + b);
    }
    forall j: nat | j < |a|
      ensures !OccursAt(s, sep, j)
    {
      PrefixAgree(s, t, sep, j);
    }
    assert OccursAt(s, sep, |a|);
    var f := Find(s, sep);
    assert !(f.value < |a|);
    assert !(f.value > |a|);
  }

  /** Nothing before the first occurrence contains the pattern. */
  lemma FindPrefix(s: string, sub: string, k: nat)
    requires sub != [] && Find(s, sub) == Some(k)
    ensures !Contains(s[..k], sub)
  {
    var p := s[..k];
    forall j: nat
      ensures !OccursAt(p, sub, j)
    {
      if j + |sub| <= |p| {
        PrefixAgree(s, p, sub, j);
      }
    }
  }

  /** `s.replace(pat, rep)` for a non-empty pattern: left-to-right,
      non-overlapping occurrences. */
  function Replace(s: string, pat: string, rep: string): (r: string)
    requires pat != []
    decreases |s|
    ensures !Contains(s, pat) ==> r == s
  {
    if |s| < |pat| then s
    else if OccursAt(s, pat, 0) then rep + Replace(s[|pat|..], pat, rep)
    else
      ContainsTail(s, pat);
      [s[0]] + Replace(s[1..], pat, rep)
  }

  /** `s.split(sep, 1)`: the text before the first `sep`, and the rest after
      it when `sep` occurs. */
  function SplitOnce(s: string, sep: string): (r: (string, Option<string>))
    requires sep != []
    ensures Contains(s, sep) <==> r.1.Some?
    ensures r.1.None? ==> r.0 == s
    ensures r.1.Some? ==> s == r.0 + sep + r.1.value && !Contains(r.0, sep)
  {
    ContainsFind(s, sep);
    match Find(s, sep)
    case None => (s, None)
    case Some(k) =>
      assert s == s[..k] + sep + s[k + |sep|..];
      FindPrefix(s, sep, k);
      (s[..k], Some(s[k + |sep|..]))
  }

  lemma SplitOnceAt(a: string, sep: string, b: string)
    requires sep != [] && !Contains(a + sep[..|sep| - 1], sep)
    ensures SplitOnce(a + sep + b, sep) == (a, Some(b))
  {
    FindAfter(a, sep, b);
    var s := a + sep + b;
    assert s[..|a|] == a;
    assert s[|a| + |sep|..] == b;
  }

  /** The text before the first occurrence of `c`, i.e. `s.split(c)[0]`. */
  function BeforeChar(s: string, c: char): (r: string)
    ensures r <= s
    ensures forall i :: 0 <= i < |r| ==> r[i] != c
    ensures |r| < |s| ==> s[|r|] == c
  {
    if s == [] || s[0] == c then [] else [s[0]] + BeforeChar(s[1..], c)
  }

  // ---------------------------------------------------------------- rendering

  function DigitChar(d: nat): (c: char)
    requires d < 10
    ensures IsDigit(c)
  {
    ('0' as int + d) as char
  }

  /** `str(n)` for a natural number. */
  function NatToString(n: nat): (r: string)
    ensures |r| >= 1
    ensures forall i :: 0 <= i < |r| ==> IsDigit(r[i])
  {
    if n < 10 then [DigitChar(n)] else NatToString(n / 10) + [DigitChar(n % 10)]
  }

  /** `str(i)` for an integer. */
  function IntToString(i: int): string {
    if i < 0 then "-" + NatToString(-i) else NatToString(i)
  }

  /** `sep.join(parts)` */
  function Join(sep: string, parts: seq<string>): string {
    if parts == [] then ""
    else if |parts| == 1 then parts[0]
    else parts[0] + sep + Join(sep, parts[1..])
  }

  /** Python's `repr` of a list of strings (quotes inside the strings are not escaped). */
  function ListRepr(parts: seq<string>): string {
    "[" + QuotedJoin(parts) + "]"
  }

  /** The quoted strings separated by ", ", as inside a list's `repr`. */
  function QuotedJoin(parts: seq<string>): string {
    if parts == [] then ""
    else if |parts| == 1 then "'" + parts[0] + "'"
    else "'" + parts[0] + "', " + QuotedJoin(parts[1..])
  }

  /** Elements of `s` that satisfy `keep`, in order. */
  function Filter<T>(s: seq<T>, keep: T -> bool): (r: seq<T>)
    ensures |r| <= |s|
  {
    if s == [] then []
    else (if keep(s[0]) then [s[0]] else []) + Filter(s[1..], keep)
  }

  lemma {:induction false} FilterMembers<T>(s: seq<T>, keep: T -> bool)
    ensures forall x :: x in Filter(s, keep) <==> x in s && keep(x)
  {
    if s != [] {
      FilterMembers(s[1..], keep);
      assert forall x :: x in s <==> x == s[0] || x in s[1..];
    }
  }

  /** Nothing is kept from a sequence whose elements all satisfy `ok`
      when nothing satisfying `ok` is kept. */
  lemma {:induction false} FilterNone<T>(s: seq<T>, keep: T -> bool, ok: T -> bool)
    requires forall i :: 0 <= i < |s| ==> ok(s[i])
    requires forall x :: ok(x) ==> !keep(x)
    ensures Filter(s, keep) == []
  {
    if s != [] {
      assert forall i :: 0 <= i < |s[1..]| ==> s[1..][i] == s[i + 1];
      FilterNone(s[1..], keep, ok);
    }
  }

  lemma {:induction false} FilterSnoc<T>(s: seq<T>, i: nat, keep: T -> bool)
    requires i < |s|
    ensures Filter(s[..i + 1], keep) == Filter(s[..i], keep) + (if keep(s[i]) then [s[i]] else [])
  {
    if i == 0 {
      assert s[..1] == [s[0]];
      assert s[..0] == [];
      assert Filter(s[..1], keep) == (if keep(s[0]) then [s[0]] else []) + Filter(s[..1][1..], keep);
      assert s[..1][1..] == [];
    } else {
      var a, b := s[..i + 1], s[..i];
      assert a[0] == s[0] && b[0] == s[0];
      assert a[1..] == s[1..][..i];
      assert b[1..] == s[1..][..i - 1];
      assert Filter(a, keep) == (if keep(s[0]) then [s[0]] else []) + Filter(a[1..], keep);
      assert Filter(b, keep) == (if keep(s[0]) then [s[0]] else []) + Filter(b[1..], keep);
      FilterSnoc(s[1..], i - 1, keep);
    }
  }

  /** Filtering a prefix keeps a prefix of what filtering the whole keeps. */
  lemma {:induction false} FilterPrefix<T>(s: seq<T>, i: nat, keep: T -> bool)
    requires i <= |s|
    decreases |s| - i
    ensures Filter(s[..i], keep) <= Filter(s, keep)
  {
    if i == |s| {
      assert s[..i] == s;
    } else {
      FilterSnoc(s, i, keep);
      FilterPrefix(s, i + 1, keep);
    }
  }
}
