/** A read-only snapshot of the file system the server reads, and the part
    of pathlib the core relies on: joining, lexical resolution, suffixes,
    existence tests and text reads. */
module FileSystem {
  import opened Text
  import opened Outcomes

  /** An absolute path as its segments; "/" is []. pathlib drops "" and "."
      segments when it builds a path, and keeps "..". */
  type Path = seq<string>

  /** What read_text() gives for a file: its decoded text (with universal
      newlines applied), or the message of the OSError/UnicodeDecodeError it
      raises. */
  datatype FileData = Readable(text: string) | Unreadable(reason: string)

  /** dirs: the directories other than "/", which always is one.
      files: the non-directory entries and their contents.
      listing: what iterdir() yields for a directory, in order; a directory
      without an entry here raises PermissionError when listed. */
  datatype Snapshot = Snapshot(dirs: set<Path>, files: map<Path, FileData>, listing: map<Path, seq<string>>)

  /** str(path) for an absolute path. */
  function PathString(p: Path): string
  {
    "/" + Join(p, "/")
  }

  /** The segments pathlib keeps when it parses a string. */
  function Segments(s: string): (r: seq<string>)
    ensures forall k :: 0 <= k < |r| ==> r[k] != "" && r[k] != "." && '/' !in r[k]
  {
    KeepSegments(Split(s, '/'))
  }

  function KeepSegments(parts: seq<string>): (r: seq<string>)
    requires forall k :: 0 <= k < |parts| ==> '/' !in parts[k]
    ensures forall k :: 0 <= k < |r| ==> r[k] != "" && r[k] != "." && '/' !in r[k]
    ensures |r| <= |parts|
  {
    if parts == [] then []
    else (if parts[0] == "" || parts[0] == "." then [] else [parts[0]]) + KeepSegments(parts[1..])
  }

  /** base / rel: a rel that starts with "/" replaces base. */
  function JoinPath(base: Path, rel: string): Path
  {
    if StartsWith(rel, "/") then Segments(rel) else base + Segments(rel)
  }

  /** A segment as iterdir() or a clean path has it. */
  predicate PlainSegment(s: string)
  {
    s != "" && s != "." && s != ".." && '/' !in s && '\0' !in s
  }

  predicate Plain(p: Path)
  {
    forall k :: 0 <= k < |p| ==> PlainSegment(p[k])
  }

  /** Path.resolve() without symbolic links: ".." removes the last segment
      (and stays at "/"), "." is skipped; a NUL character makes it raise
      ValueError, which is None here. */
  function Canon(p: Path): Option<Path>
  {
    CanonFrom([], p)
  }

  function CanonFrom(acc: Path, rest: seq<string>): Option<Path>
    decreases |rest|
  {
    if rest == [] then Some(acc)
    else if '\0' in rest[0] then None
    else if rest[0] == ".." then CanonFrom(if acc == [] then [] else acc[..|acc| - 1], rest[1..])
    else if rest[0] == "." then CanonFrom(acc, rest[1..])
    else CanonFrom(acc + [rest[0]], rest[1..])
  }

  lemma {:induction false} CanonFromPlain(acc: Path, rest: seq<string>)
    requires Plain(rest)
    ensures CanonFrom(acc, rest) == Some(acc + rest)
    decreases |rest|
  {
    if rest != [] {
      assert PlainSegment(rest[0]);
      assert Plain(rest[1..]) by {
        forall k | 0 <= k < |rest[1..]| ensures PlainSegment(rest[1..][k]) {
          assert rest[1..][k] == rest[k + 1];
        }
      }
      assert CanonFrom(acc, rest) == CanonFrom(acc + [rest[0]], rest[1..]);
      CanonFromPlain(acc + [rest[0]], rest[1..]);
      assert acc + [rest[0]] + rest[1..] == acc + rest;
    } else {
      assert acc + rest == acc;
    }
  }

  /** A path of plain segments is its own resolution. */
  lemma {:induction false} CanonPlain(p: Path)
    requires Plain(p)
    ensures Canon(p) == Some(p)
  {
    CanonFromPlain([], p);
    assert [] + p == p;
  }

  lemma {:induction false} CanonFromNul(acc: Path, rest: seq<string>, k: int)
    requires 0 <= k < |rest| && '\0' in rest[k]
    ensures CanonFrom(acc, rest) == None
    decreases |rest|
  {
    if '\0' !in rest[0] {
      var next := if rest[0] == ".." then (if acc == [] then [] else acc[..|acc| - 1])
                  else if rest[0] == "." then acc else acc + [rest[0]];
      assert rest[1..][k - 1] == rest[k];
      CanonFromNul(next, rest[1..], k - 1);
    }
  }

  /** Resolving a path with a NUL character in any segment fails. */
  lemma {:induction false} CanonNul(p: Path, k: int)
    requires 0 <= k < |p| && '\0' in p[k]
    ensures Canon(p) == None
  {
    CanonFromNul([], p, k);
  }

  // ---------------------------------------------------------------------
  // Queries on the snapshot, all through the resolved path.

  predicate IsDirectory(fs: Snapshot, c: Path)
  {
    c == [] || c in fs.dirs
  }

  predicate IsRegular(fs: Snapshot, c: Path)
  {
    !IsDirectory(fs, c) && c in fs.files
  }

  /** Path.exists() */
  predicate Exists(fs: Snapshot, p: Path)
  {
    Canon(p).Some? && (IsDirectory(fs, Canon(p).value) || IsRegular(fs, Canon(p).value))
  }

  /** Path.is_dir() */
  predicate IsDir(fs: Snapshot, p: Path)
  {
    Canon(p).Some? && IsDirectory(fs, Canon(p).value)
  }

  /** Path.is_file() */
  predicate IsFile(fs: Snapshot, p: Path)
  {
    Canon(p).Some? && IsRegular(fs, Canon(p).value)
  }

  /** The names iterdir() yields for a directory; [] where it raises. */
  function Names(fs: Snapshot, c: Path): seq<string>
  {
    if c in fs.listing then fs.listing[c] else []
  }

  /** Path.read_text(): the text, or the message of the error it raises. */
  function ReadText(fs: Snapshot, p: Path): (r: Result<string>)
    ensures r.Ok? ==> IsFile(fs, p)
    ensures !Exists(fs, p) ==> r.Err?
  {
    match Canon(p)
    case None => Err("embedded null byte")
    case Some(c) =>
      if IsDirectory(fs, c) then Err("[Errno 21] Is a directory: '" + PathString(p) + "'")
      else if c !in fs.files then Err("[Errno 2] No such file or directory: '" + PathString(p) + "'")
      else match fs.files[c]
        case Readable(t) => Ok(t)
        case Unreadable(reason) => Err(reason)
  }

  // ---------------------------------------------------------------------
  // Names and suffixes.

  /** path.name */
  function Name(p: Path): string
  {
    if p == [] then "" else p[|p| - 1]
  }

  /** Index of the last c in s, or -1 (str.rfind). */
  function RFind(s: string, c: char): (r: int)
    ensures -1 <= r < |s|
    ensures r >= 0 ==> s[r] == c
    ensures forall k :: r < k < |s| ==> s[k] != c
  {
    if s == [] then -1
    else if s[|s| - 1] == c then |s| - 1
    else RFind(s[..|s| - 1], c)
  }

  /** PurePath.suffix of a name: from its last dot, when that dot is neither
      the first nor the last character. */
  function Suffix(name: string): (r: string)
    ensures r == [] || (r[0] == '.' && |r| >= 2 && '.' !in r[1..] && EndsWith(name, r) && |r| < |name|)
  {
    var i := RFind(name, '.');
    if 0 < i < |name| - 1 then
      var tail := name[i + 1..];
      assert '.' !in tail by {
        forall k | 0 <= k < |tail| ensures tail[k] != '.' {
          assert tail[k] == name[i + 1 + k];
        }
      }
      assert name[i..][1..] == name[i + 1..];
      name[i..]
    else ""
  }

  /** The name without its suffix. */
  function Stem(name: string): string
  {
    name[..|name| - |Suffix(name)|]
  }

  /** Path.with_suffix(suf) for a path with a non-empty name. */
  function WithSuffix(p: Path, suf: string): Path
    requires p != []
  {
    p[..|p| - 1] + [Stem(p[|p| - 1]) + suf]
  }

  /** A dot-free tail after one leading dot, like ".mdx" and ".md". */
  predicate SimpleSuffix(suf: string)
  {
    |suf| >= 2 && suf[0] == '.' && '.' !in suf[1..]
  }

  /** Replacing the suffix of a non-empty name gives a name with exactly
      the new suffix, and the same leading part as before. */
  lemma {:induction false} WithSuffixName(p: Path, suf: string)
    requires p != [] && p[|p| - 1] != "" && SimpleSuffix(suf)
    ensures |WithSuffix(p, suf)| == |p|
    ensures WithSuffix(p, suf)[..|p| - 1] == p[..|p| - 1]
    ensures Suffix(Name(WithSuffix(p, suf))) == suf
  {
    var n := p[|p| - 1];
    var st := Stem(n);
    var m := st + suf;
    assert Name(WithSuffix(p, suf)) == m;
    assert st != "" by {
      var i := RFind(n, '.');
      if 0 < i < |n| - 1 { assert |st| == i; }
    }
    assert m[|st|] == '.';
    forall k | |st| < k < |m| ensures m[k] != '.' {
      assert m[k] == suf[k - |st|];
      assert suf[1..][k - |st| - 1] == suf[k - |st|];
    }
    assert RFind(m, '.') == |st| by {
      RFindAt(m, '.', |st|);
    }
  }

  lemma {:induction false} RFindAt(s: string, c: char, i: int)
    requires 0 <= i < |s| && s[i] == c
    requires forall k :: i < k < |s| ==> s[k] != c
    ensures RFind(s, c) == i
  {
  }

  /** p lies strictly below c. */
  predicate Below(c: Path, p: Path)
  {
    |p| > |c| && p[..|c|] == c
  }

  /** The documentation file names: suffix .mdx or .md. */
  predicate IsDocName(name: string)
  {
    Suffix(name) == ".mdx" || Suffix(name) == ".md"
  }

  // ---------------------------------------------------------------------
  // A bound on directory depth, for recursions over the snapshot.

  ghost function Height(ds: set<Path>): (h: nat)
    ensures forall p :: p in ds ==> |p| <= h
  {
    if ds == {} then 0
    else
      var p :| p in ds;
      var h := Height(ds - {p});
      if |p| > h then |p| else h
  }

  lemma {:induction false} ChildDepth(fs: Snapshot, c: Path, n: string)
    requires IsDirectory(fs, c + [n])
    ensures |c| + 1 <= Height(fs.dirs)
  {
    assert c + [n] in fs.dirs;
  }
}
