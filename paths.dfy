/** utils/paths.py: turning a documentation path into a location under the
    documentation root, the traversal guard, directory listings, and the
    nearest existing parent of a path that is not there. */
module Paths {
  import opened Text
  import opened Outcomes
  import opened FileSystem
  import opened Sorting

  /** A documentation root as the server has it: an absolute path below
      "/" made of plain segments. */
  predicate ValidBase(base: Path)
  {
    |base| > 0 && Plain(base)
  }

  // ---------------------------------------------------------------------
  // is_safe_path

  /** is_safe_path: both paths resolve and the resolved target's string
      starts with the resolved base's string. */
  function IsSafePath(base: Path, target: Path): bool
  {
    match (Canon(base), Canon(target))
    case (Some(b), Some(t)) => StartsWith(PathString(t), PathString(b))
    case _ => false
  }

  /** Whatever lies under the root is accepted. */
  lemma {:induction false} SafeWithin(base: Path, rel: Path)
    requires ValidBase(base) && Plain(base + rel)
    ensures IsSafePath(base, base + rel)
  {
    CanonPlain(base);
    CanonPlain(base + rel);
    if rel != [] {
      JoinConcat(base, rel, "/");
      assert PathString(base + rel) == PathString(base) + ("/" + Join(rel, "/"));
    } else {
      assert base + rel == base;
    }
  }

  /** The root and everything above it are rejected when strictly above:
      a target that resolves to a proper ancestor of the root. */
  lemma {:induction false} AncestorRejected(base: Path, target: Path, k: nat)
    requires ValidBase(base) && k < |base|
    requires Canon(target) == Some(base[..k])
    ensures !IsSafePath(base, target)
  {
    CanonPlain(base);
    if k == 0 {
      JoinStartsWithFirst(base, "/");
      assert |Join(base, "/")| >= 1;
    } else {
      assert base == base[..k] + base[k..];
      JoinConcat(base[..k], base[k..], "/");
    }
    assert |PathString(base[..k])| < |PathString(base)|;
  }

  /** A target with a NUL character is rejected (resolution raises). */
  lemma {:induction false} NulRejected(base: Path, target: Path, k: int)
    requires 0 <= k < |target| && '\0' in target[k]
    ensures !IsSafePath(base, target)
  {
    CanonNul(target, k);
  }

  /** The guard compares strings, not segments: a sibling of the root whose
      name extends the root's name passes although it is not inside the
      root. */
  lemma {:induction false} SiblingAccepted(parent: Path, name: string, more: string, f: string)
    requires ValidBase(parent + [name]) && more != "" && PlainSegment(name + more) && PlainSegment(f)
    ensures IsSafePath(parent + [name], parent + [name + more, f])
    ensures (parent + [name + more, f])[..|parent| + 1] != parent + [name]
  {
    var b := parent + [name];
    var t := parent + [name + more, f];
    assert Plain(t) by {
      forall k | 0 <= k < |t| ensures PlainSegment(t[k]) {
        if k < |parent| { assert t[k] == b[k]; }
      }
    }
    CanonPlain(b);
    CanonPlain(t);
    var tail := Join([name + more, f], "/");
    assert tail == (name + more) + "/" + Join([f], "/");
    assert tail[..|name|] == name;
    if parent == [] {
      assert Join(b, "/") == "" + name;
      assert Join(t, "/") == "" + tail;
      PrefixJoined("", name, tail);
    } else {
      JoinConcat(parent, [name], "/");
      JoinConcat(parent, [name + more, f], "/");
      PrefixJoined(Join(parent, "/") + "/", name, tail);
    }
    assert t[..|parent| + 1][|parent|] == name + more;
    assert |name + more| != |name|;
  }

  lemma {:induction false} PrefixJoined(p: string, name: string, tail: string)
    requires StartsWith(tail, name)
    ensures StartsWith("/" + (p + tail), "/" + (p + name))
  {
    assert ("/" + (p + tail))[..|"/" + (p + name)|] == "/" + (p + name);
  }

  // ---------------------------------------------------------------------
  // resolve_doc_path

  datatype Resolution = Resolution(path: Path, found: bool)

  /** The request path with slashes, then whitespace, stripped at both ends. */
  function CleanDocPath(doc: string): string
  {
    Strip(StripChars(doc, {'/'}))
  }

  /** resolve_doc_path: the path itself, then with .mdx, then with .md;
      the first that exists wins. */
  function ResolveDocPath(fs: Snapshot, doc: string, base: Path): (r: Resolution)
    requires ValidBase(base)
    ensures CleanDocPath(doc) == "" ==> r == Resolution(base, true)
    ensures CleanDocPath(doc) != "" && !r.found ==> r.path == JoinPath(base, CleanDocPath(doc))
    ensures CleanDocPath(doc) != "" && r.found ==> Exists(fs, r.path)
    ensures CleanDocPath(doc) != "" && !r.found && IsSafePath(base, r.path) ==> !Exists(fs, r.path)
  {
    var clean := CleanDocPath(doc);
    if clean == "" then Resolution(base, true)
    else
      var full := JoinPath(base, clean);
      if !IsSafePath(base, full) then Resolution(full, false)
      else
        SafeNonEmpty(base, full);
        var c := Candidates(full);
        var i := FirstExisting(fs, c);
        if i < |c| then Resolution(c[i], true) else Resolution(full, false)
  }

  /** An accepted target is not "/", so it has a name. */
  lemma {:induction false} SafeNonEmpty(base: Path, full: Path)
    requires ValidBase(base) && IsSafePath(base, full)
    ensures full != []
  {
    CanonPlain(base);
    JoinStartsWithFirst(base, "/");
  }

  /** The three candidates in the order they are tried. */
  function Candidates(full: Path): (r: seq<Path>)
    requires full != []
    ensures |r| == 3 && r[0] == full
  {
    [full, WithSuffix(full, ".mdx"), WithSuffix(full, ".md")]
  }

  /** The index of the first candidate that exists, |cands| when none does. */
  function FirstExisting(fs: Snapshot, cands: seq<Path>): (i: nat)
    ensures i <= |cands|
    ensures i < |cands| ==> Exists(fs, cands[i])
    ensures forall j :: 0 <= j < i ==> !Exists(fs, cands[j])
  {
    if cands == [] then 0
    else if Exists(fs, cands[0]) then 0
    else
      var k := FirstExisting(fs, cands[1..]);
      assert forall j :: 1 <= j < k + 1 ==> cands[j] == cands[1..][j - 1];
      k + 1
  }

  /** A target the guard rejects is reported before anything is looked
      up: the answer is the same whatever the snapshot holds. */
  lemma {:induction false} UnsafeBeforeLookup(fs1: Snapshot, fs2: Snapshot, doc: string, base: Path)
    requires ValidBase(base)
    requires CleanDocPath(doc) != "" && !IsSafePath(base, JoinPath(base, CleanDocPath(doc)))
    ensures ResolveDocPath(fs1, doc, base) == ResolveDocPath(fs2, doc, base)
      == Resolution(JoinPath(base, CleanDocPath(doc)), false)
  {
  }

  /** found holds exactly when the guard passes and one of the candidates
      exists, and the path is then the first candidate that exists. */
  lemma {:induction false} ResolveFound(fs: Snapshot, doc: string, base: Path)
    requires ValidBase(base) && CleanDocPath(doc) != ""
    ensures var full := JoinPath(base, CleanDocPath(doc));
      var r := ResolveDocPath(fs, doc, base);
      (r.found <==> IsSafePath(base, full) && full != [] && exists i :: 0 <= i < 3 && Exists(fs, Candidates(full)[i])) &&
      (r.found ==> exists i :: 0 <= i < 3 && r.path == Candidates(full)[i] && Exists(fs, r.path) &&
                     forall j :: 0 <= j < i ==> !Exists(fs, Candidates(full)[j]))
  {
    var full := JoinPath(base, CleanDocPath(doc));
    if IsSafePath(base, full) {
      SafeNonEmpty(base, full);
      var i := FirstExisting(fs, Candidates(full));
      if i < 3 {
        assert Exists(fs, Candidates(full)[i]);
      }
    }
  }

  /** No whitespace at either end, so strip() keeps the string. */
  predicate NoOuterSpace(s: string)
  {
    s != [] && !IsSpace(s[0]) && !IsSpace(s[|s| - 1])
  }

  /** A plain name as a request resolves to the entry of that name under
      the root, and the guard accepts it. */
  lemma {:induction false} PlainRequest(base: Path, name: string)
    requires ValidBase(base) && PlainSegment(name) && NoOuterSpace(name)
    ensures CleanDocPath(name) == name
    ensures JoinPath(base, name) == base + [name]
    ensures Plain(base + [name]) && Canon(base + [name]) == Some(base + [name])
    ensures IsSafePath(base, base + [name])
  {
    assert TrimLeft(name, {'/'}) == name;
    assert TrimRight(name, {'/'}) == name;
    assert TrimLeft(name, Whitespace) == name;
    assert TrimRight(name, Whitespace) == name;
    var i := FindChar(name, '/', 0);
    assert Split(name, '/') == [name];
    assert KeepSegments([name]) == [name] + KeepSegments([]);
    assert name[0] != '/';
    PlainSnoc(base, name);
    CanonPlain(base + [name]);
    SafeWithin(base, [name]);
  }

  lemma {:induction false} PlainSnoc(p: Path, name: string)
    requires Plain(p) && PlainSegment(name)
    ensures Plain(p + [name])
  {
    forall k | 0 <= k < |p + [name]| ensures PlainSegment((p + [name])[k]) {
      if k < |p| { assert (p + [name])[k] == p[k]; }
    }
  }

  lemma {:induction false} MdxNamePlain(name: string)
    requires PlainSegment(name) && NoOuterSpace(name)
    ensures PlainSegment(name + ".mdx") && NoOuterSpace(name + ".mdx")
  {
    var m := name + ".mdx";
    forall k | 0 <= k < |m| ensures m[k] != '/' && m[k] != '\0' {
      if k < |name| { assert m[k] == name[k]; } else { assert m[k] == ".mdx"[k - |name|]; }
    }
    assert m[0] == name[0];
    assert m[|m| - 1] == 'x';
    assert m != "." && m != ".." by { assert |m| > 4; }
  }

  /** A document stored as name.mdx is found both as name and as
      name.mdx, at the same location. */
  lemma {:induction false} SameDocumentWithOrWithoutSuffix(fs: Snapshot, name: string, base: Path)
    requires ValidBase(base) && PlainSegment(name) && NoOuterSpace(name) && '.' !in name
    requires !Exists(fs, base + [name])
    requires IsRegular(fs, base + [name + ".mdx"])
    ensures ResolveDocPath(fs, name, base) == Resolution(base + [name + ".mdx"], true)
    ensures ResolveDocPath(fs, name + ".mdx", base) == Resolution(base + [name + ".mdx"], true)
  {
    var m := name + ".mdx";
    MdxNamePlain(name);
    PlainRequest(base, name);
    PlainRequest(base, m);
    assert Suffix(name) == "" by {
      assert RFind(name, '.') == -1;
    }
    assert WithSuffix(base + [name], ".mdx") == base + [m];
    var c := Candidates(base + [name]);
    assert FirstExisting(fs, c[1..]) == 0;
    assert FirstExisting(fs, c) == 1;
    var d := Candidates(base + [m]);
    assert FirstExisting(fs, d) == 0;
  }

  lemma {:induction false} ThreeSegments(x: string, y: string)
    requires PlainSegment(x) && PlainSegment(y)
    ensures Join([x, "..", y], "/") == x + "/../" + y
    ensures Segments(x + "/../" + y) == [x, "..", y]
  {
    var parts := [x, "..", y];
    assert Join(parts, "/") == x + "/" + Join(parts[1..], "/");
    assert Join(parts[1..], "/") == ".." + "/" + Join(parts[2..], "/");
    assert x + "/" + (".." + "/" + y) == x + "/../" + y;
    SplitJoin(parts, '/');
    assert KeepSegments([y]) == [y] + KeepSegments([]);
    assert KeepSegments(["..", y]) == [".."] + KeepSegments([y]);
    assert KeepSegments(parts) == [x] + KeepSegments(["..", y]);
  }

  lemma {:induction false} CanonThroughParent(base: Path, x: string, y: string)
    requires Plain(base) && PlainSegment(x) && PlainSegment(y)
    ensures Canon(base + [x, "..", y]) == Some(base + [y])
  {
    CanonFromSplit(base, [x, "..", y]);
    assert CanonFrom(base, [x, "..", y]) == CanonFrom(base + [x], ["..", y]);
    assert (base + [x])[..|base + [x]| - 1] == base;
    assert CanonFrom(base + [x], ["..", y]) == CanonFrom(base, [y]);
    assert [y][1..] == [];
    assert CanonFrom(base, [y]) == CanonFrom(base + [y], []);
  }

  lemma {:induction false} DotDotRequest(base: Path, x: string, y: string)
    requires PlainSegment(x) && PlainSegment(y) && NoOuterSpace(x) && NoOuterSpace(y)
    ensures CleanDocPath(x + "/../" + y) == x + "/../" + y
    ensures JoinPath(base, x + "/../" + y) == base + [x, "..", y]
  {
    var s := x + "/../" + y;
    assert s[0] == x[0] && s[|s| - 1] == y[|y| - 1];
    StripCharsKeeps(s, {'/'});
    StripCharsKeeps(s, Whitespace);
    ThreeSegments(x, y);
    assert !StartsWith(s, "/");
  }

  /** A ".." segment in the request does not make it fail: it is resolved
      away before the guard, so "x/../y", with x an existing directory of
      the base, finds the document y. */
  lemma {:induction false} DotDotInsideFound(fs: Snapshot, base: Path, x: string, y: string)
    requires ValidBase(base)
    requires PlainSegment(x) && PlainSegment(y) && NoOuterSpace(x) && NoOuterSpace(y)
    requires IsDirectory(fs, base + [x])
    requires IsRegular(fs, base + [y])
    ensures ResolveDocPath(fs, x + "/../" + y, base) == Resolution(base + [x, "..", y], true)
  {
    DotDotRequest(base, x, y);
    var full := base + [x, "..", y];
    CanonThroughParent(base, x, y);
    PlainSnoc(base, y);
    SafeWithin(base, [y]);
    CanonPlain(base + [y]);
    assert IsSafePath(base, full);
    assert Exists(fs, full);
  }

  /** Resolving a plain prefix first and then the rest. */
  lemma {:induction false} CanonFromSplit(front: Path, rest: seq<string>)
    requires Plain(front)
    ensures CanonFrom([], front + rest) == CanonFrom(front, rest)
  {
    CanonFromPrefix([], front, rest);
    assert [] + front == front;
  }

  lemma {:induction false} CanonFromPrefix(acc: Path, front: Path, rest: seq<string>)
    requires Plain(front)
    ensures CanonFrom(acc, front + rest) == CanonFrom(acc + front, rest)
    decreases |front|
  {
    if front == [] {
      assert front + rest == rest;
      assert acc + front == acc;
    } else {
      assert PlainSegment(front[0]);
      assert (front + rest)[0] == front[0];
      assert (front + rest)[1..] == front[1..] + rest;
      assert Plain(front[1..]) by {
        forall k | 0 <= k < |front[1..]| ensures PlainSegment(front[1..][k]) {
          assert front[1..][k] == front[k + 1];
        }
      }
      CanonFromPrefix(acc + [front[0]], front[1..], rest);
      assert acc + [front[0]] + front[1..] == acc + front;
    }
  }

  // ---------------------------------------------------------------------
  // list_directory

  datatype DirectoryContents = DirectoryContents(dirs: seq<string>, files: seq<string>)

  /** The entries of c that are directories, each as its name and "/", in
      iterdir order. */
  function DirEntries(fs: Snapshot, c: Path, names: seq<string>): seq<string>
  {
    if names == [] then []
    else DirEntries(fs, c, names[..|names| - 1]) +
         (if IsDirectory(fs, c + [names[|names| - 1]]) then [names[|names| - 1] + "/"] else [])
  }

  /** An entry list_directory reports as a file: a regular file whose
      suffix is .mdx or .md. */
  predicate IsDocEntry(fs: Snapshot, c: Path, name: string)
  {
    IsRegular(fs, c + [name]) && IsDocName(name)
  }

  /** The entries of c that are documentation files, in iterdir order. */
  function DocEntries(fs: Snapshot, c: Path, names: seq<string>): seq<string>
  {
    if names == [] then []
    else DocEntries(fs, c, names[..|names| - 1]) +
         (if IsDocEntry(fs, c, names[|names| - 1]) then [names[|names| - 1]] else [])
  }

  /** What list_directory returns. */
  function Listing(fs: Snapshot, p: Path): DirectoryContents
  {
    if !IsDir(fs, p) then DirectoryContents([], [])
    else
      var c := Canon(p).value;
      DirectoryContents(SortStrings(DirEntries(fs, c, Names(fs, c))), SortStrings(DocEntries(fs, c, Names(fs, c))))
  }

  /** list_directory */
  method ListDirectory(fs: Snapshot, p: Path) returns (r: DirectoryContents)
    ensures r == Listing(fs, p)
  {
    if !IsDir(fs, p) {
      return DirectoryContents([], []);
    }
    var c := Canon(p).value;
    var names := Names(fs, c);
    var dirs: seq<string> := [];
    var files: seq<string> := [];
    for i := 0 to |names|
      invariant dirs == DirEntries(fs, c, names[..i])
      invariant files == DocEntries(fs, c, names[..i])
    {
      assert names[..i + 1][..i] == names[..i];
      var entry := c + [names[i]];
      if IsDirectory(fs, entry) {
        dirs := dirs + [names[i] + "/"];
      } else if IsRegular(fs, entry) && IsDocName(names[i]) {
        assert IsDocEntry(fs, c, names[i]);
        files := files + [names[i]];
      }
    }
    assert names[..|names|] == names;
    r := DirectoryContents(SortStrings(dirs), SortStrings(files));
  }

  lemma {:induction false} DirEntriesMembers(fs: Snapshot, c: Path, names: seq<string>)
    ensures forall x :: x in DirEntries(fs, c, names) <==>
      exists i :: 0 <= i < |names| && IsDirectory(fs, c + [names[i]]) && x == names[i] + "/"
  {
    if names != [] {
      var front := names[..|names| - 1];
      DirEntriesMembers(fs, c, front);
      forall x ensures x in DirEntries(fs, c, names) <==>
        exists i :: 0 <= i < |names| && IsDirectory(fs, c + [names[i]]) && x == names[i] + "/"
      {
        if exists i :: 0 <= i < |front| && IsDirectory(fs, c + [front[i]]) && x == front[i] + "/" {
          var i :| 0 <= i < |front| && IsDirectory(fs, c + [front[i]]) && x == front[i] + "/";
          assert names[i] == front[i];
        }
        if exists i :: 0 <= i < |names| && IsDirectory(fs, c + [names[i]]) && x == names[i] + "/" {
          var i :| 0 <= i < |names| && IsDirectory(fs, c + [names[i]]) && x == names[i] + "/";
          if i < |front| { assert names[i] == front[i]; }
        }
      }
    }
  }

  lemma {:induction false} DocEntriesMembers(fs: Snapshot, c: Path, names: seq<string>)
    ensures forall x :: x in DocEntries(fs, c, names) <==>
      exists i :: 0 <= i < |names| && IsDocEntry(fs, c, names[i]) && x == names[i]
  {
    forall x ensures x in DocEntries(fs, c, names) <==>
      exists i :: 0 <= i < |names| && IsDocEntry(fs, c, names[i]) && x == names[i]
    {
      if x in DocEntries(fs, c, names) {
        DocEntryFrom(fs, c, names, x);
      }
      if exists i :: 0 <= i < |names| && IsDocEntry(fs, c, names[i]) && x == names[i] {
        var i :| 0 <= i < |names| && IsDocEntry(fs, c, names[i]) && x == names[i];
        DocEntryHas(fs, c, names, i);
      }
    }
  }

  /** Each documentation entry is listed. */
  lemma {:induction false} DocEntryHas(fs: Snapshot, c: Path, names: seq<string>, i: int)
    requires 0 <= i < |names| && IsDocEntry(fs, c, names[i])
    ensures names[i] in DocEntries(fs, c, names)
  {
    var front := names[..|names| - 1];
    if i < |front| {
      assert front[i] == names[i];
      DocEntryHas(fs, c, front, i);
    }
  }

  /** Each listed file is a documentation entry. */
  lemma {:induction false} DocEntryFrom(fs: Snapshot, c: Path, names: seq<string>, x: string)
    requires x in DocEntries(fs, c, names)
    ensures exists i :: 0 <= i < |names| && IsDocEntry(fs, c, names[i]) && x == names[i]
  {
    var front := names[..|names| - 1];
    var last := names[|names| - 1];
    if !(IsDocEntry(fs, c, last) && x == last) {
      assert x in DocEntries(fs, c, front);
      DocEntryFrom(fs, c, front, x);
      var i :| 0 <= i < |front| && IsDocEntry(fs, c, front[i]) && x == front[i];
      assert names[i] == front[i];
    }
  }

  /** list_directory's promise: both lists sorted; the directories are
      exactly the sub-directories, with "/" appended; the files are exactly
      the regular .mdx/.md entries; anything that is not a directory lists
      as empty. */
  lemma {:induction false} ListingCorrect(fs: Snapshot, p: Path)
    ensures var r := Listing(fs, p);
      SortedStrings(r.dirs) && SortedStrings(r.files) &&
      (!IsDir(fs, p) ==> r.dirs == [] && r.files == []) &&
      (IsDir(fs, p) ==>
        var c := Canon(p).value;
        var names := Names(fs, c);
        (forall x :: x in r.dirs <==> exists i :: 0 <= i < |names| && IsDirectory(fs, c + [names[i]]) && x == names[i] + "/") &&
        (forall x :: x in r.files <==> exists i :: 0 <= i < |names| && IsDocEntry(fs, c, names[i]) && x == names[i]))
  {
    if IsDir(fs, p) {
      var c := Canon(p).value;
      var names := Names(fs, c);
      SortedMembers(DirEntries(fs, c, names));
      SortedMembers(DocEntries(fs, c, names));
      DirEntriesMembers(fs, c, names);
      DocEntriesMembers(fs, c, names);
    }
  }

  lemma {:induction false} SortedMembers(d: seq<string>)
    ensures SortedStrings(SortStrings(d))
    ensures forall x :: x in SortStrings(d) <==> x in d
  {
    SortStringsCorrect(d);
    assert forall x :: x in SortStrings(d) <==> x in multiset(d);
  }

  // ---------------------------------------------------------------------
  // find_nearest_directory

  /** The parts of the request path, as find_nearest_directory splits it. */
  function RequestParts(doc: string): seq<string>
  {
    Split(StripChars(doc, {'/'}), '/')
  }

  /** The location and label of the first k parts. */
  function PrefixLocation(base: Path, parts: seq<string>, k: nat): Path
    requires k <= |parts|
  {
    JoinPath(base, Join(parts[..k], "/"))
  }

  /** Specification of find_nearest_directory: the longest prefix of the
      parts that names a directory, or the root with an empty label. */
  function Nearest(fs: Snapshot, base: Path, parts: seq<string>): (Path, string)
  {
    if parts == [] then (base, "")
    else if IsDir(fs, JoinPath(base, Join(parts, "/"))) then (JoinPath(base, Join(parts, "/")), Join(parts, "/"))
    else Nearest(fs, base, parts[..|parts| - 1])
  }

  /** find_nearest_directory */
  method FindNearestDirectory(fs: Snapshot, doc: string, base: Path) returns (dir: Path, rel: string)
    ensures (dir, rel) == Nearest(fs, base, RequestParts(doc))
  {
    var parts := RequestParts(doc);
    while parts != []
      invariant Nearest(fs, base, parts) == Nearest(fs, base, RequestParts(doc))
      decreases |parts|
    {
      var testPath := JoinPath(base, Join(parts, "/"));
      if IsDir(fs, testPath) {
        return testPath, Join(parts, "/");
      }
      parts := parts[..|parts| - 1];
    }
    return base, "";
  }

  /** How many parts the nearest directory keeps. */
  function NearestLength(fs: Snapshot, base: Path, parts: seq<string>): (k: nat)
    ensures k <= |parts|
  {
    if parts == [] then 0
    else if IsDir(fs, JoinPath(base, Join(parts, "/"))) then |parts|
    else NearestLength(fs, base, parts[..|parts| - 1])
  }

  /** The nearest directory is the longest directory prefix: the first k
      parts name a directory (or k is 0 and the answer is the root with an
      empty label), and no longer prefix does. */
  lemma {:induction false} NearestIsLongestPrefix(fs: Snapshot, base: Path, parts: seq<string>) returns (k: nat)
    ensures k <= |parts|
    ensures Nearest(fs, base, parts) ==
      (if k == 0 then (base, "") else (PrefixLocation(base, parts, k), Join(parts[..k], "/")))
    ensures k > 0 ==> IsDir(fs, PrefixLocation(base, parts, k))
    ensures forall j :: k < j <= |parts| ==> !IsDir(fs, PrefixLocation(base, parts, j))
  {
    k := NearestLength(fs, base, parts);
    NearestPrefix(fs, base, parts);
    forall j | k < j <= |parts| ensures !IsDir(fs, PrefixLocation(base, parts, j)) {
      NearestNoLonger(fs, base, parts, j);
    }
  }

  /** The nearest directory is the prefix of NearestLength parts. */
  lemma {:induction false} NearestPrefix(fs: Snapshot, base: Path, parts: seq<string>)
    ensures var k := NearestLength(fs, base, parts);
      && Nearest(fs, base, parts) ==
        (if k == 0 then (base, "") else (PrefixLocation(base, parts, k), Join(parts[..k], "/")))
      && (k > 0 ==> IsDir(fs, PrefixLocation(base, parts, k)))
  {
    if parts != [] {
      var whole := JoinPath(base, Join(parts, "/"));
      assert parts[..|parts|] == parts;
      assert PrefixLocation(base, parts, |parts|) == whole;
      if !IsDir(fs, whole) {
        var front := parts[..|parts| - 1];
        NearestPrefix(fs, base, front);
        var k := NearestLength(fs, base, front);
        if k > 0 {
          PrefixOfFront(base, parts, k);
        }
      }
    }
  }

  /** No prefix longer than NearestLength parts names a directory. */
  lemma {:induction false} NearestNoLonger(fs: Snapshot, base: Path, parts: seq<string>, j: nat)
    requires NearestLength(fs, base, parts) < j <= |parts|
    ensures !IsDir(fs, PrefixLocation(base, parts, j))
  {
    assert parts[..|parts|] == parts;
    if j < |parts| {
      NearestNoLonger(fs, base, parts[..|parts| - 1], j);
      PrefixOfFront(base, parts, j);
    }
  }

  lemma {:induction false} PrefixOfFront(base: Path, parts: seq<string>, j: nat)
    requires j < |parts|
    ensures parts[..|parts| - 1][..j] == parts[..j]
    ensures PrefixLocation(base, parts[..|parts| - 1], j) == PrefixLocation(base, parts, j)
  {
    assert parts[..|parts| - 1][..j] == parts[..j];
  }

  // ---------------------------------------------------------------------
  // get_available_paths

  const NotPreparedHint := "Documentation not found. Run 'python -m agno_docs_mcp.prepare' to prepare docs."

  /** The lines get_available_paths joins. */
  function AvailablePathLines(l: DirectoryContents): (lines: seq<string>)
    ensures |lines| == 2 + (if l.dirs == [] then 0 else |l.dirs| + 2) + (if l.files == [] then 0 else |l.files| + 1)
    ensures lines[0] == "Available top-level paths:"
    ensures l.dirs != [] ==>
      (lines[2] == "Directories:" && forall i :: 0 <= i < |l.dirs| ==> lines[3 + i] == "- " + l.dirs[i])
    ensures var off := 2 + (if l.dirs == [] then 0 else |l.dirs| + 2);
      l.files != [] ==>
        (lines[off] == "Files:" && forall i :: 0 <= i < |l.files| ==> lines[off + 1 + i] == "- " + l.files[i])
  {
    var dirBlock := if l.dirs == [] then [] else ["Directories:"] + Bullets("- ", l.dirs, "") + [""];
    var fileBlock := if l.files == [] then [] else ["Files:"] + Bullets("- ", l.files, "");
    ["Available top-level paths:", ""] + dirBlock + fileBlock
  }

  /** get_available_paths */
  function AvailablePaths(fs: Snapshot, base: Path): (r: string)
    ensures !Exists(fs, base) ==> r == NotPreparedHint
    ensures Exists(fs, base) ==> r == Join(AvailablePathLines(Listing(fs, base)), "\n")
  {
    if !Exists(fs, base) then NotPreparedHint
    else Join(AvailablePathLines(Listing(fs, base)), "\n")
  }

  /** No line holds a newline. */
  predicate SingleLines(lines: seq<string>)
  {
    forall k :: 0 <= k < |lines| ==> '\n' !in lines[k]
  }

  /** Reading the text back line by line gives the listing's lines: the heading, then each
      directory and each file of the root as a "- " bullet, when no name holds a newline. */
  lemma AvailablePathsLines(fs: Snapshot, base: Path)
    requires Exists(fs, base)
    requires SingleLines(Listing(fs, base).dirs) && SingleLines(Listing(fs, base).files)
    ensures Split(AvailablePaths(fs, base), '\n') == AvailablePathLines(Listing(fs, base))
  {
    var l := Listing(fs, base);
    var dirBlock := if l.dirs == [] then [] else ["Directories:"] + Bullets("- ", l.dirs, "") + [""];
    var fileBlock := if l.files == [] then [] else ["Files:"] + Bullets("- ", l.files, "");
    BulletLines(l.dirs);
    BulletLines(l.files);
    SingleLinesJoin(["Available top-level paths:", ""], dirBlock);
    SingleLinesJoin(["Available top-level paths:", ""] + dirBlock, fileBlock);
    assert AvailablePathLines(l) == ["Available top-level paths:", ""] + dirBlock + fileBlock;
    SplitJoin(AvailablePathLines(l), '\n');
  }

  lemma BulletLines(items: seq<string>)
    requires SingleLines(items)
    ensures items != [] ==> SingleLines(["Directories:"] + Bullets("- ", items, "") + [""])
    ensures items != [] ==> SingleLines(["Files:"] + Bullets("- ", items, ""))
  {
    var b := Bullets("- ", items, "");
    forall k | 0 <= k < |b|
      ensures '\n' !in b[k]
    {
      assert b[k] == "- " + items[k] + "";
    }
    SingleLinesJoin(["Directories:"], b);
    SingleLinesJoin(["Directories:"] + b, [""]);
    SingleLinesJoin(["Files:"], b);
  }

  lemma SingleLinesJoin(a: seq<string>, b: seq<string>)
    requires SingleLines(a) && SingleLines(b)
    ensures SingleLines(a + b)
  {
    forall k | 0 <= k < |a + b|
      ensures '\n' !in (a + b)[k]
    {
      if k < |a| { assert (a + b)[k] == a[k]; } else { assert (a + b)[k] == b[k - |a|]; }
    }
  }
}
