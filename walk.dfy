/** walk_mdx_files (utils/search.py): every .mdx/.md file under a root, in
    the order a depth-first walk over iterdir() meets them, cached per root
    for the life of the process. */
module Walk {
  import opened Text
  import opened Outcomes
  import opened FileSystem
  import opened Paths
  import opened Sorting

  /** How far below c the snapshot still has directories: the walk's
      termination measure. */
  ghost function Room(fs: Snapshot, c: Path): nat
  {
    if |c| <= Height(fs.dirs) then Height(fs.dirs) - |c| else 0
  }

  /** A file the walk from c reports: a regular .mdx/.md file strictly
      below c. */
  predicate Found(fs: Snapshot, c: Path, p: Path)
  {
    |p| > |c| && p[..|c|] == c && IsRegular(fs, p) && IsDocName(Name(p))
  }

  /** _scan_dir(c): the files found below c, in walk order. A directory
      that cannot be listed contributes nothing. */
  function Scan(fs: Snapshot, c: Path): (r: seq<Path>)
    ensures forall i :: 0 <= i < |r| ==> Found(fs, c, r[i])
    decreases Room(fs, c), 2, 0
  {
    ScanEntries(fs, c, Names(fs, c))
  }

  /** The files found through the given entries of c, in order. */
  function ScanEntries(fs: Snapshot, c: Path, names: seq<string>): (r: seq<Path>)
    ensures forall i :: 0 <= i < |r| ==> Found(fs, c, r[i])
    decreases Room(fs, c), 1, |names|
  {
    if names == [] then []
    else ScanEntries(fs, c, names[..|names| - 1]) + Entry(fs, c, names[|names| - 1])
  }

  /** One entry: a directory is walked, a documentation file is reported,
      anything else is skipped. */
  function Entry(fs: Snapshot, c: Path, name: string): (r: seq<Path>)
    ensures forall i :: 0 <= i < |r| ==> Found(fs, c, r[i])
    decreases Room(fs, c), 0, 0
  {
    if IsDirectory(fs, c + [name]) then
      ChildDepth(fs, c, name);
      var sub := Scan(fs, c + [name]);
      assert forall i :: 0 <= i < |sub| ==> sub[i][..|c|] == c by {
        forall i | 0 <= i < |sub| ensures sub[i][..|c|] == c {
          assert sub[i][..|c| + 1][..|c|] == sub[i][..|c|];
          assert (c + [name])[..|c|] == c;
        }
      }
      sub
    else if IsDocEntry(fs, c, name) then
      assert Name(c + [name]) == name;
      assert (c + [name])[..|c|] == c;
      [c + [name]]
    else []
  }

  /** Every documentation file listed directly in a directory is found by
      the walk of that directory. */
  lemma {:induction false} DirectFilesFound(fs: Snapshot, c: Path, names: seq<string>, k: int)
    requires 0 <= k < |names| && IsDocEntry(fs, c, names[k])
    ensures c + [names[k]] in ScanEntries(fs, c, names)
    decreases |names|
  {
    var front := names[..|names| - 1];
    if k < |names| - 1 {
      assert front[k] == names[k];
      DirectFilesFound(fs, c, front, k);
    } else {
      assert !IsDirectory(fs, c + [names[k]]);
      assert Entry(fs, c, names[k]) == [c + [names[k]]];
    }
  }

  // ---------------------------------------------------------------------
  // Which files the walk finds, and that it finds each once.

  /** The route from c down to p runs through listings: c lists p's next
      segment, and each path strictly between c and p is a directory that
      lists the segment after it. */
  predicate Reached(fs: Snapshot, c: Path, p: Path)
  {
    |p| > |c| && p[..|c|] == c && p[|c|] in Names(fs, c) && Descends(fs, c, p)
  }

  predicate Descends(fs: Snapshot, c: Path, p: Path)
  {
    forall j :: |c| < j < |p| ==> IsDirectory(fs, p[..j]) && p[j] in Names(fs, p[..j])
  }

  /** Every file the walk yields is reached from c through listings. */
  lemma {:induction false} ScanSound(fs: Snapshot, c: Path, p: Path)
    requires p in Scan(fs, c)
    ensures Reached(fs, c, p)
    decreases Room(fs, c), 2, 0
  {
    ScanEntriesSound(fs, c, Names(fs, c), p);
  }

  lemma {:induction false} ScanEntriesSound(fs: Snapshot, c: Path, names: seq<string>, p: Path)
    requires p in ScanEntries(fs, c, names)
    ensures |p| > |c| && p[..|c|] == c && p[|c|] in names && Descends(fs, c, p)
    decreases Room(fs, c), 1, |names|
  {
    var front := names[..|names| - 1];
    if p in ScanEntries(fs, c, front) {
      ScanEntriesSound(fs, c, front, p);
    } else {
      EntrySound(fs, c, names[|names| - 1], p);
    }
  }

  lemma {:induction false} EntrySound(fs: Snapshot, c: Path, n: string, p: Path)
    requires p in Entry(fs, c, n)
    ensures |p| > |c| && p[..|c|] == c && p[|c|] == n && Descends(fs, c, p)
    decreases Room(fs, c), 0, 0
  {
    var d := c + [n];
    if IsDirectory(fs, d) {
      ChildDepth(fs, c, n);
      ScanSound(fs, d, p);
      assert p[..|c| + 1] == d;
      assert p[..|c|] == p[..|c| + 1][..|c|];
      assert p[|c|] == p[..|c| + 1][|c|];
      forall j | |c| < j < |p| ensures IsDirectory(fs, p[..j]) && p[j] in Names(fs, p[..j]) {
        if j == |c| + 1 {
          assert p[..j] == d;
        }
      }
    } else {
      assert p == d;
    }
  }

  /** Every documentation file reached from c through listings is one the
      walk yields. */
  lemma {:induction false} ScanComplete(fs: Snapshot, c: Path, p: Path)
    requires Found(fs, c, p) && Reached(fs, c, p)
    ensures p in Scan(fs, c)
    decreases |p| - |c|, 1
  {
    var names := Names(fs, c);
    var k :| 0 <= k < |names| && names[k] == p[|c|];
    EntryComplete(fs, c, names[k], p);
    EntryInEntries(fs, c, names, k, p);
  }

  lemma {:induction false} EntryComplete(fs: Snapshot, c: Path, n: string, p: Path)
    requires Found(fs, c, p) && |p| > |c| && p[|c|] == n && Descends(fs, c, p)
    ensures p in Entry(fs, c, n)
    decreases |p| - |c|, 0
  {
    var d := c + [n];
    assert p[..|c| + 1] == d;
    if |p| == |c| + 1 {
      assert p == d;
      assert Name(p) == n;
    } else {
      assert p[..|c| + 1] == d && IsDirectory(fs, p[..|c| + 1]);
      ChildDepth(fs, c, n);
      assert p[..|d|] == d;
      assert p[|d|] in Names(fs, d);
      assert Descends(fs, d, p);
      ScanComplete(fs, d, p);
    }
  }

  /** What one entry yields is part of what the entries yield. */
  lemma {:induction false} EntryInEntries(fs: Snapshot, c: Path, names: seq<string>, k: int, p: Path)
    requires 0 <= k < |names| && p in Entry(fs, c, names[k])
    ensures p in ScanEntries(fs, c, names)
    decreases |names|
  {
    var front := names[..|names| - 1];
    if k < |names| - 1 {
      assert front[k] == names[k];
      EntryInEntries(fs, c, front, k, p);
    }
  }

  /** The walk yields exactly the documentation files reached from c. */
  lemma {:induction false} ScanMembers(fs: Snapshot, c: Path)
    ensures forall p :: p in Scan(fs, c) <==> Found(fs, c, p) && Reached(fs, c, p)
  {
    forall p ensures p in Scan(fs, c) <==> Found(fs, c, p) && Reached(fs, c, p) {
      if p in Scan(fs, c) {
        ScanSound(fs, c, p);
      } else if Found(fs, c, p) && Reached(fs, c, p) {
        ScanComplete(fs, c, p);
      }
    }
  }

  /** iterdir() names each entry of a directory once. */
  predicate DistinctListings(fs: Snapshot)
  {
    forall d :: d in fs.listing ==> NoDuplicates(fs.listing[d])
  }

  /** With iterdir() naming each entry once, the walk yields no file
      twice. */
  lemma {:induction false} ScanDistinct(fs: Snapshot, c: Path)
    requires DistinctListings(fs)
    ensures NoDuplicates(Scan(fs, c))
    decreases Room(fs, c), 2, 0
  {
    ScanEntriesDistinct(fs, c, Names(fs, c));
  }

  lemma {:induction false} ScanEntriesDistinct(fs: Snapshot, c: Path, names: seq<string>)
    requires DistinctListings(fs) && NoDuplicates(names)
    ensures NoDuplicates(ScanEntries(fs, c, names))
    decreases Room(fs, c), 1, |names|
  {
    if names != [] {
      var front, n := names[..|names| - 1], names[|names| - 1];
      assert NoDuplicates(front);
      assert n !in front;
      ScanEntriesDistinct(fs, c, front);
      EntryDistinct(fs, c, n);
      var a, b := ScanEntries(fs, c, front), Entry(fs, c, n);
      forall i, j | 0 <= i < |a| && 0 <= j < |b| ensures a[i] != b[j] {
        ScanEntriesSound(fs, c, front, a[i]);
        EntrySound(fs, c, n, b[j]);
      }
      DistinctConcat(a, b);
    }
  }

  lemma {:induction false} EntryDistinct(fs: Snapshot, c: Path, n: string)
    requires DistinctListings(fs)
    ensures NoDuplicates(Entry(fs, c, n))
    decreases Room(fs, c), 0, 0
  {
    if IsDirectory(fs, c + [n]) {
      ChildDepth(fs, c, n);
      ScanDistinct(fs, c + [n]);
    }
  }

  /** The snapshot's listings agree with its entries below c: whatever
      exists below c sits in a directory, and that directory's listing,
      when it has one, names it. */
  ghost predicate ListsChildren(fs: Snapshot, c: Path)
  {
    forall p {:trigger Below(c, p)} :: Below(c, p) && (p in fs.dirs || p in fs.files) ==>
      IsDirectory(fs, p[..|p| - 1]) && (p[..|p| - 1] in fs.listing ==> p[|p| - 1] in fs.listing[p[..|p| - 1]])
  }

  /** Every directory at or below c can be listed. */
  predicate Listable(fs: Snapshot, c: Path)
  {
    forall d :: d in fs.dirs && |c| <= |d| && d[..|c|] == c ==> d in fs.listing
  }

  /** In a snapshot whose listings agree with its entries and can all be
      read, every entry below c is reached from c. */
  lemma {:induction false} ExistingReached(fs: Snapshot, c: Path, p: Path)
    requires ListsChildren(fs, c) && Listable(fs, c) && c in fs.listing
    requires Below(c, p) && (p in fs.dirs || p in fs.files)
    ensures Reached(fs, c, p)
  {
    assert p[..|p|] == p;
    AncestorsListed(fs, c, p, |p|);
  }

  lemma {:induction false} AncestorsListed(fs: Snapshot, c: Path, p: Path, j: int)
    requires ListsChildren(fs, c) && Listable(fs, c) && c in fs.listing
    requires |p| >= j > |c| && p[..|c|] == c && (p[..j] in fs.dirs || p[..j] in fs.files)
    ensures p[|c|] in Names(fs, c)
    ensures forall i :: |c| < i < j ==> IsDirectory(fs, p[..i]) && p[i] in Names(fs, p[..i])
    decreases j
  {
    if j - 1 == |c| {
      ParentListed(fs, c, p, j);
      assert p[..j - 1] == c;
    } else {
      ParentListed(fs, c, p, j);
      AncestorsListed(fs, c, p, j - 1);
    }
  }

  /** The step of AncestorsListed: the parent of p[..j] is a listed
      directory naming p[j - 1]. */
  lemma {:induction false} ParentListed(fs: Snapshot, c: Path, p: Path, j: int)
    requires ListsChildren(fs, c) && Listable(fs, c) && c in fs.listing
    requires |p| >= j > |c| && p[..|c|] == c && (p[..j] in fs.dirs || p[..j] in fs.files)
    ensures IsDirectory(fs, p[..j - 1]) && p[..j - 1] in fs.listing
    ensures p[j - 1] in Names(fs, p[..j - 1])
    ensures j - 1 > |c| ==> p[..j - 1] in fs.dirs
  {
    var q, r := p[..j], p[..j - 1];
    assert q[..|c|] == c;
    assert q[..|q| - 1] == r && q[|q| - 1] == p[j - 1];
    InListing(fs, c, q);
    if j - 1 == |c| {
      assert r == c;
    } else {
      assert r[..|c|] == c;
      DirListed(fs, c, r);
    }
  }

  lemma {:induction false} InListing(fs: Snapshot, c: Path, q: Path)
    requires ListsChildren(fs, c) && Below(c, q) && (q in fs.dirs || q in fs.files)
    ensures IsDirectory(fs, q[..|q| - 1])
    ensures q[..|q| - 1] in fs.listing ==> q[|q| - 1] in fs.listing[q[..|q| - 1]]
  {
  }

  lemma {:induction false} DirListed(fs: Snapshot, c: Path, d: Path)
    requires Listable(fs, c) && IsDirectory(fs, d) && |d| > |c| && d[..|c|] == c
    ensures d in fs.dirs && d in fs.listing
  {
  }

  /** The .mdx/.md regular files strictly below c. */
  function DocFiles(fs: Snapshot, c: Path): set<Path>
  {
    set p | p in fs.files && Found(fs, c, p)
  }

  /** In a snapshot whose listings name each entry once, agree with its
      entries and can all be read, the walk of c yields every .mdx/.md
      file below c, at any depth, exactly once. */
  lemma {:induction false} ScanExact(fs: Snapshot, c: Path)
    requires DistinctListings(fs) && ListsChildren(fs, c) && Listable(fs, c) && c in fs.listing
    ensures forall p :: p in Scan(fs, c) <==> Found(fs, c, p)
    ensures NoDuplicates(Scan(fs, c))
    ensures |Scan(fs, c)| == |DocFiles(fs, c)|
  {
    ScanMembers(fs, c);
    forall p | Found(fs, c, p) ensures Reached(fs, c, p) {
      ExistingReached(fs, c, p);
    }
    ScanDistinct(fs, c);
    DistinctCard(Scan(fs, c));
    assert (set p | p in Scan(fs, c)) == DocFiles(fs, c);
  }

  /** walk_mdx_files without the cache: iterdir() on a root that is not a
      directory raises, and the error leaves the walk. */
  function WalkFiles(fs: Snapshot, base: Path): (r: Result<seq<Path>>)
    ensures r.Ok? <==> IsDirectory(fs, base)
    ensures r.Ok? ==> forall i :: 0 <= i < |r.value| ==> Found(fs, base, r.value[i])
  {
    if IsDirectory(fs, base) then Ok(Scan(fs, base))
    else if IsRegular(fs, base) then Err("[Errno 20] Not a directory: '" + PathString(base) + "'")
    else Err("[Errno 2] No such file or directory: '" + PathString(base) + "'")
  }

  /** Distinct plain paths have distinct strings, so a cache keyed by
      str(path) never confuses two roots. */
  lemma {:induction false} PathStringInjective(p: Path, q: Path)
    requires Plain(p) && Plain(q) && PathString(p) == PathString(q)
    ensures p == q
  {
    assert Join(p, "/") == PathString(p)[1..];
    assert Join(q, "/") == PathString(q)[1..];
    if p != [] && q != [] {
      PlainNoSlash(p);
      PlainNoSlash(q);
      SplitJoin(p, '/');
      SplitJoin(q, '/');
    }
  }

  lemma {:induction false} PlainNoSlash(p: Path)
    requires Plain(p)
    ensures forall k :: 0 <= k < |p| ==> '/' !in p[k]
  {
    forall k | 0 <= k < |p| ensures '/' !in p[k] {
      assert PlainSegment(p[k]);
    }
  }

  /** The cache of walk_mdx_files, keyed by str(base_dir). */
  class MdxFileCache {
    var entries: map<string, seq<Path>>

    /** Every cached root is a directory and holds exactly its walk. */
    ghost predicate Valid(fs: Snapshot)
      reads this
    {
      forall base :: Plain(base) && PathString(base) in entries ==>
        IsDirectory(fs, base) && entries[PathString(base)] == Scan(fs, base)
    }

    constructor ()
      ensures entries == map[]
    {
      entries := map[];
    }

    /** walk_mdx_files: a repeated root is answered from the cache without
      a new scan; a new one is walked and, when the walk succeeds,
      cached. */
    method WalkMdxFiles(fs: Snapshot, base: Path) returns (r: Result<seq<Path>>)
      requires Plain(base) && Valid(fs)
      modifies this
      ensures Valid(fs)
      ensures r == WalkFiles(fs, base)
      ensures PathString(base) in old(entries) ==> r == Ok(old(entries)[PathString(base)]) && entries == old(entries)
      ensures PathString(base) !in old(entries) && r.Ok? ==> entries == old(entries)[PathString(base) := r.value]
      ensures PathString(base) !in old(entries) && r.Err? ==> entries == old(entries)
    {
      var key := PathString(base);
      if key in entries {
        return Ok(entries[key]);
      }
      if !IsDirectory(fs, base) {
        return WalkFiles(fs, base);
      }
      var found := ScanDir(fs, base);
      entries := entries[key := found];
      forall b | Plain(b) && PathString(b) in entries
        ensures IsDirectory(fs, b) && entries[PathString(b)] == Scan(fs, b)
      {
        if PathString(b) == key {
          PathStringInjective(b, base);
        }
      }
      return Ok(found);
    }
  }

  /** _scan_dir: iterdir() in order, recursing into directories. */
  method ScanDir(fs: Snapshot, c: Path) returns (found: seq<Path>)
    ensures found == Scan(fs, c)
    decreases Room(fs, c)
  {
    var names := if c in fs.listing then fs.listing[c] else [];
    found := [];
    for i := 0 to |names|
      invariant found == ScanEntries(fs, c, names[..i])
    {
      var name := names[i];
      assert names[..i + 1][..i] == names[..i];
      if IsDirectory(fs, c + [name]) {
        ChildDepth(fs, c, name);
        var sub := ScanDir(fs, c + [name]);
        found := found + sub;
      } else if IsDocEntry(fs, c, name) {
        found := found + [c + [name]];
      }
    }
    assert names[..|names|] == names;
  }
}
