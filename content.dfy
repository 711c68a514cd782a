/** read_mdx_file and the markdown builders of utils/content.py. */
module Content {
  import opened Text
  import opened Outcomes
  import opened FileSystem
  import opened Frontmatter
  import opened Snippets
  import opened Paths

  /** The default max_depth of resolve_snippets. */
  const SnippetDepth := 3

  /** What read_mdx_file returns: the header and the text after it. */
  datatype Document = Document(header: Header, body: string)

  /** read_mdx_file run against a snippet cache: the document and the cache
      afterwards. */
  function ReadMdx(yaml: YamlLoader, fs: Snapshot, snippetDir: Path, p: Path, resolveTags: bool, cache: Cache): (r: (Document, Cache))
    ensures ReadText(fs, p).Err? ==> r == (Document(map[], "Error reading file: " + ReadText(fs, p).msg), cache)
    ensures ReadText(fs, p).Ok? ==> r.0.header == ParseFrontmatter(yaml, ReadText(fs, p).value).0
    ensures ReadText(fs, p).Ok? && !resolveTags ==> r == (Document(r.0.header, Body(ReadText(fs, p).value)), cache)
    ensures Extends(cache, r.1) && AddsOnlyLoadable(fs, snippetDir, cache, r.1)
  {
    match ReadText(fs, p)
    case Err(m) => (Document(map[], "Error reading file: " + m), cache)
    case Ok(text) =>
      var (h, body) := ParseFrontmatter(yaml, text);
      BodyOfParse(yaml, text);
      if resolveTags then
        var (resolved, c) := Resolve(fs, snippetDir, body, SnippetDepth, cache);
        (Document(h, resolved), c)
      else (Document(h, body), cache)
  }

  /** A file without frontmatter or snippet tags reads back as its text. */
  lemma {:induction false} PlainFileReadsBack(yaml: YamlLoader, fs: Snapshot, snippetDir: Path, p: Path, resolveTags: bool, cache: Cache)
    requires ReadText(fs, p).Ok? && !StartsWith(ReadText(fs, p).value, "---")
    requires var t := ReadText(fs, p).value; forall k :: 0 <= k < |t| ==> MatchTag(t, k).None?
    ensures ReadMdx(yaml, fs, snippetDir, p, resolveTags, cache) == (Document(map[], ReadText(fs, p).value), cache)
  {
    var t := ReadText(fs, p).value;
    NoTagResolve(fs, snippetDir, t, SnippetDepth, cache);
  }

  /** frontmatter.get("title", fallback) */
  function TitleOf(h: Header, fallback: string): string
  {
    if "title" in h then h["title"].text else fallback
  }

  /** `if description:` with the default "". */
  predicate ShowsDescription(h: Header)
  {
    "description" in h && h["description"].truthy
  }

  /** The lines format_file_content joins. */
  function FileContentLines(doc: Document, name: string, rel: string): (lines: seq<string>)
    ensures |lines| == if ShowsDescription(doc.header) then 5 else 4
    ensures lines[0] == "# " + TitleOf(doc.header, name)
    ensures lines[1] == "*File: `" + rel + "`*"
    ensures ShowsDescription(doc.header) ==> lines[2] == "*" + doc.header["description"].text + "*"
    ensures lines[|lines| - 2] == "" && lines[|lines| - 1] == Strip(doc.body)
  {
    ["# " + TitleOf(doc.header, name), "*File: `" + rel + "`*"]
      + (if ShowsDescription(doc.header) then ["*" + doc.header["description"].text + "*"] else [])
      + ["", Strip(doc.body)]
  }

  /** The heading line of a directory listing. */
  function ListingTitle(rel: string): string
  {
    "Directory contents of `" + (if rel == "" then "/" else rel) + "`:"
  }

  /** A titled bullet list followed by a blank line, or a notice and a
      blank line when there are no items. */
  function Block(title: string, notice: string, items: seq<string>): (b: seq<string>)
    ensures |b| == if items == [] then 2 else |items| + 2
    ensures b[0] == (if items == [] then notice else title)
    ensures items != [] ==> forall i :: 0 <= i < |items| ==> b[1 + i] == "- `" + items[i] + "`"
  {
    if items == [] then [notice, ""] else [title] + Bullets("- `", items, "`") + [""]
  }

  /** The lines of format_directory_listing before the file contents. */
  function ListingHead(rel: string, l: DirectoryContents, includeContents: bool): (lines: seq<string>)
    ensures |lines| == 2 + (if l.dirs == [] then 2 else |l.dirs| + 2) + (if l.files == [] then 2 else |l.files| + 2)
      + (if includeContents && l.files != [] then 4 else 0)
    ensures lines[0] == ListingTitle(rel) && lines[1] == ""
  {
    [ListingTitle(rel), ""]
      + Block("**Subdirectories:**", "No subdirectories.", l.dirs)
      + Block("**Files in this directory:**", "No files in this directory.", l.files)
      + (if includeContents && l.files != [] then ["---", "", "**Contents of all files in this directory:**", ""] else [])
  }

  /** The listing names every subdirectory, then every file, one bullet
      each, or says there are none. */
  lemma {:induction false} ListingHeadLines(rel: string, l: DirectoryContents, includeContents: bool)
    ensures var lines := ListingHead(rel, l, includeContents);
      (l.dirs == [] ==> lines[2] == "No subdirectories.")
      && (l.dirs != [] ==> lines[2] == "**Subdirectories:**")
      && (forall i :: 0 <= i < |l.dirs| ==> lines[3 + i] == "- `" + l.dirs[i] + "`")
    ensures var lines := ListingHead(rel, l, includeContents);
      var off := 2 + (if l.dirs == [] then 2 else |l.dirs| + 2);
      (l.files == [] ==> lines[off] == "No files in this directory.")
      && (l.files != [] ==> lines[off] == "**Files in this directory:**")
      && (forall i :: 0 <= i < |l.files| ==> lines[off + 1 + i] == "- `" + l.files[i] + "`")
  {
    var a := [ListingTitle(rel), ""];
    var d := Block("**Subdirectories:**", "No subdirectories.", l.dirs);
    var f := Block("**Files in this directory:**", "No files in this directory.", l.files);
    var c := if includeContents && l.files != [] then ["---", "", "**Contents of all files in this directory:**", ""] else [];
    assert ListingHead(rel, l, includeContents) == a + d + f + c;
    BlockAt(a, d, f, c, l.dirs, 0);
    BlockAt(a, d, f, c, l.files, |a| + |d|);
  }

  /** A block of bullets placed at offset off of the listing. */
  lemma {:induction false} BlockAt(a: seq<string>, d: seq<string>, f: seq<string>, c: seq<string>, items: seq<string>, off: nat)
    requires off == 0 || off == |a| + |d|
    requires var b := if off == 0 then d else f;
      |b| == (if items == [] then 2 else |items| + 2)
      && forall i :: 0 <= i < |items| ==> b[1 + i] == "- `" + items[i] + "`"
    ensures var lines := a + d + f + c;
      var b := if off == 0 then d else f;
      var at := if off == 0 then |a| else off;
      lines[at] == b[0]
      && forall i :: 0 <= i < |items| ==> lines[at + 1 + i] == "- `" + items[i] + "`"
  {
    var lines := a + d + f + c;
    var b := if off == 0 then d else f;
    var at := if off == 0 then |a| else off;
    HeadIndex(a, d, f, c);
    forall i | 0 <= i < |items| ensures lines[at + 1 + i] == "- `" + items[i] + "`" {
      assert lines[at + (1 + i)] == b[1 + i];
    }
  }

  /** Where the blocks of a listing sit in their concatenation. */
  lemma {:induction false} HeadIndex(a: seq<string>, d: seq<string>, f: seq<string>, c: seq<string>)
    ensures var lines := a + d + f + c;
      (forall i :: 0 <= i < |a| ==> lines[i] == a[i])
      && (forall i :: 0 <= i < |d| ==> lines[|a| + i] == d[i])
      && (forall i :: 0 <= i < |f| ==> lines[|a| + |d| + i] == f[i])
  {
  }

  /** The seven lines one file contributes to a directory listing. */
  function FileSection(doc: Document, name: string, rel: string): (lines: seq<string>)
    ensures |lines| == 7
    ensures lines[0] == "## " + TitleOf(doc.header, name)
    ensures lines[1] == "*File: `" + rel + "/" + name + "`*"
    ensures lines[3] == Strip(doc.body) && lines[5] == "---"
  {
    ["## " + TitleOf(doc.header, name), "*File: `" + rel + "/" + name + "`*", "", Strip(doc.body), "", "---", ""]
  }

  /** The sections of the named files, read in order through the cache. */
  function Sections(yaml: YamlLoader, fs: Snapshot, snippetDir: Path, dir: Path, rel: string, names: seq<string>, cache: Cache): (r: (seq<string>, Cache))
    ensures Extends(cache, r.1) && AddsOnlyLoadable(fs, snippetDir, cache, r.1)
  {
    if names == [] then ([], cache)
    else
      var (prev, c1) := Sections(yaml, fs, snippetDir, dir, rel, names[..|names| - 1], cache);
      var name := names[|names| - 1];
      var (doc, c2) := ReadMdx(yaml, fs, snippetDir, JoinPath(dir, name), true, c1);
      (prev + FileSection(doc, name, rel), c2)
  }

  /** Seven lines per file, each section headed by "## " and the file's
      title. */
  lemma {:induction false} SectionsShape(yaml: YamlLoader, fs: Snapshot, snippetDir: Path, dir: Path, rel: string, names: seq<string>, cache: Cache)
    ensures var lines := Sections(yaml, fs, snippetDir, dir, rel, names, cache).0;
      |lines| == 7 * |names| &&
      forall i :: 0 <= i < |names| ==> lines[7 * i + 1] == "*File: `" + rel + "/" + names[i] + "`*"
  {
    if names != [] {
      var front := names[..|names| - 1];
      SectionsShape(yaml, fs, snippetDir, dir, rel, front, cache);
      var (prev, c1) := Sections(yaml, fs, snippetDir, dir, rel, front, cache);
      var name := names[|names| - 1];
      var (doc, c2) := ReadMdx(yaml, fs, snippetDir, JoinPath(dir, name), true, c1);
      ShapeStep(prev, FileSection(doc, name, rel), rel, front, names);
    }
  }

  /** The shape of the sections after one more file's section. */
  lemma {:induction false} ShapeStep(prev: seq<string>, sec: seq<string>, rel: string, front: seq<string>, names: seq<string>)
    requires names != [] && front == names[..|names| - 1]
    requires |prev| == 7 * |front|
    requires forall i :: 0 <= i < |front| ==> prev[7 * i + 1] == "*File: `" + rel + "/" + front[i] + "`*"
    requires |sec| == 7 && sec[1] == "*File: `" + rel + "/" + names[|names| - 1] + "`*"
    ensures var lines := prev + sec;
      |lines| == 7 * |names| &&
      forall i :: 0 <= i < |names| ==> lines[7 * i + 1] == "*File: `" + rel + "/" + names[i] + "`*"
  {
    var lines := prev + sec;
    forall i | 0 <= i < |names| ensures lines[7 * i + 1] == "*File: `" + rel + "/" + names[i] + "`*" {
      if i < |front| {
        assert front[i] == names[i];
        assert lines[7 * i + 1] == prev[7 * i + 1];
      } else {
        assert lines[7 * i + 1] == sec[1];
      }
    }
  }

  /** One more file adds its section, read through the cache the earlier
      files left. */
  lemma {:induction false} SectionsSnoc(yaml: YamlLoader, fs: Snapshot, snippetDir: Path, dir: Path, rel: string, names: seq<string>, i: nat, cache: Cache)
    requires i < |names|
    ensures var prev := Sections(yaml, fs, snippetDir, dir, rel, names[..i], cache);
      var next := ReadMdx(yaml, fs, snippetDir, JoinPath(dir, names[i]), true, prev.1);
      Sections(yaml, fs, snippetDir, dir, rel, names[..i + 1], cache) == (prev.0 + FileSection(next.0, names[i], rel), next.1)
  {
    assert names[..i + 1][..i] == names[..i];
  }

  /** format_directory_listing run against a snippet cache. */
  function DirectoryListing(yaml: YamlLoader, fs: Snapshot, snippetDir: Path, dir: Path, rel: string,
                            includeContents: bool, cache: Cache): (r: (string, Cache))
    ensures Extends(cache, r.1) && AddsOnlyLoadable(fs, snippetDir, cache, r.1)
    ensures !includeContents ==> r == (Join(ListingHead(rel, Listing(fs, dir), false), "\n"), cache)
  {
    var l := Listing(fs, dir);
    if includeContents && l.files != [] then
      var (sections, c) := Sections(yaml, fs, snippetDir, dir, rel, l.files, cache);
      (Join(ListingHead(rel, l, true) + sections, "\n"), c)
    else (Join(ListingHead(rel, l, includeContents), "\n"), cache)
  }

  /** A listing always opens with its heading line. */
  lemma {:induction false} ListingStartsWithTitle(yaml: YamlLoader, fs: Snapshot, snippetDir: Path, dir: Path, rel: string,
                               includeContents: bool, cache: Cache)
    ensures StartsWith(DirectoryListing(yaml, fs, snippetDir, dir, rel, includeContents, cache).0, ListingTitle(rel))
  {
    var l := Listing(fs, dir);
    var head := ListingHead(rel, l, includeContents);
    if includeContents && l.files != [] {
      var sections := Sections(yaml, fs, snippetDir, dir, rel, l.files, cache).0;
      assert (head + sections)[0] == head[0];
      JoinStartsWithFirst(head + sections, "\n");
    } else {
      JoinStartsWithFirst(head, "\n");
    }
  }

  /** One entry of a listing: the prefix and the item, in backticks. */
  function EntryLine(pre: string, item: string): string
  {
    "- `" + pre + item + "`"
  }

  function EntryLines(pre: string, items: seq<string>): (b: seq<string>)
    ensures |b| == |items|
    ensures forall i :: 0 <= i < |items| ==> b[i] == EntryLine(pre, items[i])
  {
    if items == [] then [] else [EntryLine(pre, items[0])] + EntryLines(pre, items[1..])
  }

  /** A heading, one entry per item and a blank line; nothing for no
      items. */
  function EntryBlock(heading: string, pre: string, items: seq<string>): (b: seq<string>)
    ensures |b| == if items == [] then 0 else |items| + 2
    ensures items != [] ==> b[0] == heading
    ensures forall i :: 0 <= i < |items| ==> b[1 + i] == EntryLine(pre, items[i])
  {
    if items == [] then [] else [heading] + EntryLines(pre, items) + [""]
  }

  const SuggestionHeading := "**Suggested paths based on your query:**"

  /** The suggestion block: a rule, a heading and the first ten
      suggestions. */
  function SuggestionBlock(suggestions: seq<string>): (b: seq<string>)
    ensures |b| == if suggestions == [] then 0 else 3 + Min(|suggestions|, 10)
    ensures suggestions != [] ==> b[0] == "---" && b[2] == SuggestionHeading
    ensures suggestions != [] ==> forall i :: 0 <= i < Min(|suggestions|, 10) ==> b[3 + i] == EntryLine("", suggestions[i])
  {
    if suggestions == [] then []
    else ["---", "", SuggestionHeading] + EntryLines("", suggestions[..Min(|suggestions|, 10)])
  }

  /** The prefix entries get in a not-found listing. */
  function EntryPrefix(nearest: string): string
  {
    if nearest == "" then "" else nearest + "/"
  }

  function NotFoundTitle(doc: string): string
  {
    "Path `" + doc + "` not found."
  }

  function NearestHeading(nearest: string): string
  {
    if nearest == "" then "Here are the available top-level paths:" else "Here are the available paths in `" + nearest + "`:"
  }

  /** The number of lines EntryBlock gives. */
  function BlockLength(items: seq<string>): nat
  {
    if items == [] then 0 else |items| + 2
  }

  /** The lines format_not_found_error joins: the request, the heading for
      the nearest directory, its directories and files, and a suggestion
      block. */
  function NotFoundLines(doc: string, nearest: string, l: DirectoryContents, suggestions: seq<string>): (lines: seq<string>)
    ensures |lines| == 4 + BlockLength(l.dirs) + BlockLength(l.files) + (if suggestions == [] then 0 else 3 + Min(|suggestions|, 10))
    ensures lines[0] == NotFoundTitle(doc) && lines[2] == NearestHeading(nearest)
    ensures l.dirs != [] ==> lines[4] == "**Directories:**"
    ensures l.files != [] ==> lines[4 + BlockLength(l.dirs)] == "**Files:**"
    ensures suggestions != [] ==> lines[4 + BlockLength(l.dirs) + BlockLength(l.files) + 2] == SuggestionHeading
  {
    NotFoundHead(doc, nearest) + EntryBlock("**Directories:**", EntryPrefix(nearest), l.dirs)
      + EntryBlock("**Files:**", EntryPrefix(nearest), l.files) + SuggestionBlock(suggestions)
  }

  function NotFoundHead(doc: string, nearest: string): seq<string>
  {
    [NotFoundTitle(doc), "", NearestHeading(nearest), ""]
  }

  lemma {:induction false} IndexInside<T>(a: seq<T>, b: seq<T>, c: seq<T>, i: int)
    requires 0 <= i < |b|
    ensures (a + b + c)[|a| + i] == b[i]
  {
  }

  /** Every directory of the nearest directory is listed, prefixed with its
      path and a "/" only when that path is not empty. */
  lemma {:induction false} NotFoundDirectories(doc: string, nearest: string, l: DirectoryContents, suggestions: seq<string>)
    ensures var lines := NotFoundLines(doc, nearest, l, suggestions);
      forall i :: 0 <= i < |l.dirs| ==> lines[5 + i] == EntryLine(EntryPrefix(nearest), l.dirs[i])
  {
    var head := NotFoundHead(doc, nearest);
    var d := EntryBlock("**Directories:**", EntryPrefix(nearest), l.dirs);
    var f := EntryBlock("**Files:**", EntryPrefix(nearest), l.files);
    var t := SuggestionBlock(suggestions);
    forall i | 0 <= i < |l.dirs| ensures (head + d + f + t)[5 + i] == EntryLine(EntryPrefix(nearest), l.dirs[i]) {
      IndexInside(head, d, f, 1 + i);
    }
  }

  /** Likewise every file. */
  lemma {:induction false} NotFoundFiles(doc: string, nearest: string, l: DirectoryContents, suggestions: seq<string>)
    ensures var lines := NotFoundLines(doc, nearest, l, suggestions);
      forall i :: 0 <= i < |l.files| ==> lines[4 + BlockLength(l.dirs) + 1 + i] == EntryLine(EntryPrefix(nearest), l.files[i])
  {
    var head := NotFoundHead(doc, nearest);
    var d := EntryBlock("**Directories:**", EntryPrefix(nearest), l.dirs);
    var f := EntryBlock("**Files:**", EntryPrefix(nearest), l.files);
    var t := SuggestionBlock(suggestions);
    assert |head + d| == 4 + BlockLength(l.dirs);
    forall i | 0 <= i < |l.files| ensures (head + d + f + t)[|head + d| + 1 + i] == EntryLine(EntryPrefix(nearest), l.files[i]) {
      IndexInside(head + d, f, t, 1 + i);
    }
  }

  /** The first ten suggestions are listed, in order, and no more. */
  lemma {:induction false} NotFoundSuggestions(doc: string, nearest: string, l: DirectoryContents, suggestions: seq<string>)
    ensures var lines := NotFoundLines(doc, nearest, l, suggestions);
      var base := 4 + BlockLength(l.dirs) + BlockLength(l.files);
      suggestions != [] ==> forall i :: 0 <= i < Min(|suggestions|, 10) ==> lines[base + 3 + i] == EntryLine("", suggestions[i])
  {
  }

  function Min(a: int, b: int): int
  {
    if a < b then a else b
  }

  /** format_not_found_error: it always opens with the request. */
  function FormatNotFoundError(doc: string, nearest: string, l: DirectoryContents, suggestions: seq<string>): (r: string)
    ensures StartsWith(r, NotFoundTitle(doc))
  {
    var lines := NotFoundLines(doc, nearest, l, suggestions);
    JoinStartsWithFirst(lines, "\n");
    Join(lines, "\n")
  }

  /** read_mdx_file, format_file_content and format_directory_listing share
      the snippet cache. */
  method ReadMdxFile(yaml: YamlLoader, fs: Snapshot, snippetDir: Path, p: Path, resolveTags: bool, cache: SnippetCache)
    returns (doc: Document)
    modifies cache
    ensures (doc, cache.entries) == ReadMdx(yaml, fs, snippetDir, p, resolveTags, old(cache.entries))
  {
    match ReadText(fs, p) {
      case Err(m) =>
        doc := Document(map[], "Error reading file: " + m);
      case Ok(text) =>
        var (h, body) := ParseFrontmatter(yaml, text);
        if resolveTags {
          body := cache.ResolveSnippets(fs, snippetDir, body, SnippetDepth);
        }
        doc := Document(h, body);
    }
  }

  method FormatFileContent(yaml: YamlLoader, fs: Snapshot, snippetDir: Path, p: Path, rel: string, cache: SnippetCache)
    returns (r: string)
    modifies cache
    ensures r == Join(FileContentLines(ReadMdx(yaml, fs, snippetDir, p, true, old(cache.entries)).0, Name(p), rel), "\n")
    ensures cache.entries == ReadMdx(yaml, fs, snippetDir, p, true, old(cache.entries)).1
  {
    ghost var expected := ReadMdx(yaml, fs, snippetDir, p, true, cache.entries);
    var doc := ReadMdxFile(yaml, fs, snippetDir, p, true, cache);
    assert doc == expected.0 && cache.entries == expected.1;
    r := Join(FileContentLines(doc, Name(p), rel), "\n");
  }

  method FormatDirectoryListing(yaml: YamlLoader, fs: Snapshot, snippetDir: Path, dir: Path, rel: string,
                                includeContents: bool, cache: SnippetCache) returns (r: string)
    modifies cache
    ensures (r, cache.entries) == DirectoryListing(yaml, fs, snippetDir, dir, rel, includeContents, old(cache.entries))
  {
    var l := ListDirectory(fs, dir);
    var head := ListingHead(rel, l, includeContents);
    if includeContents && l.files != [] {
      var sections := ReadSections(yaml, fs, snippetDir, dir, rel, l.files, cache);
      r := Join(head + sections, "\n");
    } else {
      r := Join(head, "\n");
    }
  }

  /** The loop of format_directory_listing over the files. */
  method ReadSections(yaml: YamlLoader, fs: Snapshot, snippetDir: Path, dir: Path, rel: string,
                      names: seq<string>, cache: SnippetCache) returns (sections: seq<string>)
    modifies cache
    ensures (sections, cache.entries) == Sections(yaml, fs, snippetDir, dir, rel, names, old(cache.entries))
  {
    ghost var start := cache.entries;
    sections := [];
    assert names[..0] == [];
    for i := 0 to |names|
      invariant (sections, cache.entries) == Sections(yaml, fs, snippetDir, dir, rel, names[..i], start)
    {
      SectionsSnoc(yaml, fs, snippetDir, dir, rel, names, i, start);
      var doc := ReadMdxFile(yaml, fs, snippetDir, JoinPath(dir, names[i]), true, cache);
      sections := sections + FileSection(doc, names[i], rel);
    }
    assert names[..|names|] == names;
  }
}
