/** The agno_docs tool (tools/docs.py): each requested path is answered with
    a directory listing, a file's content, a "not found" text built from
    the nearest existing directory, or a rejection; the answers are joined
    in request order. */
module Docs {
  import opened Text
  import opened Outcomes
  import opened FileSystem
  import opened Frontmatter
  import opened Snippets
  import opened Paths
  import opened Content
  import opened Walk
  import opened Search

  /** A directory the server is configured with: the documentation root
      or the snippet directory. */
  type Root = b: Path | ValidBase(b) witness ["docs"]

  /** What the tool works against: the YAML loader, the snapshot, the
      documentation root and the snippet directory. */
  datatype Env = Env(yaml: YamlLoader, fs: Snapshot, base: Root, snippetDir: Root)

  const NotPreparedMessage := "Documentation not prepared. Run `python -m agno_docs_mcp.prepare` first.\n\n" +
    "This will copy the Agno documentation to the local .docs/ directory."

  const SectionSeparator := "\n\n---\n\n"

  function Heading(doc: string): string
  {
    "## " + doc + "\n\n"
  }

  function InvalidPath(doc: string): string
  {
    Heading(doc) + "Invalid path."
  }

  /** doc_path.strip("/") or "/" */
  function DisplayPath(doc: string): string
  {
    var s := StripChars(doc, {'/'});
    if s == "" then "/" else s
  }

  // ---------------------------------------------------------------------
  // _fetch_single_path

  /** Which of the four answers a request gets. */
  datatype Outcome = Rejected | Directory(dir: Path) | File(file: Path) | Missing

  function Classify(fs: Snapshot, doc: string, base: Root): Outcome
  {
    var res := ResolveDocPath(fs, doc, base);
    if !res.found && res.path != base && !IsSafePath(base, res.path) then Rejected
    else if Exists(fs, res.path) then (if IsDir(fs, res.path) then Directory(res.path) else File(res.path))
    else Missing
  }

  /** A request is rejected exactly when its cleaned path fails the
      traversal guard; a directory or file answer is for the path
      resolve_doc_path found; a missing answer is for a path that does not
      exist, and one resolve_doc_path did not find unless the request named
      the root itself. */
  lemma {:induction false} ClassifyCorrect(fs: Snapshot, doc: string, base: Root)
    ensures Classify(fs, doc, base) == Rejected <==>
      CleanDocPath(doc) != "" && !IsSafePath(base, JoinPath(base, CleanDocPath(doc)))
    ensures Classify(fs, doc, base).Directory? ==>
      ResolveDocPath(fs, doc, base) == Resolution(Classify(fs, doc, base).dir, true) && IsDir(fs, Classify(fs, doc, base).dir)
    ensures Classify(fs, doc, base).File? ==>
      ResolveDocPath(fs, doc, base) == Resolution(Classify(fs, doc, base).file, true) &&
      Exists(fs, Classify(fs, doc, base).file) && !IsDir(fs, Classify(fs, doc, base).file)
    ensures Classify(fs, doc, base) == Missing ==>
      !Exists(fs, ResolveDocPath(fs, doc, base).path) &&
      (ResolveDocPath(fs, doc, base).found ==> CleanDocPath(doc) == "")
  {
    var clean := CleanDocPath(doc);
    var res := ResolveDocPath(fs, doc, base);
    if clean != "" && !IsSafePath(base, JoinPath(base, clean)) {
      SafeWithin(base, []);
    }
  }

  /** A directory's answer from its listing: the listing under the request
      heading, then, when query keywords are given, the suggestions for
      the request. */
  function DirectoryText(env: Env, doc: string, listing: string, query: seq<string>): (r: Result<string>)
    ensures IsDirectory(env.fs, env.base) ==> r.Ok?
    ensures r.Ok? ==> StartsWith(r.value, Heading(doc) + listing)
  {
    var h := Heading(doc);
    if query == [] then
      Extended(h, listing, "");
      Ok(h + listing)
    else
      match MatchingPaths(env.fs, env.base, doc, query)
      case Err(e) => Err(e)
      case Ok(s) =>
        var tail := if s != "" then "\n\n" + s else "";
        Extended(h, listing, tail);
        Ok(h + (listing + tail))
  }

  /** Appending to the body keeps the head and the body as a prefix. */
  lemma {:induction false} Extended(h: string, body: string, tail: string)
    ensures StartsWith(h + (body + tail), h + body)
  {
    assert (h + (body + tail))[..|h + body|] == h + body;
  }

  /** Text that starts with p, after a head, starts with the head and p. */
  lemma {:induction false} StartsWithHead(h: string, body: string, p: string)
    requires StartsWith(body, p)
    ensures StartsWith(h + body, h + p)
  {
    assert (h + body)[..|h + p|] == h + body[..|p|];
  }

  /** A file's answer: its formatted content under the stripped request
      path, opening with its title. */
  function FileAnswer(env: Env, doc: string, file: Path, cache: Cache): (r: (string, Cache))
    ensures var d := ReadMdx(env.yaml, env.fs, env.snippetDir, file, true, cache);
      r.1 == d.1 && StartsWith(r.0, "# " + TitleOf(d.0.header, Name(file)))
  {
    var (d, c1) := ReadMdx(env.yaml, env.fs, env.snippetDir, file, true, cache);
    var lines := FileContentLines(d, Name(file), DisplayPath(doc));
    JoinStartsWithFirst(lines, "\n");
    (Join(lines, "\n"), c1)
  }

  /** A missing path's answer: the not-found text for the nearest existing
      directory, with at most ten suggestions when query keywords are
      given. */
  function MissingAnswer(env: Env, doc: string, query: seq<string>): (r: Result<string>)
    ensures IsDirectory(env.fs, env.base) || query == [] ==> r.Ok?
    ensures r.Ok? ==> StartsWith(r.value, Heading(doc) + NotFoundTitle(doc))
  {
    var n := Nearest(env.fs, env.base, RequestParts(doc));
    var l := Listing(env.fs, n.0);
    if query == [] then
      StartsWithHead(Heading(doc), FormatNotFoundError(doc, n.1, l, []), NotFoundTitle(doc));
      Ok(Heading(doc) + FormatNotFoundError(doc, n.1, l, []))
    else
      match SearchSpec(env.fs, env.base, query, 10)
      case Err(e) => Err(e)
      case Ok(s) =>
        StartsWithHead(Heading(doc), FormatNotFoundError(doc, n.1, l, s), NotFoundTitle(doc));
        Ok(Heading(doc) + FormatNotFoundError(doc, n.1, l, s))
  }

  /** _fetch_single_path run against the snippet cache: the answer (or the
      error the walk of the root raises) and the cache afterwards. */
  function Fetch(env: Env, doc: string, query: seq<string>, cache: Cache): (r: (Result<string>, Cache))
    ensures IsDirectory(env.fs, env.base) ==> r.0.Ok?
  {
    match Classify(env.fs, doc, env.base)
    case Rejected => (Ok(InvalidPath(doc)), cache)
    case Directory(dir) =>
      var (listing, c1) := DirectoryListing(env.yaml, env.fs, env.snippetDir, dir, DisplayPath(doc), true, cache);
      (DirectoryText(env, doc, listing, query), c1)
    case File(file) =>
      var (s, c1) := FileAnswer(env, doc, file, cache);
      (Ok(s), c1)
    case Missing => (MissingAnswer(env, doc, query), cache)
  }

  /** The shape of each answer: a rejection is "Invalid path."; a directory
      opens with its listing's heading; a file opens with its title; a
      missing path is answered with the listing of its nearest existing
      directory. Only directory and file answers touch the snippet cache. */
  lemma {:induction false} FetchShape(env: Env, doc: string, query: seq<string>, cache: Cache)
    ensures var r := Fetch(env, doc, query, cache);
      Classify(env.fs, doc, env.base) == Rejected ==> r == (Ok(InvalidPath(doc)), cache)
    ensures var r := Fetch(env, doc, query, cache);
      Classify(env.fs, doc, env.base).Directory? ==>
        var l := DirectoryListing(env.yaml, env.fs, env.snippetDir, Classify(env.fs, doc, env.base).dir, DisplayPath(doc), true, cache);
        r.1 == l.1 && StartsWith(l.0, ListingTitle(DisplayPath(doc))) && (r.0.Ok? ==> StartsWith(r.0.value, Heading(doc) + l.0))
    ensures var r := Fetch(env, doc, query, cache);
      Classify(env.fs, doc, env.base).File? ==>
        var d := ReadMdx(env.yaml, env.fs, env.snippetDir, Classify(env.fs, doc, env.base).file, true, cache);
        r.0.Ok? && r.1 == d.1 && StartsWith(r.0.value, "# " + TitleOf(d.0.header, Name(Classify(env.fs, doc, env.base).file)))
    ensures var r := Fetch(env, doc, query, cache);
      Classify(env.fs, doc, env.base) == Missing ==>
        r.1 == cache && (r.0.Ok? ==> StartsWith(r.0.value, Heading(doc) + NotFoundTitle(doc)))
  {
    if Classify(env.fs, doc, env.base).Directory? {
      ListingStartsWithTitle(env.yaml, env.fs, env.snippetDir, Classify(env.fs, doc, env.base).dir, DisplayPath(doc), true, cache);
    }
  }

  /** Suggestions are only looked for when query keywords are given: without
      them a directory answer is its listing and a missing path's answer
      has no suggestions. */
  lemma {:induction false} NoQueryNoSuggestions(env: Env, doc: string, cache: Cache)
    ensures var r := Fetch(env, doc, [], cache);
      var o := Classify(env.fs, doc, env.base);
      (o.Directory? ==> r == (Ok(Heading(doc) + DirectoryListing(env.yaml, env.fs, env.snippetDir, o.dir, DisplayPath(doc), true, cache).0),
                             DirectoryListing(env.yaml, env.fs, env.snippetDir, o.dir, DisplayPath(doc), true, cache).1)) &&
      (o == Missing ==>
        var n := Nearest(env.fs, env.base, RequestParts(doc));
        r == (Ok(Heading(doc) + FormatNotFoundError(doc, n.1, Listing(env.fs, n.0), [])), cache))
  {
  }

  // ---------------------------------------------------------------------
  // agno_docs

  /** The answers to the requested paths in order, each given the cache
      the ones before it left; the first error stops the loop. */
  function AnswerAll(answer: (string, Cache) -> (Result<string>, Cache), paths: seq<string>, cache: Cache)
    : (r: (Result<seq<string>>, Cache))
    ensures r.0.Ok? ==> |r.0.value| == |paths|
  {
    if paths == [] then (Ok([]), cache)
    else
      var (prev, c1) := AnswerAll(answer, paths[..|paths| - 1], cache);
      match prev
      case Err(e) => (Err(e), c1)
      case Ok(answers) =>
        var (a, c2) := answer(paths[|paths| - 1], c1);
        match a
        case Err(e) => (Err(e), c2)
        case Ok(s) => (Ok(answers + [s]), c2)
  }

  /** The per-path answer of agno_docs. */
  function Answerer(env: Env, query: seq<string>): (string, Cache) -> (Result<string>, Cache)
  {
    (doc, c) => Fetch(env, doc, query, c)
  }

  /** agno_docs */
  function AgnoDocs(env: Env, paths: seq<string>, query: seq<string>, cache: Cache): (r: (Result<string>, Cache))
  {
    if !Exists(env.fs, env.base) then (Ok(NotPreparedMessage), cache)
    else
      var (answers, c) := AnswerAll(Answerer(env, query), paths, cache);
      match answers
      case Err(e) => (Err(e), c)
      case Ok(a) => (Ok(Join(a, SectionSeparator)), c)
  }

  /** Each answer is the one its path gets against the cache the earlier
      answers left. */
  lemma {:induction false} AnswerAllInOrder(answer: (string, Cache) -> (Result<string>, Cache), paths: seq<string>,
                                            cache: Cache, i: int)
    requires 0 <= i < |paths| && AnswerAll(answer, paths, cache).0.Ok?
    ensures AnswerAll(answer, paths[..i], cache).0.Ok?
    ensures answer(paths[i], AnswerAll(answer, paths[..i], cache).1).0 == Ok(AnswerAll(answer, paths, cache).0.value[i])
    decreases |paths|
  {
    var front := paths[..|paths| - 1];
    if i < |paths| - 1 {
      assert front[..i] == paths[..i] && front[i] == paths[i];
      AnswerAllInOrder(answer, front, cache, i);
    } else {
      assert paths[..i] == front;
    }
  }

  /** Once an answer fails the whole loop fails with the same error and
      cache. */
  lemma {:induction false} AnswerAllStop(answer: (string, Cache) -> (Result<string>, Cache), paths: seq<string>,
                                         cache: Cache, i: int)
    requires 0 < i <= |paths| && AnswerAll(answer, paths[..i], cache).0.Err?
    ensures AnswerAll(answer, paths, cache) == AnswerAll(answer, paths[..i], cache)
    decreases |paths|
  {
    if i < |paths| {
      var front := paths[..|paths| - 1];
      assert front[..i] == paths[..i];
      AnswerAllStop(answer, front, cache, i);
    } else {
      assert paths[..i] == paths;
    }
  }

  /** When no single answer fails, the loop does not either. */
  lemma {:induction false} AnswerAllOk(answer: (string, Cache) -> (Result<string>, Cache), paths: seq<string>, cache: Cache)
    requires forall doc, c :: answer(doc, c).0.Ok?
    ensures AnswerAll(answer, paths, cache).0.Ok?
    decreases |paths|
  {
    if paths != [] {
      AnswerAllOk(answer, paths[..|paths| - 1], cache);
    }
  }

  /** Without a root there is only the "not prepared" message; with one
      (a directory) there is one answer per requested path, each the
      answer _fetch_single_path gives it, joined by the separator. */
  lemma {:induction false} AgnoDocsAnswers(env: Env, paths: seq<string>, query: seq<string>, cache: Cache)
    ensures !Exists(env.fs, env.base) ==> AgnoDocs(env, paths, query, cache) == (Ok(NotPreparedMessage), cache)
    ensures IsDirectory(env.fs, env.base) ==>
      (var all := AnswerAll(Answerer(env, query), paths, cache);
       all.0.Ok? && AgnoDocs(env, paths, query, cache).0 == Ok(Join(all.0.value, SectionSeparator)) &&
       forall i :: 0 <= i < |paths| ==>
         Fetch(env, paths[i], query, AnswerAll(Answerer(env, query), paths[..i], cache).1).0 == Ok(all.0.value[i]))
  {
    if IsDirectory(env.fs, env.base) {
      CanonPlain(env.base);
      var answer := Answerer(env, query);
      assert forall doc, c :: answer(doc, c).0.Ok?;
      AnswerAllOk(answer, paths, cache);
      forall i | 0 <= i < |paths|
        ensures Fetch(env, paths[i], query, AnswerAll(answer, paths[..i], cache).1).0 == Ok(AnswerAll(answer, paths, cache).0.value[i])
      {
        AnswerAllInOrder(answer, paths, cache, i);
      }
    }
  }

  // ---------------------------------------------------------------------
  // The tool as the server runs it, against the two caches

  /** The directory branch of _fetch_single_path. */
  method FetchDirectory(env: Env, doc: string, dir: Path, query: seq<string>, snippets: SnippetCache, walks: MdxFileCache)
    returns (r: Result<string>)
    requires walks.Valid(env.fs)
    modifies snippets, walks
    ensures walks.Valid(env.fs)
    ensures var l := DirectoryListing(env.yaml, env.fs, env.snippetDir, dir, DisplayPath(doc), true, old(snippets.entries));
      r == DirectoryText(env, doc, l.0, query) && snippets.entries == l.1
  {
    var content := FormatDirectoryListing(env.yaml, env.fs, env.snippetDir, dir, DisplayPath(doc), true, snippets);
    if query != [] {
      var suggestions := GetMatchingPaths(env.fs, env.base, doc, query, walks);
      if suggestions.Err? {
        return Err(suggestions.msg);
      }
      content := content + (if suggestions.value != "" then "\n\n" + suggestions.value else "");
    }
    return Ok(Heading(doc) + content);
  }

  /** The file branch of _fetch_single_path. */
  method FetchFile(env: Env, doc: string, file: Path, snippets: SnippetCache) returns (r: string)
    modifies snippets
    ensures (r, snippets.entries) == FileAnswer(env, doc, file, old(snippets.entries))
  {
    r := FormatFileContent(env.yaml, env.fs, env.snippetDir, file, DisplayPath(doc), snippets);
  }

  /** The not-found branch of _fetch_single_path. */
  method FetchMissing(env: Env, doc: string, query: seq<string>, walks: MdxFileCache) returns (r: Result<string>)
    requires walks.Valid(env.fs)
    modifies walks
    ensures walks.Valid(env.fs)
    ensures r == MissingAnswer(env, doc, query)
  {
    var nearestDir, nearestPath := FindNearestDirectory(env.fs, doc, env.base);
    var contents := ListDirectory(env.fs, nearestDir);
    var suggestions: seq<string> := [];
    if query != [] {
      var found := SearchDocuments(env.fs, env.base, query, 10, walks);
      if found.Err? {
        return Err(found.msg);
      }
      suggestions := found.value;
    }
    r := Ok(Heading(doc) + FormatNotFoundError(doc, nearestPath, contents, suggestions));
  }

  /** _fetch_single_path */
  method FetchSinglePath(env: Env, doc: string, query: seq<string>, snippets: SnippetCache, walks: MdxFileCache)
    returns (r: Result<string>)
    requires walks.Valid(env.fs)
    modifies snippets, walks
    ensures walks.Valid(env.fs)
    ensures (r, snippets.entries) == Fetch(env, doc, query, old(snippets.entries))
  {
    ghost var c0 := snippets.entries;
    var o := Classify(env.fs, doc, env.base);
    if o.Rejected? {
      r := Ok(InvalidPath(doc));
    } else if o.Directory? {
      ghost var l := DirectoryListing(env.yaml, env.fs, env.snippetDir, o.dir, DisplayPath(doc), true, c0);
      assert Fetch(env, doc, query, c0) == (DirectoryText(env, doc, l.0, query), l.1);
      r := FetchDirectory(env, doc, o.dir, query, snippets, walks);
    } else if o.File? {
      assert Fetch(env, doc, query, c0) == (Ok(FileAnswer(env, doc, o.file, c0).0), FileAnswer(env, doc, o.file, c0).1);
      var content := FetchFile(env, doc, o.file, snippets);
      r := Ok(content);
    } else {
      assert Fetch(env, doc, query, c0) == (MissingAnswer(env, doc, query), c0);
      r := FetchMissing(env, doc, query, walks);
    }
  }

  /** agno_docs: one answer per path, in order. */
  method AgnoDocsTool(env: Env, paths: seq<string>, query: seq<string>, snippets: SnippetCache, walks: MdxFileCache)
    returns (r: Result<string>)
    requires walks.Valid(env.fs)
    modifies snippets, walks
    ensures walks.Valid(env.fs)
    ensures (r, snippets.entries) == AgnoDocs(env, paths, query, old(snippets.entries))
  {
    if !Exists(env.fs, env.base) {
      return Ok(NotPreparedMessage);
    }
    ghost var start := snippets.entries;
    ghost var answer := Answerer(env, query);
    var results: seq<string> := [];
    for i := 0 to |paths|
      invariant walks.Valid(env.fs)
      invariant AnswerAll(answer, paths[..i], start) == (Ok(results), snippets.entries)
    {
      assert paths[..i + 1][..i] == paths[..i];
      var result := FetchSinglePath(env, paths[i], query, snippets, walks);
      if result.Err? {
        AnswerAllStop(answer, paths, start, i + 1);
        return Err(result.msg);
      }
      results := results + [result.value];
    }
    assert paths[..|paths|] == paths;
    r := Ok(Join(results, SectionSeparator));
  }
}
