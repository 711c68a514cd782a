/** The agno_examples tool (tools/examples.py): the examples of one category,
    a keyword search over every category and the snippets, or the list of
    categories, as markdown lines joined by newlines. */
module AgnoExamples {
  import opened Text
  import opened Outcomes
  import opened FileSystem
  import opened Snippets
  import opened Sorting
  import opened Paths
  import opened Walk
  import opened Keywords
  import opened Search
  import opened Docs
  import opened Examples

  /** A segment of a category directory, as pathlib keeps it. */
  type Segment = s: string | PlainSegment(s) witness "a"

  /** An entry of EXAMPLE_CATEGORIES: its name and the segments of its
      directory below the documentation root. */
  datatype Category = Category(name: string, dir: seq<Segment>)

  const Basics: Segment := "basics"
  const Usage: Segment := "usage"

  /** EXAMPLE_CATEGORIES, in the dict's order. */
  const Categories: seq<Category> := [
    Category("agents", [Basics, "agents", Usage]),
    Category("teams", [Basics, "teams", Usage]),
    Category("workflows", [Basics, "workflows", Usage]),
    Category("tools", [Basics, "tools", Usage]),
    Category("memory", [Basics, "memory"]),
    Category("knowledge", [Basics, "knowledge"]),
    Category("models", [Basics, "models"]),
    Category("database", [Basics, "database"]),
    Category("evals", [Basics, "evals"]),
    Category("guardrails", [Basics, "guardrails"]),
    Category("hitl", [Basics, "hitl"]),
    Category("multimodal", [Basics, "multimodal"]),
    Category("reasoning", [Basics, "reasoning"]),
    Category("sessions", [Basics, "sessions"]),
    Category("tracing", [Basics, "tracing"])
  ]

  const ExamplesCap := 15
  const SearchCap := 5
  const MatchesCap := 20

  const ExamplesNotPrepared := "Examples not found. Run `python -m agno_docs_mcp.prepare` to prepare docs."

  /** The category's directory as the dict writes it. */
  function CategoryPath(c: Category): string
  {
    Join(c.dir, "/")
  }

  /** The category's directory under the root: base_dir / cat_path. */
  function CategoryDir(env: Env, c: Category): Path
  {
    env.base + c.dir
  }

  /** The dict's keys, in order. */
  function CategoryNames(cs: seq<Category>): (r: seq<string>)
    ensures |r| == |cs|
    ensures forall i :: 0 <= i < |cs| ==> r[i] == cs[i].name
  {
    if cs == [] then [] else CategoryNames(cs[..|cs| - 1]) + [cs[|cs| - 1].name]
  }

  /** EXAMPLE_CATEGORIES[key], or none when the key is absent. */
  function Lookup(cs: seq<Category>, key: string): (r: Option<Category>)
    ensures r.None? <==> forall i :: 0 <= i < |cs| ==> cs[i].name != key
    ensures r.Some? ==> r.value in cs && r.value.name == key
  {
    if cs == [] then None
    else if cs[0].name == key then Some(cs[0])
    else Lookup(cs[1..], key)
  }

  /** A category directory under a plain root is plain. */
  lemma {:induction false} PlainUnder(base: Path, dir: seq<Segment>)
    requires Plain(base)
    ensures Plain(base + dir)
  {
    forall k | 0 <= k < |base + dir| ensures PlainSegment((base + dir)[k]) {
      if k >= |base| {
        assert (base + dir)[k] == dir[k - |base|];
      }
    }
  }

  /** The answer for a category name that is not a key. */
  function UnknownCategory(cs: seq<Category>, category: string): string
  {
    "Unknown category: `" + category + "`\n\n" +
    "**Available categories:** " + Join(SortStrings(CategoryNames(cs)), ", ") + "\n\n" +
    "Use `category=None` with `query_keywords` to search all examples."
  }

  // ---------------------------------------------------------------------
  // One category

  function CategoryHeader(c: Category, category: string): seq<string>
  {
    ["## " + Title(category) + " Examples\n", "*Location: `" + CategoryPath(c) + "/`*\n"]
  }

  function MissingCategory(category: string): string
  {
    "Category `" + category + "` directory not found."
  }

  const NoCategoryMatch := "No matching examples found in this category."

  /** The examples of the category's walk, kept only when they match one
      of the normalized keywords if keywords are given. */
  function Shown(examples: seq<string>, query: seq<string>): seq<string>
  {
    if query == [] then examples else Filtered(examples, Normalized(query))
  }

  /** What follows the header: the first (at most 15) examples shown, or
      the one "no matching examples" line when none is. */
  function CategoryBody(shown: seq<string>): (r: seq<string>)
    ensures 1 <= |r| <= ExamplesCap
    ensures shown == [] ==> r == [NoCategoryMatch]
    ensures shown != [] ==> |r| == (if |shown| < ExamplesCap then |shown| else ExamplesCap) && r == shown[..|r|]
  {
    if shown != [] then PyHead(shown, ExamplesCap) else [NoCategoryMatch]
  }

  /** With keywords, an example is shown exactly when it is one the walk
      collected and it contains one of the normalized keywords. */
  lemma {:induction false} CategoryShown(examples: seq<string>, query: seq<string>)
    requires query != []
    ensures forall i :: 0 <= i < |Shown(examples, query)| ==>
      Shown(examples, query)[i] in examples && MatchesKeywords(Shown(examples, query)[i], Normalized(query))
    ensures forall i :: 0 <= i < |examples| && MatchesKeywords(examples[i], Normalized(query)) ==>
      examples[i] in Shown(examples, query)
  {
  }

  /** The category branch: the heading, the location and what the walk of
      the category's directory shows; or the "directory not found" line. */
  function CategoryLines(env: Env, c: Category, category: string, query: seq<string>, cache: Cache): (r: (seq<string>, Cache))
    ensures !Exists(env.fs, CategoryDir(env, c)) ==> r == ([MissingCategory(category)], cache)
    ensures Grows(env, cache, r.1)
  {
    var dir := CategoryDir(env, c);
    if !Exists(env.fs, dir) then ([MissingCategory(category)], cache)
    else
      var (examples, c1) := Collect(env, dir, CategoryPath(c), 0, cache);
      (CategoryHeader(c, category) + CategoryBody(Shown(examples, query)), c1)
  }

  // ---------------------------------------------------------------------
  // The keyword search

  function MatchLine(path: string, name: string, m: string): string
  {
    "- `" + path + "/" + m + "` (" + name + ")"
  }

  /** One line per hit, in the ranking's order. */
  function MatchLines(path: string, name: string, hits: seq<string>): (r: seq<string>)
    ensures |r| == |hits|
    ensures forall i :: 0 <= i < |hits| ==> r[i] == MatchLine(path, name, hits[i])
  {
    if hits == [] then [] else MatchLines(path, name, hits[..|hits| - 1]) + [MatchLine(path, name, hits[|hits| - 1])]
  }

  /** The hits of one category: none when its directory is missing,
      otherwise search_documents with a limit of 5, which fails exactly
      when keywords are given and the directory exists without being
      one. */
  function CategoryHits(env: Env, c: Category, keywords: seq<string>): (r: Result<seq<string>>)
    ensures r.Ok? <==> keywords == [] || !Exists(env.fs, CategoryDir(env, c)) || IsDirectory(env.fs, CategoryDir(env, c))
    ensures r.Ok? ==> |r.value| <= SearchCap
  {
    if !Exists(env.fs, CategoryDir(env, c)) then Ok([])
    else SearchSpec(env.fs, CategoryDir(env, c), keywords, SearchCap)
  }

  /** One category's lines: a line per hit, naming the category. */
  function CategoryStep(env: Env, keywords: seq<string>): Category -> Result<seq<string>>
  {
    (c: Category) =>
      match CategoryHits(env, c, keywords)
      case Err(e) => Err(e)
      case Ok(hits) => Ok(MatchLines(CategoryPath(c), c.name, hits))
  }

  /** Steps that give at most b lines give at most |items| * b. */
  lemma {:induction false} GatherBound<T, U>(step: T -> Result<seq<U>>, items: seq<T>, b: nat)
    requires forall x :: step(x).Ok? ==> |step(x).value| <= b
    ensures Gather(step, items).Ok? ==> |Gather(step, items).value| <= Times(|items|, b)
    decreases |items|
  {
    if items != [] {
      GatherBound(step, items[..|items| - 1], b);
    }
  }

  /** The loop over the categories in order, at most 5 lines each; it
      fails exactly when one category's search does. */
  function CategoryMatches(env: Env, cs: seq<Category>, keywords: seq<string>): (r: Result<seq<string>>)
    ensures r.Ok? <==> forall i :: 0 <= i < |cs| ==> CategoryHits(env, cs[i], keywords).Ok?
    ensures r.Ok? ==> |r.value| <= Times(|cs|, SearchCap)
  {
    var step := CategoryStep(env, keywords);
    GatherOk(step, cs);
    GatherBound(step, cs, SearchCap);
    Gather(step, cs)
  }

  /** The snippet hits: none when the snippet directory is missing,
      otherwise search_documents over it with a limit of 5. */
  function SnippetMatches(env: Env, keywords: seq<string>): Result<seq<string>>
  {
    if !Exists(env.fs, env.snippetDir) then Ok([])
    else
      match SearchSpec(env.fs, env.snippetDir, keywords, SearchCap)
      case Err(e) => Err(e)
      case Ok(hits) => Ok(MatchLines("_snippets", "snippet", hits))
  }

  /** The snippet search gives at most 5 lines, and fails exactly when
      keywords are given and the snippet directory exists without being
      one. */
  lemma {:induction false} SnippetMatchesShape(env: Env, keywords: seq<string>)
    ensures SnippetMatches(env, keywords).Ok? ==> |SnippetMatches(env, keywords).value| <= SearchCap
    ensures SnippetMatches(env, keywords).Ok? <==>
      keywords == [] || !Exists(env.fs, env.snippetDir) || IsDirectory(env.fs, env.snippetDir)
  {
  }

  function KeywordHeader(keywords: seq<string>): seq<string>
  {
    ["## Matching Examples\n", "*Keywords: " + Join(keywords, ", ") + "*\n"]
  }

  const NoKeywordMatch := "No examples found matching your keywords."

  /** The keyword branch over the normalized keywords: the heading, the
      keywords and the first 20 hits of the categories then the snippets;
      or the "no examples found" line. */
  function KeywordLines(env: Env, cs: seq<Category>, keywords: seq<string>): (r: Result<seq<string>>)
  {
    match CategoryMatches(env, cs, keywords)
    case Err(e) => Err(e)
    case Ok(fromCategories) =>
      match SnippetMatches(env, keywords)
      case Err(e) => Err(e)
      case Ok(fromSnippets) =>
        var all := fromCategories + fromSnippets;
        Ok(if all != [] then KeywordHeader(keywords) + PyHead(all, MatchesCap) else [NoKeywordMatch])
  }

  /** The keyword branch gives at most 22 lines: the two header lines and
      the first hits; it fails exactly when one of the searches does; with
      no hits it is the one "no examples found" line. */
  lemma {:induction false} KeywordLinesShape(env: Env, cs: seq<Category>, keywords: seq<string>)
    ensures KeywordLines(env, cs, keywords).Ok? <==>
      CategoryMatches(env, cs, keywords).Ok? && SnippetMatches(env, keywords).Ok?
    ensures KeywordLines(env, cs, keywords).Ok? ==>
      var r := KeywordLines(env, cs, keywords).value;
      var all := CategoryMatches(env, cs, keywords).value + SnippetMatches(env, keywords).value;
      1 <= |r| <= 2 + MatchesCap &&
      (all == [] ==> r == [NoKeywordMatch]) &&
      (all != [] ==> r[..2] == KeywordHeader(keywords) && r[2..] == all[..|r| - 2])
  {
    SnippetMatchesShape(env, keywords);
    if KeywordLines(env, cs, keywords).Ok? {
      var r := KeywordLines(env, cs, keywords).value;
      var all := CategoryMatches(env, cs, keywords).value + SnippetMatches(env, keywords).value;
      if all != [] {
        assert r[2..] == PyHead(all, MatchesCap);
      }
    }
  }

  // ---------------------------------------------------------------------
  // The list of categories

  const ListingHeader := ["## Available Example Categories\n", "Use the `category` parameter to explore examples:\n"]

  function ItemsIn(env: Env, dir: Path): nat
  {
    var l := Listing(env.fs, dir);
    |l.files| + |l.dirs|
  }

  function CountLine(env: Env, c: Category): string
  {
    "- **" + c.name + "** - `" + CategoryPath(c) + "/` (" + NatToString(ItemsIn(env, CategoryDir(env, c))) + " items)"
  }

  /** One line for each name whose category directory exists, in the
      order of the names. */
  function CountLines(env: Env, cs: seq<Category>, names: seq<string>): (r: seq<string>)
    ensures |r| <= |names|
  {
    if names == [] then []
    else
      var front := CountLines(env, cs, names[..|names| - 1]);
      match Lookup(cs, names[|names| - 1])
      case None => front
      case Some(c) => if Exists(env.fs, CategoryDir(env, c)) then front + [CountLine(env, c)] else front
  }

  /** The line is the count line of a category whose directory exists. */
  predicate CountedCategory(env: Env, cs: seq<Category>, line: string)
  {
    exists k :: 0 <= k < |cs| && Exists(env.fs, CategoryDir(env, cs[k])) && line == CountLine(env, cs[k])
  }

  /** Every count line is for an existing category directory. */
  lemma {:induction false} CountLinesSound(env: Env, cs: seq<Category>, names: seq<string>)
    ensures forall i :: 0 <= i < |CountLines(env, cs, names)| ==> CountedCategory(env, cs, CountLines(env, cs, names)[i])
    decreases |names|
  {
    if names != [] {
      var front := names[..|names| - 1];
      CountLinesSound(env, cs, front);
      var f := CountLines(env, cs, front);
      var o := Lookup(cs, names[|names| - 1]);
      if o.Some? && Exists(env.fs, CategoryDir(env, o.value)) {
        var k :| 0 <= k < |cs| && cs[k] == o.value;
        assert CountedCategory(env, cs, CountLine(env, o.value));
        assert CountLines(env, cs, names) == f + [CountLine(env, o.value)];
      }
    }
  }

  /** Every named category whose directory exists has its line. */
  lemma {:induction false} CountLinesComplete(env: Env, cs: seq<Category>, names: seq<string>, j: int)
    requires 0 <= j < |names| && Lookup(cs, names[j]).Some? && Exists(env.fs, CategoryDir(env, Lookup(cs, names[j]).value))
    ensures CountLine(env, Lookup(cs, names[j]).value) in CountLines(env, cs, names)
    decreases |names|
  {
    var front := names[..|names| - 1];
    var f := CountLines(env, cs, front);
    assert f <= CountLines(env, cs, names);
    if j < |front| {
      assert front[j] == names[j];
      CountLinesComplete(env, cs, front, j);
    }
  }

  function SnippetCount(env: Env): string
  {
    "\n**Code Snippets:** " + NatToString(|Listing(env.fs, env.snippetDir).files|) + " reference snippets in `_snippets/`"
  }

  /** The listing branch: the header, one line per existing category in
      the order of the sorted names, then the snippet count when the
      snippet directory exists. */
  function ListingLines(env: Env, cs: seq<Category>): (r: seq<string>)
    ensures 2 <= |r| <= 3 + |cs|
    ensures r[..2] == ListingHeader
  {
    var names := SortStrings(CategoryNames(cs));
    SortStringsCorrect(CategoryNames(cs));
    ListingHeader + CountLines(env, cs, names) + (if Exists(env.fs, env.snippetDir) then [SnippetCount(env)] else [])
  }

  /** Every key whose directory exists has its count line. */
  lemma {:induction false} ListingComplete(env: Env, cs: seq<Category>, name: string)
    requires Lookup(cs, name).Some? && Exists(env.fs, CategoryDir(env, Lookup(cs, name).value))
    ensures CountLine(env, Lookup(cs, name).value) in ListingLines(env, cs)
  {
    var names := SortStrings(CategoryNames(cs));
    NameSorted(cs, name);
    var j :| 0 <= j < |names| && names[j] == name;
    CountLinesComplete(env, cs, names, j);
    InMiddle(CountLine(env, Lookup(cs, name).value), ListingHeader, CountLines(env, cs, names),
      if Exists(env.fs, env.snippetDir) then [SnippetCount(env)] else []);
  }

  /** A key is among the sorted keys. */
  lemma {:induction false} NameSorted(cs: seq<Category>, name: string)
    requires Lookup(cs, name).Some?
    ensures name in SortStrings(CategoryNames(cs))
  {
    SortStringsCorrect(CategoryNames(cs));
    var k :| 0 <= k < |cs| && cs[k] == Lookup(cs, name).value;
    assert CategoryNames(cs)[k] == name;
    assert name in multiset(CategoryNames(cs));
  }

  lemma {:induction false} InMiddle(x: string, a: seq<string>, b: seq<string>, c: seq<string>)
    requires x in b
    ensures x in a + b + c
  {
    var m :| 0 <= m < |b| && b[m] == x;
    assert (a + b + c)[|a| + m] == x;
  }

  // ---------------------------------------------------------------------
  // agno_examples

  /** agno_examples over a category table, with category None as "" and
      query_keywords None as []: the answer (or the error a search raises)
      and the snippet cache afterwards. */
  function ExamplesAnswer(env: Env, cs: seq<Category>, category: string, query: seq<string>, cache: Cache)
    : (r: (Result<string>, Cache))
    ensures Grows(env, cache, r.1)
  {
    if !Exists(env.fs, env.base) then (Ok(ExamplesNotPrepared), cache)
    else if category != "" then
      match Lookup(cs, Strip(Lower(category)))
      case None => (Ok(UnknownCategory(cs, category)), cache)
      case Some(c) =>
        var (lines, c1) := CategoryLines(env, c, category, query, cache);
        (Ok(Join(lines, "\n")), c1)
    else if query != [] then
      match KeywordLines(env, cs, Normalized(query))
      case Err(e) => (Err(e), cache)
      case Ok(lines) => (Ok(Join(lines, "\n")), cache)
    else (Ok(Join(ListingLines(env, cs), "\n")), cache)
  }

  /** agno_examples, over EXAMPLE_CATEGORIES. */
  function AgnoExamples(env: Env, category: string, query: seq<string>, cache: Cache): (r: (Result<string>, Cache))
    ensures Grows(env, cache, r.1)
  {
    ExamplesAnswer(env, Categories, category, query, cache)
  }

  /** Without a root there is only the "not found" message; a category
      that is not a key (after lower-casing and stripping) gets the sorted
      list of keys; the snippet cache is left alone. */
  lemma {:induction false} ExamplesAnswerFixed(env: Env, cs: seq<Category>, category: string, query: seq<string>, cache: Cache)
    ensures !Exists(env.fs, env.base) ==> ExamplesAnswer(env, cs, category, query, cache) == (Ok(ExamplesNotPrepared), cache)
    ensures Exists(env.fs, env.base) && category != "" && Lookup(cs, Strip(Lower(category))).None? ==>
      ExamplesAnswer(env, cs, category, query, cache) == (Ok(UnknownCategory(cs, category)), cache)
  {
  }

  /** Without a category nothing touches the snippet cache. */
  lemma {:induction false} ExamplesAnswerKeepsCache(env: Env, cs: seq<Category>, query: seq<string>, cache: Cache)
    ensures ExamplesAnswer(env, cs, "", query, cache).1 == cache
  {
  }

  /** Only the keyword search can fail, and only when a directory it
      walks exists without being one. */
  lemma {:induction false} ExamplesAnswerErr(env: Env, cs: seq<Category>, category: string, query: seq<string>, cache: Cache)
    requires ExamplesAnswer(env, cs, category, query, cache).0.Err?
    ensures Exists(env.fs, env.base) && category == "" && query != []
    ensures (exists i :: 0 <= i < |cs| && Exists(env.fs, CategoryDir(env, cs[i])) && !IsDirectory(env.fs, CategoryDir(env, cs[i]))) ||
       (Exists(env.fs, env.snippetDir) && !IsDirectory(env.fs, env.snippetDir))
  {
    var keywords := Normalized(query);
    assert KeywordLines(env, cs, keywords).Err?;
    KeywordLinesShape(env, cs, keywords);
    SnippetMatchesShape(env, keywords);
  }

  // ---------------------------------------------------------------------
  // The tool as the server runs it, against the two caches

  /** The category branch of agno_examples. */
  method CategoryExamples(env: Env, c: Category, category: string, query: seq<string>, snippets: SnippetCache)
    returns (lines: seq<string>)
    modifies snippets
    ensures (lines, snippets.entries) == CategoryLines(env, c, category, query, old(snippets.entries))
  {
    var dir := CategoryDir(env, c);
    if !Exists(env.fs, dir) {
      return [MissingCategory(category)];
    }
    lines := CategoryHeader(c, category);
    var examples := CollectExamplesFromDir(env, dir, CategoryPath(c), 0, snippets);
    if query != [] {
      var keywords := NormalizeKeywords(query);
      examples := Filtered(examples, keywords);
    }
    if examples != [] {
      lines := AppendAll(lines, PyHead(examples, ExamplesCap));
    } else {
      lines := lines + [NoCategoryMatch];
    }
  }

  /** The items appended one by one. */
  method AppendAll(lines: seq<string>, items: seq<string>) returns (r: seq<string>)
    ensures r == lines + items
  {
    r := lines;
    for i := 0 to |items|
      invariant r == lines + items[..i]
    {
      assert items[..i + 1] == items[..i] + [items[i]];
      r := r + [items[i]];
    }
    assert items[..|items|] == items;
  }

  /** The hit lines of one search, appended one by one. */
  method AppendMatches(all: seq<string>, path: string, name: string, hits: seq<string>) returns (r: seq<string>)
    ensures r == all + MatchLines(path, name, hits)
  {
    r := all;
    for j := 0 to |hits|
      invariant r == all + MatchLines(path, name, hits[..j])
    {
      assert hits[..j + 1][..j] == hits[..j];
      r := r + [MatchLine(path, name, hits[j])];
    }
    assert hits[..|hits|] == hits;
  }

  /** The body of the loop over the categories of the keyword branch. */
  method SearchCategory(env: Env, c: Category, keywords: seq<string>, walks: MdxFileCache)
    returns (r: Result<seq<string>>)
    requires walks.Valid(env.fs)
    modifies walks
    ensures walks.Valid(env.fs)
    ensures r == CategoryStep(env, keywords)(c)
  {
    var dir := CategoryDir(env, c);
    if !Exists(env.fs, dir) {
      return Ok([]);
    }
    PlainUnder(env.base, c.dir);
    var matched := SearchDocuments(env.fs, dir, keywords, SearchCap, walks);
    if matched.Err? {
      return Err(matched.msg);
    }
    var lines := AppendMatches([], CategoryPath(c), c.name, matched.value);
    assert lines == MatchLines(CategoryPath(c), c.name, matched.value);
    return Ok(lines);
  }

  /** The loop over the categories of the keyword branch. */
  method SearchCategories(env: Env, cs: seq<Category>, keywords: seq<string>, walks: MdxFileCache)
    returns (r: Result<seq<string>>)
    requires walks.Valid(env.fs)
    modifies walks
    ensures walks.Valid(env.fs)
    ensures r == CategoryMatches(env, cs, keywords)
  {
    ghost var step := CategoryStep(env, keywords);
    var all: seq<string> := [];
    for i := 0 to |cs|
      invariant walks.Valid(env.fs)
      invariant Gather(step, cs[..i]) == Ok(all)
    {
      GatherStep(step, cs, i, all);
      var more := SearchCategory(env, cs[i], keywords, walks);
      if more.Err? {
        GatherStop(step, cs, i + 1);
        return Err(more.msg);
      }
      all := all + more.value;
    }
    assert cs[..|cs|] == cs;
    return Ok(all);
  }

  /** The snippet search of the keyword branch. */
  method SearchSnippets(env: Env, keywords: seq<string>, walks: MdxFileCache) returns (r: Result<seq<string>>)
    requires walks.Valid(env.fs)
    modifies walks
    ensures walks.Valid(env.fs)
    ensures r == SnippetMatches(env, keywords)
  {
    if !Exists(env.fs, env.snippetDir) {
      return Ok([]);
    }
    var matched := SearchDocuments(env.fs, env.snippetDir, keywords, SearchCap, walks);
    if matched.Err? {
      return Err(matched.msg);
    }
    var lines := AppendMatches([], "_snippets", "snippet", matched.value);
    assert lines == MatchLines("_snippets", "snippet", matched.value);
    return Ok(lines);
  }

  /** The keyword branch of agno_examples. */
  method KeywordSearch(env: Env, cs: seq<Category>, keywords: seq<string>, walks: MdxFileCache)
    returns (r: Result<seq<string>>)
    requires walks.Valid(env.fs)
    modifies walks
    ensures walks.Valid(env.fs)
    ensures r == KeywordLines(env, cs, keywords)
  {
    var fromCategories := SearchCategories(env, cs, keywords, walks);
    if fromCategories.Err? {
      return Err(fromCategories.msg);
    }
    var fromSnippets := SearchSnippets(env, keywords, walks);
    if fromSnippets.Err? {
      return Err(fromSnippets.msg);
    }
    var all := fromCategories.value + fromSnippets.value;
    if all != [] {
      return Ok(KeywordHeader(keywords) + PyHead(all, MatchesCap));
    }
    return Ok([NoKeywordMatch]);
  }

  /** The listing branch of agno_examples. */
  method ListCategories(env: Env, cs: seq<Category>) returns (lines: seq<string>)
    ensures lines == ListingLines(env, cs)
  {
    var names := SortStrings(CategoryNames(cs));
    var counts: seq<string> := [];
    for i := 0 to |names|
      invariant counts == CountLines(env, cs, names[..i])
    {
      assert names[..i + 1][..i] == names[..i];
      var found := Lookup(cs, names[i]);
      if found.Some? {
        var dir := CategoryDir(env, found.value);
        if Exists(env.fs, dir) {
          var contents := ListDirectory(env.fs, dir);
          var fileCount := |contents.files| + |contents.dirs|;
          counts := counts + ["- **" + found.value.name + "** - `" + CategoryPath(found.value) + "/` (" + NatToString(fileCount) + " items)"];
        }
      }
    }
    assert names[..|names|] == names;
    lines := ListingHeader + counts;
    if Exists(env.fs, env.snippetDir) {
      var contents := ListDirectory(env.fs, env.snippetDir);
      lines := lines + ["\n**Code Snippets:** " + NatToString(|contents.files|) + " reference snippets in `_snippets/`"];
    }
  }

  /** agno_examples */
  method AgnoExamplesTool(env: Env, category: string, query: seq<string>, snippets: SnippetCache, walks: MdxFileCache)
    returns (r: Result<string>)
    requires walks.Valid(env.fs)
    modifies snippets, walks
    ensures walks.Valid(env.fs)
    ensures (r, snippets.entries) == AgnoExamples(env, category, query, old(snippets.entries))
  {
    if !Exists(env.fs, env.base) {
      return Ok(ExamplesNotPrepared);
    }
    if category != "" {
      var key := Strip(Lower(category));
      var found := Lookup(Categories, key);
      if found.None? {
        return Ok(UnknownCategory(Categories, category));
      }
      var lines := CategoryExamples(env, found.value, category, query, snippets);
      return Ok(Join(lines, "\n"));
    }
    if query != [] {
      var keywords := NormalizeKeywords(query);
      var lines := KeywordSearch(env, Categories, keywords, walks);
      if lines.Err? {
        return Err(lines.msg);
      }
      return Ok(Join(lines.value, "\n"));
    }
    var lines := ListCategories(env, Categories);
    return Ok(Join(lines, "\n"));
  }
}
