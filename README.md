# agno-docs-mcp, modelled in Dafny

agno-docs-mcp is an MCP server that serves the Agno framework's
documentation to coding assistants. A preparation step copies the
documentation's `.mdx`/`.md` pages into a local `.docs/raw` tree and
builds an index of titles and categories. The server's tools then answer
requests against that tree:

- `agno_docs` fetches a page or lists a directory. A page has its
  YAML front matter parsed and its `<Snippet file="..."/>` tags resolved
  recursively through a snippet cache. An unknown path answers with the
  nearest existing directory and keyword-ranked suggestions.
- `agno_examples` lists, collects and searches the example tree.
- `agno_api` reads the OpenAPI description of the AgentOS API and lists
  its resources or formats their endpoints.

The model covers:

- the utilities behind those tools:
  - path resolution with its traversal guard;
  - directory listing;
  - the cached recursive walk;
  - keyword extraction and normalisation;
  - scoring and ranking;
- the content formatters;
- the three tools;
- the `copy_directory_recursive` / `build_index` / `extract_title` steps
  of the preparation script.

The filesystem is a value, `FileSystem.Snapshot`:

- a set of directories;
- a map from file paths to contents (or a read error);
- a map from each listable directory to its entry names in `iterdir()`
  order.

Paths are sequences of segments. `..` is resolved lexically, as
`Path.resolve()` does when there are no symbolic links. A NUL byte makes
resolution fail, as it does in Python.

The two module-level caches of the source are classes. Each has a map
field that its methods update:

- `Walk.MdxFileCache`, the `_mdx_file_cache` of `utils/search.py`;
- `Snippets.SnippetCache`, the `_snippet_cache` of `utils/content.py`.

Every loop of the source is a `method` with a loop. Each such
method is proved equal to a specification function. The properties the
source promises are lemmas about those functions.

Modules:

- `Outcomes`: Option, Result and the fail-fast loop `Gather`.
- `Text`: case mapping, searching, splitting, joining and stripping of
  strings.
- `Sorting`: `sorted`, `sorted(..., reverse=True)` and `set` as used by
  the source.
- `FileSystem`: paths, the snapshot and reading.
- `Walk`: `walk_mdx_files`.
- `Keywords` and `Search`: `utils/search.py`.
- `Paths`: `utils/paths.py`.
- `Frontmatter`, `Snippets` and `Content`: `utils/content.py`.
- `Docs`: `tools/docs.py`.
- `Examples` and `AgnoExamples`: `tools/examples.py`.
- `Api`: `tools/api.py`.
- `Prepare`: `prepare/prepare_docs.py`.

`parse_frontmatter` is sometimes described as idempotent (stripping a
second time changes nothing). The code is not:

- A body that itself starts with an empty front-matter block loses that
  block on a second parse.
- `Frontmatter.NotIdempotent` exhibits such a document.
- The model follows the code.

## Model

| member | source | states |
|---|---|---|
| Walk.Scan | src/agno_docs_mcp/utils/search.py:42-50 | every path the depth-first scan of a directory yields is a regular `.mdx`/`.md` file strictly below that directory |
| Walk.ScanSound | src/agno_docs_mcp/utils/search.py:42-50 | every path the scan yields is reached from the directory through listed entries, each step into a directory |
| Walk.ScanComplete | src/agno_docs_mcp/utils/search.py:42-50 | every documentation file reached through listed entries is yielded |
| Walk.ScanMembers | src/agno_docs_mcp/utils/search.py:42-50 | a path is yielded exactly when it is a documentation file reached through listed entries |
| Walk.ScanDistinct | src/agno_docs_mcp/utils/search.py:42-50 | when no listing names an entry twice, the scan yields no path twice |
| Walk.ExistingReached | src/agno_docs_mcp/utils/search.py:42-50 | in a snapshot whose listings name exactly the existing children, every existing path below the directory is reached through listed entries |
| Walk.ScanExact | src/agno_docs_mcp/utils/search.py:42-50 | in such a snapshot the scan yields every documentation file below the directory and nothing else, each once, so its length is their number |
| Walk.ScanEntries | src/agno_docs_mcp/utils/search.py:44-48 | every path yielded while scanning a directory's entries is a documentation file below it |
| Walk.Entry | src/agno_docs_mcp/utils/search.py:45-48 | one entry yields only documentation files below the scanned directory: its subtree for a subdirectory, itself for a doc file, nothing otherwise |
| Walk.DirectFilesFound | src/agno_docs_mcp/utils/search.py:47-48 | every `.mdx`/`.md` regular file directly inside a directory is among the files the scan finds |
| Walk.WalkFiles | src/agno_docs_mcp/utils/search.py:22-56 | the walk succeeds exactly when the base is a directory (`iterdir` raises otherwise), and then yields only documentation files below the base |
| Walk.PathStringInjective | src/agno_docs_mcp/utils/search.py:33 | the cache key `str(base_dir)` identifies the directory: two plain paths with the same string are equal |
| Walk.MdxFileCache.constructor | src/agno_docs_mcp/utils/search.py:19 | the walk cache starts empty |
| Walk.MdxFileCache.WalkMdxFiles | src/agno_docs_mcp/utils/search.py:33-56 | the result is always the fresh walk; a cached key returns its stored list and leaves the cache unchanged; an uncached key stores the new list under `str(base_dir)`; a failed walk stores nothing; every stored list equals the walk of its directory |
| Walk.ScanDir | src/agno_docs_mcp/utils/search.py:42-50 | the recursive scan returns exactly the specified depth-first file list, where a directory whose listing fails contributes nothing |
| Search.KeywordsIn | src/agno_docs_mcp/utils/search.py:77-79 | the count of keywords occurring in the lower-cased path is at most the number of keywords |
| Search.KeywordsInZero | src/agno_docs_mcp/utils/search.py:77-79 | that count is zero exactly when no lower-cased keyword occurs in the path |
| Search.KeywordsInAll | src/agno_docs_mcp/utils/search.py:77-79 | that count equals the number of keywords exactly when every keyword occurs in the path |
| Search.RelevanceBounds | src/agno_docs_mcp/utils/search.py:59-89 | path relevance is at most 3 + 3·(number of keywords); it is zero exactly when the path neither starts with `reference/` nor names a high-value directory nor contains a keyword; any keyword in the path gives at least 3 |
| Search.CalculatePathRelevance | src/agno_docs_mcp/utils/search.py:59-89 | the loop computes the specified relevance: 2 for `reference/`, 3 per keyword in the path, 1 for any high-value directory |
| Search.MoreKeywordsScoreHigher | src/agno_docs_mcp/utils/search.py:92-111 | with equal match, title and path counts, a file that matched more distinct keywords always ranks strictly higher |
| Search.MatchedBound | src/agno_docs_mcp/utils/search.py:103 | a set of matched keywords drawn from the keyword list has at most as many elements as the list, so the all-keywords bonus needs every keyword |
| Search.HitKeeps | src/agno_docs_mcp/utils/search.py:146-159 | one keyword hit preserves the tally invariant: distinct insertion order covering exactly the scored paths, each score's matches drawn from the keywords |
| Search.HitOrder | src/agno_docs_mcp/utils/search.py:147-151 | after a hit the insertion order stays duplicate-free and lists exactly the scored paths |
| Search.BumpKeeps | src/agno_docs_mcp/utils/search.py:153-159 | a bumped score keeps its path and path relevance, its matches stay within the keywords and its title count stays within its total |
| Search.ScanKeywordsKeeps | src/agno_docs_mcp/utils/search.py:145-159 | scanning one line against the keywords preserves the tally invariant |
| Search.ScanLinesKeeps | src/agno_docs_mcp/utils/search.py:142-159 | scanning all lines of a file preserves the tally invariant |
| Search.ScanFilesWellFormed | src/agno_docs_mcp/utils/search.py:132-159 | the tally built from all walked files is well formed |
| Search.ScanKeywordsKeys | src/agno_docs_mcp/utils/search.py:145-151 | a line adds the file's path to the scores exactly when some keyword occurs in it; a line with no hit changes nothing; other paths' scores are untouched |
| Search.ScanLinesKeys | src/agno_docs_mcp/utils/search.py:142-151 | a file's path is scored exactly when it already was or one of its lines contains a keyword |
| Search.ScanFileKeys | src/agno_docs_mcp/utils/search.py:134-151 | an unreadable file is skipped; a readable file's relative path is scored exactly when one of its lines contains a keyword |
| Search.ScanFilesKeys | src/agno_docs_mcp/utils/search.py:134-159 | the scored paths are exactly the relative paths of walked, readable files having a line that contains a keyword |
| Search.ScanKeywordsEffect | src/agno_docs_mcp/utils/search.py:153-159 | a line adds its hit count to the total, adds it to the title count exactly when it is a heading (`#` or "title"), adds the keywords found to the matched set and leaves path relevance as first computed |
| Search.HitCountZero | src/agno_docs_mcp/utils/search.py:145-146 | a line without any keyword contributes no matches |
| Search.Values | src/agno_docs_mcp/utils/search.py:163 | `file_scores.values()` lists the scores in insertion order |
| Search.RankingCorrect | src/agno_docs_mcp/utils/search.py:161-166 | the ranking is ordered by non-increasing final score, is a permutation of the tally's scores, keeps the insertion order among equal scores (stable sort), and each entry is the tally's score of its path |
| Search.PyHead | src/agno_docs_mcp/utils/search.py:168 | `s[:limit]` including Python's negative limits: a prefix of length `min(limit, len)`, or `len + limit` for a negative limit |
| Search.PathsOf | src/agno_docs_mcp/utils/search.py:168 | the result lists the path of each ranked score, in order |
| Search.SearchSpec | src/agno_docs_mcp/utils/search.py:114-168 | a search fails exactly when there are keywords and the base is not a directory; no keywords gives no results; a non-negative limit bounds the number of results |
| Search.RankingWitnessed | src/agno_docs_mcp/utils/search.py:142-166 | every ranked path is the relative path of a walked file with a line containing a keyword |
| Search.KeyRanked | src/agno_docs_mcp/utils/search.py:161-166 | every scored path appears in the ranking |
| Search.RankingComplete | src/agno_docs_mcp/utils/search.py:134-166 | every walked file with a line containing a keyword appears in the ranking |
| Search.SearchResultsWitnessed | src/agno_docs_mcp/utils/search.py:114-168 | the results are the first paths of the ranking, and each is the relative path of a documentation file under the base with a keyword hit |
| Search.MatchingPaths | src/agno_docs_mcp/utils/search.py:222-251 | the suggestion text fails only when the search does; a non-empty one starts with the suggestion heading |
| Search.MatchingPathsShape | src/agno_docs_mcp/utils/search.py:239-251 | the text is empty exactly when there are no keywords or no results; otherwise it is the heading followed by at most ten bulleted paths |
| Search.ScoreLine | src/agno_docs_mcp/utils/search.py:143-159 | the keyword loop over one line computes the specified line scan |
| Search.ScoreFile | src/agno_docs_mcp/utils/search.py:135-159 | the per-file work (read, skip on error, scan every line) computes the specified file scan |
| Search.ScoreFiles | src/agno_docs_mcp/utils/search.py:132-159 | the loop over walked files computes the specified tally |
| Search.Paths | src/agno_docs_mcp/utils/search.py:168 | the list comprehension returns each ranked score's path in order |
| Search.SearchDocuments | src/agno_docs_mcp/utils/search.py:114-168 | `search_documents` computes the specified search result, keeps the walk cache valid and, with no keywords, leaves the cache untouched |
| Search.GetMatchingPaths | src/agno_docs_mcp/utils/search.py:222-251 | `get_matching_paths` computes the specified suggestion text and keeps the walk cache valid |
| Keywords.NormalizeKeywords | src/agno_docs_mcp/utils/search.py:199-219 | the loop computes the specified normalised keyword list |
| Keywords.NormalizedCorrect | src/agno_docs_mcp/utils/search.py:199-219 | normalised keywords are distinct, non-empty, lower-case and free of whitespace, and a word is among them exactly when it is the lower-cased form of a whitespace-separated piece of some input keyword |
| Keywords.LowerWord | src/agno_docs_mcp/utils/search.py:215-216 | a non-empty word without whitespace stays non-empty and whitespace-free when lower-cased, and `strip()` leaves it unchanged |
| Keywords.KeptWords | src/agno_docs_mcp/utils/search.py:214-217 | the kept pieces of a keyword are exactly the lower-cased pieces, each non-empty and whitespace-free |
| Keywords.KeptHas | src/agno_docs_mcp/utils/search.py:214-217 | each piece's lower-cased form is kept |
| Keywords.KeptFrom | src/agno_docs_mcp/utils/search.py:214-217 | each kept word is the lower-cased form of some piece |
| Keywords.KeptShape | src/agno_docs_mcp/utils/search.py:215-217 | kept words are non-empty and whitespace-free |
| Keywords.KeptPieces | src/agno_docs_mcp/utils/search.py:214-217 | the words kept from one keyword are exactly its normalised pieces |
| Keywords.PiecesMembers | src/agno_docs_mcp/utils/search.py:212-217 | the words collected from all keywords are exactly the normalised pieces of some keyword |
| Keywords.PiecesHas | src/agno_docs_mcp/utils/search.py:212-217 | every normalised piece of every keyword is collected |
| Keywords.PiecesFrom | src/agno_docs_mcp/utils/search.py:212-217 | every collected word is a normalised piece of some keyword |
| Keywords.PiecesWords | src/agno_docs_mcp/utils/search.py:214-217 | every collected word is non-empty and whitespace-free |
| Keywords.SplitParts | src/agno_docs_mcp/utils/search.py:189 | splitting a file name on `-`, `_` and before capitals yields at least one part |
| Keywords.SplitPartsShape | src/agno_docs_mcp/utils/search.py:189 | the parts joined back with the separators they were split at give the name again; no part holds `-` or `_` or a capital after its first character; a part after a zero-width split starts with a capital, one after `-`/`_` does not |
| Keywords.SplitPlain | src/agno_docs_mcp/utils/search.py:189 | a run without separators or capitals stays in the part it starts |
| Keywords.HyphenatedName | src/agno_docs_mcp/utils/search.py:171-196 | `dir/a-b.mdx` with two different lower-case words of three or more letters gives exactly `[a, b]` |
| Keywords.BuildingAgents | tests/test_tools.py:40-46 | `basics/building-agents.mdx` gives `building` and `agents`, in that order and nothing else |
| Keywords.LongParts | src/agno_docs_mcp/utils/search.py:191-194 | every kept part is longer than two characters |
| Keywords.LongPartsMembers | src/agno_docs_mcp/utils/search.py:191-194 | a word is kept exactly when it is the lower-cased, stripped form of some part and longer than two characters |
| Keywords.ExtractKeywordsFromPath | src/agno_docs_mcp/utils/search.py:171-196 | the loop computes the specified path keywords |
| Keywords.ExtractedCorrect | src/agno_docs_mcp/utils/search.py:171-196 | path keywords are distinct, longer than two characters, and exactly the long normalised parts of the file name without its `.mdx`/`.md` extension |
| Keywords.SplitLast | src/agno_docs_mcp/utils/search.py:183 | the file name is the text after the last `/` |
| Keywords.ExtractedFromName | src/agno_docs_mcp/utils/search.py:183-196 | keywords come from the last path segment only: the directories in front of it do not matter |
| Keywords.CalculateRelevanceScore | src/agno_docs_mcp/utils/search.py:254-276 | the loop adds up `count` of each lower-cased keyword in the lower-cased content, with Python's count of the empty string (length + 1) |
| Keywords.OccurrencesPositive | src/agno_docs_mcp/utils/search.py:264-276 | the relevance score is positive exactly when some keyword occurs in the content |
| Sorting.SortStringsCorrect | src/agno_docs_mcp/utils/paths.py:115-118 | `sorted` of strings is ordered by code point and is a permutation of its input |
| Sorting.SortedUnique | src/agno_docs_mcp/utils/paths.py:115-118 | two sorted permutations of the same strings are equal, so the sorted listing is determined by the set of names |
| Sorting.DedupFromCorrect | src/agno_docs_mcp/utils/search.py:210-219 | collecting into a set keeps each element once and loses none |
| Sorting.SortedSetCorrect | src/agno_docs_mcp/tools/api.py:190 | `sorted(set(xs))` is sorted, duplicate-free, has the same members as `xs` and is no longer |
| Sorting.SortDescCorrect | src/agno_docs_mcp/utils/search.py:162-166 | `sorted(..., key, reverse=True)` is non-increasing in the key, a permutation, and stable among equal keys |
| Text.Lower | src/agno_docs_mcp/utils/search.py:70 | `lower()` maps each character with the same length |
| Text.LowerIdempotent | src/agno_docs_mcp/utils/search.py:143-146 | lower-casing twice equals lower-casing once |
| Text.ContainsLower | src/agno_docs_mcp/utils/search.py:143-146 | a substring stays a substring after both are lower-cased |
| Text.AnyOccurs | src/agno_docs_mcp/utils/search.py:86 | `any(d in s for d in ds)` holds exactly when one of them occurs |
| Text.TrimLeft | src/agno_docs_mcp/utils/paths.py:61 | left `strip` removes exactly the leading run of strip characters |
| Text.TrimRight | src/agno_docs_mcp/utils/paths.py:61 | right `strip` removes exactly the trailing run of strip characters |
| Text.StripCharsShape | src/agno_docs_mcp/utils/paths.py:61 | a stripped string neither starts nor ends with a strip character and occurs in the original |
| Text.Split | src/agno_docs_mcp/utils/search.py:142 | `split(sep)` yields at least one part and no part contains the separator |
| Text.JoinSplit | src/agno_docs_mcp/utils/search.py:142 | joining the parts of a split with the separator gives back the string |
| Text.SplitJoin | src/agno_docs_mcp/tools/examples.py:226-229 | splitting a join of separator-free parts gives back the parts |
| Text.SplitWsParts | src/agno_docs_mcp/utils/search.py:214 | `split()` yields non-empty, whitespace-free words |
| Text.CountPositiveIffContains | src/agno_docs_mcp/utils/search.py:273 | `count` is positive exactly when the substring occurs |
| Text.ReplaceChar | src/agno_docs_mcp/utils/search.py:140 | replacing a character rewrites exactly its occurrences |
| Text.NatToString | src/agno_docs_mcp/tools/api.py:193 | a number's decimal text is a non-empty run of digits |
| Text.StrLeTotal | src/agno_docs_mcp/utils/paths.py:115-118 | string order is total |
| Text.StrLeTrans | src/agno_docs_mcp/utils/paths.py:115-118 | string order is transitive |
| Text.StrLeAntisym | src/agno_docs_mcp/utils/paths.py:115-118 | string order is antisymmetric |
| FileSystem.Segments | src/agno_docs_mcp/utils/paths.py:68 | a joined request becomes segments that are non-empty, not `.` and slash-free, as `pathlib` normalises them |
| FileSystem.CanonPlain | src/agno_docs_mcp/utils/paths.py:40-41 | a path without `..` resolves to itself |
| FileSystem.CanonNul | src/agno_docs_mcp/utils/paths.py:40-43 | a path containing NUL fails to resolve, which is the `ValueError` branch |
| FileSystem.ReadText | src/agno_docs_mcp/utils/content.py:113-114 | reading succeeds only for an existing file and always fails for a missing path |
| FileSystem.RFind | src/agno_docs_mcp/utils/paths.py:79 | returns the last position of a character, or -1 when there is none |
| FileSystem.Suffix | src/agno_docs_mcp/utils/search.py:47 | `Path.suffix` is empty or a dot followed by a dot-free, non-empty ending of the name that is shorter than the name |
| FileSystem.WithSuffixName | src/agno_docs_mcp/utils/paths.py:79-85 | `with_suffix` changes only the last segment, and the new name's suffix is the one given |
| Paths.SafeWithin | src/agno_docs_mcp/utils/paths.py:29-44 | every plain path below the base is accepted |
| Paths.AncestorRejected | src/agno_docs_mcp/utils/paths.py:39-42 | a target that resolves to a proper ancestor of the base is rejected |
| Paths.NulRejected | src/agno_docs_mcp/utils/paths.py:39-44 | a target containing NUL is rejected through the `ValueError` branch |
| Paths.SiblingAccepted | src/agno_docs_mcp/utils/paths.py:42 | the string-prefix test accepts a sibling directory whose name extends the base's last segment (e.g. `raw2` beside `raw`), although that path is not below the base |
| Paths.ResolveDocPath | src/agno_docs_mcp/utils/paths.py:47-88 | an empty request is the base, found; a request not found answers the joined path; a found path exists; a safe request not found names a path that does not exist |
| Paths.Candidates | src/agno_docs_mcp/utils/paths.py:75-85 | the lookup tries three candidates, the requested path first |
| Paths.FirstExisting | src/agno_docs_mcp/utils/paths.py:75-88 | the chosen candidate is the first that exists: none before it does |
| Paths.UnsafeBeforeLookup | src/agno_docs_mcp/utils/paths.py:70-72 | an unsafe request is answered as not found with the joined path before any file is looked at, whatever the filesystem holds |
| Paths.ResolveFound | src/agno_docs_mcp/utils/paths.py:68-88 | a request is found exactly when it is safe and one of the path, the path with `.mdx`, or the path with `.md` exists; the answer is the first such candidate |
| Paths.PlainRequest | src/agno_docs_mcp/utils/paths.py:61-72 | a plain one-segment name is unchanged by cleaning, joins to base + name, resolves to itself and is safe |
| Paths.SameDocumentWithOrWithoutSuffix | src/agno_docs_mcp/utils/paths.py:75-81 | when only `name.mdx` exists, requests for `name` and `name.mdx` resolve to the same file |
| Paths.CanonThroughParent | src/agno_docs_mcp/utils/paths.py:40-41 | `x/../y` under a plain base resolves to base + y |
| Paths.DotDotRequest | src/agno_docs_mcp/utils/paths.py:61-68 | a request `x/../y` keeps its `..` when joined to the base |
| Paths.DotDotInsideFound | src/agno_docs_mcp/utils/paths.py:68-76 | `x/../y`, with `x` an existing directory and `y` an existing file under the base, is safe and found, and the answer is the unresolved joined path |
| Paths.ListDirectory | src/agno_docs_mcp/utils/paths.py:91-118 | the loop computes the specified listing |
| Paths.DirEntriesMembers | src/agno_docs_mcp/utils/paths.py:107-111 | the listed directories are exactly the subdirectory entries, each with a trailing `/` |
| Paths.DocEntriesMembers | src/agno_docs_mcp/utils/paths.py:107-113 | the listed files are exactly the `.mdx`/`.md` regular-file entries |
| Paths.DocEntryHas | src/agno_docs_mcp/utils/paths.py:111-113 | every documentation entry is listed |
| Paths.DocEntryFrom | src/agno_docs_mcp/utils/paths.py:111-113 | every listed file is a documentation entry |
| Paths.ListingCorrect | src/agno_docs_mcp/utils/paths.py:91-118 | a non-directory lists nothing; a directory lists exactly its subdirectories (with `/`) and its documentation files, each list sorted |
| Paths.SortedMembers | src/agno_docs_mcp/utils/paths.py:115-118 | sorting a listing keeps exactly its members |
| Paths.FindNearestDirectory | src/agno_docs_mcp/utils/paths.py:121-142 | the loop computes the specified nearest directory and its relative path |
| Paths.NearestLength | src/agno_docs_mcp/utils/paths.py:134-142 | the nearest directory is found among the request's own prefixes |
| Paths.NearestIsLongestPrefix | src/agno_docs_mcp/utils/paths.py:121-142 | the answer is the longest prefix of the request that is a directory, or the base with an empty relative path when none is |
| Paths.NearestPrefix | src/agno_docs_mcp/utils/paths.py:136-142 | the answer is that prefix, and it is a directory |
| Paths.NearestNoLonger | src/agno_docs_mcp/utils/paths.py:136-140 | no longer prefix of the request is a directory |
| Paths.AvailablePathLines | src/agno_docs_mcp/utils/paths.py:162-173 | the text has the header, then `Directories:` with one bullet per directory when there are any, then `Files:` with one bullet per file when there are any |
| Paths.AvailablePaths | src/agno_docs_mcp/utils/paths.py:145-173 | a missing docs tree gives the preparation hint; otherwise the lines for the root listing, joined |
| Paths.AvailablePathsLines | src/agno_docs_mcp/utils/paths.py:160-173 | when no name holds a newline, reading the text back line by line gives exactly the header, directory and file lines of the root listing |
| Frontmatter.SpaceRunEnd | src/agno_docs_mcp/utils/content.py:88 | `\s*` ends at the first non-whitespace character |
| Frontmatter.LastNewline | src/agno_docs_mcp/utils/content.py:88 | finds the last newline in a range, or -1 when there is none |
| Frontmatter.ClosingAt | src/agno_docs_mcp/utils/content.py:88 | a closing `\n---\s*\n` match at a position ends on a newline at least five characters on |
| Frontmatter.FindClosing | src/agno_docs_mcp/utils/content.py:88 | `re.search` finds the leftmost closing match; none exists when it returns nothing |
| Frontmatter.ClosingShape | src/agno_docs_mcp/utils/content.py:88 | a closing match is `\n---`, then only whitespace, ending with a newline |
| Frontmatter.Divide | src/agno_docs_mcp/utils/content.py:84-93 | content not starting with `---` has no header |
| Frontmatter.NoHeaderUnchanged | src/agno_docs_mcp/utils/content.py:84-90 | without an opening `---` or without a closing delimiter, the result is an empty header and the unchanged content |
| Frontmatter.HeaderText | src/agno_docs_mcp/utils/content.py:88-93 | a document with a header is `---` + header text + `\n---` + whitespace ending in a newline + body |
| Frontmatter.HeaderShape | src/agno_docs_mcp/utils/content.py:84-100 | the header text holds no earlier closing delimiter, and the result is the loader's mapping (or an empty one on a YAML error) with that body |
| Frontmatter.NotIdempotent | src/agno_docs_mcp/utils/content.py:75-100 | a body that itself starts with an empty front-matter block loses it on a second parse, so parsing is not idempotent |
| Frontmatter.ClosedEmptyHeader | src/agno_docs_mcp/utils/content.py:84-93 | `---\n---\n` followed by non-whitespace is an empty header before the rest |
| Frontmatter.BodyOfParse | src/agno_docs_mcp/utils/content.py:92-100 | the body does not depend on the YAML loader |
| Snippets.FindQuote | src/agno_docs_mcp/utils/content.py:38 | finds the next quote character |
| Snippets.MatchTag | src/agno_docs_mcp/utils/content.py:37-40 | a matched `<Snippet file="..."/>` tag ends on `>` after its start and names a non-empty, quote-free file |
| Snippets.Resolve | src/agno_docs_mcp/utils/content.py:23-72 | depth 0 or less returns the content and cache unchanged; the cache only grows, and only by snippets that could be read |
| Snippets.SubFrom | src/agno_docs_mcp/utils/content.py:72 | substituting the rest of the text only grows the cache, and only by readable snippets |
| Snippets.Replace | src/agno_docs_mcp/utils/content.py:42-70 | a cached name returns its cached text; a missing file gives the not-found marker; a failed read gives the load-failed marker; a readable snippet is cached under its name with the text returned; the cache only grows |
| Snippets.NoTagUnchanged | src/agno_docs_mcp/utils/content.py:72 | text without tags is copied unchanged |
| Snippets.NoTagResolve | src/agno_docs_mcp/utils/content.py:37-40 | content without tags resolves to itself and leaves the cache alone |
| Snippets.DepthOneInlinesVerbatim | src/agno_docs_mcp/utils/content.py:58-66 | at the last depth a snippet is inlined as its stripped body without resolving its own tags, and cached |
| Snippets.SubFromTag | src/agno_docs_mcp/utils/content.py:72 | at a tag the output is the replacement followed by the substitution of the rest |
| Snippets.SubFromText | src/agno_docs_mcp/utils/content.py:72 | elsewhere the output is the character followed by the substitution of the rest |
| Snippets.SnippetCache.constructor | src/agno_docs_mcp/utils/content.py:13 | the snippet cache starts empty |
| Snippets.SnippetCache.ResolveSnippets | src/agno_docs_mcp/utils/content.py:23-72 | the resolved text and the new cache are those specified for the old cache |
| Snippets.SnippetCache.ResolveAt | src/agno_docs_mcp/utils/content.py:72 | one step of the substitution consumes at least one character and outputs what the specification does there |
| Snippets.SnippetCache.ReplaceSnippet | src/agno_docs_mcp/utils/content.py:42-70 | one tag's replacement and the new cache are those specified |
| Content.ReadMdx | src/agno_docs_mcp/utils/content.py:103-123 | an unreadable file gives an empty header and the error text; otherwise the header is the parsed front matter and, without tag resolution, the body is the parsed body; the cache only grows |
| Content.PlainFileReadsBack | src/agno_docs_mcp/utils/content.py:113-121 | a file without front matter or tags reads back as its exact text with an empty header |
| Content.FileContentLines | src/agno_docs_mcp/utils/content.py:196-212 | a page is its title heading, its file line, its description line when there is one, an empty line and its stripped body |
| Content.Block | src/agno_docs_mcp/utils/content.py:148-162 | an empty list shows its notice; otherwise its title and one bullet per item |
| Content.ListingHead | src/agno_docs_mcp/utils/content.py:141-168 | the listing starts with its title and an empty line, with a length fixed by the numbers of directories and files |
| Content.ListingHeadLines | src/agno_docs_mcp/utils/content.py:148-162 | the directory block shows "No subdirectories." or one bullet per subdirectory, and the file block likewise for files |
| Content.FileSection | src/agno_docs_mcp/utils/content.py:170-181 | each inlined file gives seven lines: its title heading, its file line, its stripped body and a rule |
| Content.Sections | src/agno_docs_mcp/utils/content.py:170-181 | inlining files only grows the snippet cache, and only by readable snippets |
| Content.SectionsShape | src/agno_docs_mcp/utils/content.py:170-181 | inlining n files gives 7·n lines, the i-th section naming the i-th file |
| Content.SectionsSnoc | src/agno_docs_mcp/utils/content.py:170-181 | one more file appends its section, read with the cache left by the files before it |
| Content.DirectoryListing | src/agno_docs_mcp/utils/content.py:126-183 | the cache only grows; without contents the listing is its head alone and reads no file |
| Content.ListingStartsWithTitle | src/agno_docs_mcp/utils/content.py:143-146 | every listing starts with its title |
| Content.EntryLines | src/agno_docs_mcp/utils/content.py:246-252 | one bullet per entry, prefixed by the nearest path |
| Content.EntryBlock | src/agno_docs_mcp/utils/content.py:243-253 | an empty list shows nothing; otherwise its heading and one bullet per entry |
| Content.SuggestionBlock | src/agno_docs_mcp/utils/content.py:255-259 | suggestions show a rule, their heading and at most ten bullets |
| Content.NotFoundLines | src/agno_docs_mcp/utils/content.py:232-259 | the error starts with its title and the nearest-directory heading, followed by the directory, file and suggestion blocks when present |
| Content.NotFoundDirectories | src/agno_docs_mcp/utils/content.py:243-247 | each nearby directory appears as a bullet under `**Directories:**` |
| Content.NotFoundFiles | src/agno_docs_mcp/utils/content.py:249-253 | each nearby file appears as a bullet under `**Files:**` |
| Content.NotFoundSuggestions | src/agno_docs_mcp/utils/content.py:255-259 | the first ten suggestions appear as bullets after the suggestion heading |
| Content.FormatNotFoundError | src/agno_docs_mcp/utils/content.py:215-261 | the error text starts with its title naming the requested path |
| Content.ReadMdxFile | src/agno_docs_mcp/utils/content.py:103-123 | the document and new snippet cache are those specified |
| Content.FormatFileContent | src/agno_docs_mcp/utils/content.py:186-212 | the page is the specified lines of the read document, and the cache is the one left by reading it |
| Content.FormatDirectoryListing | src/agno_docs_mcp/utils/content.py:126-183 | the listing and the new cache are those specified |
| Content.ReadSections | src/agno_docs_mcp/utils/content.py:170-181 | the loop over files gives the specified sections and cache |
| Docs.ClassifyCorrect | src/agno_docs_mcp/tools/docs.py:59-87 | a request is rejected exactly when it is unsafe; a directory and a file are what resolution found; a missing request names a path that does not exist |
| Docs.DirectoryText | src/agno_docs_mcp/tools/docs.py:72-81 | a directory answer starts with its heading and the listing, and cannot fail when the docs root is a directory |
| Docs.FileAnswer | src/agno_docs_mcp/tools/docs.py:82-84 | a file answer starts with the document's title and leaves the cache that reading left |
| Docs.MissingAnswer | src/agno_docs_mcp/tools/docs.py:86-96 | a missing-path answer starts with its heading and the not-found title; it cannot fail without a query or with a docs root that is a directory |
| Docs.Fetch | src/agno_docs_mcp/tools/docs.py:53-96 | fetching one path cannot fail when the docs root is a directory |
| Docs.FetchShape | src/agno_docs_mcp/tools/docs.py:53-96 | an unsafe request gets the invalid-path message; a directory its heading and listing; a file its title; a missing path its not-found text with the cache untouched |
| Docs.NoQueryNoSuggestions | src/agno_docs_mcp/tools/docs.py:72-96 | without a query, a directory answer is its heading and listing, and a missing path gets the not-found text with no suggestions |
| Docs.AnswerAll | src/agno_docs_mcp/tools/docs.py:44-48 | a successful loop answers every path |
| Docs.AnswerAllInOrder | src/agno_docs_mcp/tools/docs.py:46-48 | the i-th answer is computed with the cache left by the paths before it |
| Docs.AnswerAllStop | src/agno_docs_mcp/tools/docs.py:46-48 | the first failure ends the loop |
| Docs.AnswerAllOk | src/agno_docs_mcp/tools/docs.py:46-48 | the loop succeeds when no answer fails |
| Docs.AgnoDocsAnswers | src/agno_docs_mcp/tools/docs.py:20-50 | a missing docs tree gives the not-prepared message; otherwise the result joins the answers to each path, in order, with the section separator |
| Docs.FetchDirectory | src/agno_docs_mcp/tools/docs.py:72-81 | the directory branch gives the specified text and snippet cache |
| Docs.FetchFile | src/agno_docs_mcp/tools/docs.py:82-84 | the file branch gives the specified text and cache |
| Docs.FetchMissing | src/agno_docs_mcp/tools/docs.py:86-96 | the missing branch gives the specified text |
| Docs.FetchSinglePath | src/agno_docs_mcp/tools/docs.py:53-96 | `_fetch_single_path` gives the specified answer and snippet cache |
| Docs.AgnoDocsTool | src/agno_docs_mcp/tools/docs.py:20-50 | `agno_docs` gives the specified answer and snippet cache |
| Examples.FindFence | src/agno_docs_mcp/tools/examples.py:183 | finds the next code fence |
| Examples.WordEnd | src/agno_docs_mcp/tools/examples.py:183 | `\w*` ends at the first non-word character |
| Examples.NextMatch | src/agno_docs_mcp/tools/examples.py:183 | a matched block advances the scan, has a word-character language and code without a fence |
| Examples.BlocksShape | src/agno_docs_mcp/tools/examples.py:183 | every block `findall` returns has a word-character language and code without a fence |
| Examples.MatchFacts | src/agno_docs_mcp/tools/examples.py:183 | the language ends before the newline and the code runs up to the closing fence |
| Examples.NoFenceNoBlocks | src/agno_docs_mcp/tools/examples.py:183-186 | content without a fence has no code blocks |
| Examples.ScoreTable | src/agno_docs_mcp/tools/examples.py:192-215 | a block's score is one of 1, 2, 5, 8, 10; it is skipped exactly when empty or a `touch`/`mkdir` shell line; it is at least 5 exactly for Python; 10 exactly for Python with an import, def or class |
| Examples.Scores | src/agno_docs_mcp/tools/examples.py:192-215 | one score per block, in order |
| Examples.BestOf | src/agno_docs_mcp/tools/examples.py:189-219 | the best block is a scored one |
| Examples.BestOfStep | src/agno_docs_mcp/tools/examples.py:217-219 | a later block replaces the best only with a strictly higher score |
| Examples.BestOfCorrect | src/agno_docs_mcp/tools/examples.py:189-222 | there is no best block exactly when every block is skipped; the best has the highest score and is the first with it |
| Examples.FencedShape | src/agno_docs_mcp/tools/examples.py:231 | the preview opens and closes with a fence |
| Examples.PreviewCorrect | src/agno_docs_mcp/tools/examples.py:174-231 | the preview is empty exactly when every block is skipped, always empty when the content has no fence, and otherwise opens and closes with a fence |
| Examples.TruncatedLines | src/agno_docs_mcp/tools/examples.py:226-229 | a long block keeps its first lines followed by the truncation marker |
| Examples.ScoreOf | src/agno_docs_mcp/tools/examples.py:193-215 | the scoring branches compute the specified score |
| Examples.ExtractCodePreview | src/agno_docs_mcp/tools/examples.py:174-231 | the loop computes the specified preview |
| Examples.MatchesKeywords | src/agno_docs_mcp/tools/examples.py:234-237 | text matches exactly when one of the keywords occurs in it lower-cased |
| Examples.Filtered | src/agno_docs_mcp/tools/examples.py:83 | the filtered examples are those that match, none lost |
| Examples.ExampleText | src/agno_docs_mcp/tools/examples.py:158-163 | an example starts with its heading and title |
| Examples.FileExample | src/agno_docs_mcp/tools/examples.py:150-163 | a file's example starts with the example heading; the snippet cache only grows |
| Examples.ExampleOf | src/agno_docs_mcp/tools/examples.py:152-163 | the example built from a read document starts with the example heading |
| Examples.FileExamples | src/agno_docs_mcp/tools/examples.py:148-163 | one example per file, each with the heading; the cache only grows |
| Examples.ConcatFacts | src/agno_docs_mcp/tools/examples.py:166-169 | the subdirectory loop returns headed examples within the per-item bound, and the cache only grows |
| Examples.SubdirsFacts | src/agno_docs_mcp/tools/examples.py:166-169 | the examples of the subdirectories are bounded and headed |
| Examples.Collect | src/agno_docs_mcp/tools/examples.py:138-171 | beyond the depth limit nothing is collected; otherwise a bounded number of headed examples; the cache only grows |
| Examples.CollectListed | src/agno_docs_mcp/tools/examples.py:145-171 | at most ten files and five subdirectories' worth of examples per directory |
| Examples.CollectBound | src/agno_docs_mcp/tools/examples.py:138-171 | a category collects at most 310 examples (10 + 5·(10 + 5·10)) |
| Examples.FileExampleOf | src/agno_docs_mcp/tools/examples.py:150-163 | one file's example and the new cache are those specified |
| Examples.FileExamplesOf | src/agno_docs_mcp/tools/examples.py:148-163 | the file loop gives the specified examples and cache |
| Examples.SubdirExamplesOf | src/agno_docs_mcp/tools/examples.py:166-169 | the subdirectory loop gives the specified examples and cache |
| Examples.SubdirExampleOf | src/agno_docs_mcp/tools/examples.py:167-169 | one subdirectory gives the specified examples and cache |
| Examples.CollectExamplesFromDir | src/agno_docs_mcp/tools/examples.py:138-171 | `_collect_examples_from_dir` gives the specified examples and snippet cache |
| AgnoExamples.CategoryNames | src/agno_docs_mcp/tools/examples.py:11-27 | lists the category names in table order |
| AgnoExamples.Lookup | src/agno_docs_mcp/tools/examples.py:62-70 | a category is found exactly when one has that name |
| AgnoExamples.CategoryBody | src/agno_docs_mcp/tools/examples.py:85-91 | no examples shows the no-match line; otherwise the first examples up to the cap |
| AgnoExamples.CategoryShown | src/agno_docs_mcp/tools/examples.py:80-83 | with a query, the shown examples are exactly those matching the normalised query |
| AgnoExamples.CategoryLines | src/agno_docs_mcp/tools/examples.py:70-91 | a missing category directory gives the missing-category line; the cache only grows |
| AgnoExamples.MatchLines | src/agno_docs_mcp/tools/examples.py:103-104 | one line per hit |
| AgnoExamples.CategoryHits | src/agno_docs_mcp/tools/examples.py:99-104 | searching a category fails exactly when it has keywords and its path exists but is not a directory; it returns at most the search cap |
| AgnoExamples.GatherBound | src/agno_docs_mcp/tools/examples.py:98-104 | a loop of bounded steps returns at most that bound per item |
| AgnoExamples.CategoryMatches | src/agno_docs_mcp/tools/examples.py:98-104 | searching the categories succeeds exactly when each search does; at most the search cap per category |
| AgnoExamples.SnippetMatchesShape | src/agno_docs_mcp/tools/examples.py:107-110 | the snippet search fails exactly like one category search, with the same cap |
| AgnoExamples.KeywordLinesShape | src/agno_docs_mcp/tools/examples.py:94-117 | keyword search fails exactly when a search does; otherwise the no-match line, or the header followed by the first matches up to the cap |
| AgnoExamples.CountLines | src/agno_docs_mcp/tools/examples.py:124-129 | at most one count line per category name |
| AgnoExamples.CountLinesSound | src/agno_docs_mcp/tools/examples.py:124-129 | each count line belongs to an existing category |
| AgnoExamples.CountLinesComplete | src/agno_docs_mcp/tools/examples.py:124-129 | every existing category gets its count line |
| AgnoExamples.ListingLines | src/agno_docs_mcp/tools/examples.py:119-133 | the listing starts with its header and has at most one line per category plus a footer |
| AgnoExamples.ListingComplete | src/agno_docs_mcp/tools/examples.py:119-133 | every existing category appears in the listing |
| AgnoExamples.NameSorted | src/agno_docs_mcp/tools/examples.py:124 | every category name is among the sorted names |
| AgnoExamples.ExamplesAnswer | src/agno_docs_mcp/tools/examples.py:30-135 | the answer only grows the snippet cache |
| AgnoExamples.AgnoExamples | src/agno_docs_mcp/tools/examples.py:30-135 | the tool over the built-in table only grows the snippet cache |
| AgnoExamples.ExamplesAnswerFixed | src/agno_docs_mcp/tools/examples.py:51-68 | a missing example tree gives the not-prepared text; an unknown category the list of known ones; neither touches the cache |
| AgnoExamples.ExamplesAnswerKeepsCache | src/agno_docs_mcp/tools/examples.py:94-133 | without a category no document is read, so the snippet cache is unchanged |
| AgnoExamples.ExamplesAnswerErr | src/agno_docs_mcp/tools/examples.py:94-110 | the tool fails only in a keyword search where a category or snippet path exists but is not a directory |
| AgnoExamples.CategoryExamples | src/agno_docs_mcp/tools/examples.py:70-91 | the category branch gives the specified lines and cache |
| AgnoExamples.AppendMatches | src/agno_docs_mcp/tools/examples.py:103-104 | appends one line per hit |
| AgnoExamples.SearchCategory | src/agno_docs_mcp/tools/examples.py:100-104 | searching one category gives the specified hits |
| AgnoExamples.SearchCategories | src/agno_docs_mcp/tools/examples.py:99-104 | the category loop gives the specified hits |
| AgnoExamples.SearchSnippets | src/agno_docs_mcp/tools/examples.py:107-110 | the snippet search gives the specified hits |
| AgnoExamples.KeywordSearch | src/agno_docs_mcp/tools/examples.py:94-117 | the keyword branch gives the specified lines |
| AgnoExamples.ListCategories | src/agno_docs_mcp/tools/examples.py:119-133 | the listing loop gives the specified lines |
| AgnoExamples.AgnoExamplesTool | src/agno_docs_mcp/tools/examples.py:30-135 | `agno_examples` gives the specified answer and snippet cache |
| Api.Find | src/agno_docs_mcp/tools/api.py:49 | a key is missing exactly when no field has it; otherwise its value is a field's |
| Api.Get | src/agno_docs_mcp/tools/api.py:49-64 | `.get` succeeds exactly on a JSON object |
| Api.GetMeaning | src/agno_docs_mcp/tools/api.py:49-64 | `.get` on a non-object raises AttributeError; a missing key gives the default; any other value comes from the object |
| Api.Members | src/agno_docs_mcp/tools/api.py:51-57 | `.items()` of an object lists its fields, and of anything else raises AttributeError |
| Api.Keys | src/agno_docs_mcp/tools/api.py:57 | the keys of the fields, in order |
| Api.Chars | src/agno_docs_mcp/tools/api.py:72 | iterating a string yields its characters |
| Api.Iterate | src/agno_docs_mcp/tools/api.py:72 | iterating succeeds on arrays, objects and strings, and an array yields its items |
| Api.KeyStrings | src/agno_docs_mcp/tools/api.py:72 | iterating an object yields one key per field |
| Api.Display | src/agno_docs_mcp/tools/api.py:103 | a string is displayed as itself |
| Api.PatternsIn | src/agno_docs_mcp/tools/api.py:45-46 | an unknown resource falls back to `/resource`; a known one uses its table entry |
| Api.PatternsOfResource | src/agno_docs_mcp/tools/api.py:27-46 | the lower-cased resource uses its table patterns, or `/resource` when not in the table |
| Api.ParamDefaults | src/agno_docs_mcp/tools/api.py:72-79 | a parameter builds exactly when it is an object with an object schema; missing fields take the source's defaults |
| Api.RequestBodyOf | src/agno_docs_mcp/tools/api.py:82-87 | a falsy request body gives null; a truthy one without `content` gives the `{}` default schema; a truthy non-object raises, as its `.get` does |
| Api.EndpointsSound | src/agno_docs_mcp/tools/api.py:51-95 | every endpoint returned comes from a wanted path and verb |
| Api.EndpointsComplete | src/agno_docs_mcp/tools/api.py:51-95 | every wanted path and verb gives an endpoint that is returned |
| Api.EndpointsForMeaning | src/agno_docs_mcp/tools/api.py:43-95 | the endpoints returned are exactly those of the paths matching a pattern of the resource, with an HTTP verb |
| Api.VerbsUpper | src/agno_docs_mcp/tools/api.py:58-62 | the listed verbs upper-case to the five HTTP methods |
| Api.EndpointShape | src/agno_docs_mcp/tools/api.py:61-87 | an endpoint has the upper-cased verb and path, its summary, description and parameters with their defaults, a null body when falsy, and otherwise the schema read from `content` → `application/json` → `schema` with `{}` defaults |
| Api.EndpointLists | src/agno_docs_mcp/tools/api.py:72-91 | one parameter per listed parameter and one response per listed status, in order |
| Api.Rows | src/agno_docs_mcp/tools/api.py:117-140 | one table row per item |
| Api.BodyLinesOk | src/agno_docs_mcp/tools/api.py:122-134 | formatting a body fails exactly when a truthy body or property list is not an object, or a property is not an object |
| Api.EndpointLinesHead | src/agno_docs_mcp/tools/api.py:100-110 | an endpoint's text starts with the summary (or path) heading, the verb and path line, an empty line and the description when present |
| Api.EndpointLinesRows | src/agno_docs_mcp/tools/api.py:112-141 | every parameter and every response has its row in the endpoint text |
| Api.GatherTriples | src/agno_docs_mcp/tools/api.py:158-161 | a loop of three-line steps lays out each item's three lines in turn |
| Api.BlocksShape | src/agno_docs_mcp/tools/api.py:158-161 | each endpoint contributes its text, a rule and an empty line, in order |
| Api.GatherRuled | src/agno_docs_mcp/tools/api.py:158-161 | a loop that emits each item's text, a rule and an empty line lays them out in order |
| Api.EndpointsTextOk | src/agno_docs_mcp/tools/api.py:146-163 | no endpoints gives the not-found line; otherwise formatting succeeds exactly when each endpoint's does |
| Api.EndpointsTextShape | src/agno_docs_mcp/tools/api.py:146-163 | the list is the header followed by the endpoint blocks, joined |
| Api.GroupMembers | src/agno_docs_mcp/tools/api.py:171-179 | a group holds exactly the paths of its resource |
| Api.GroupLinesShape | src/agno_docs_mcp/tools/api.py:188-194 | a group shows at most five distinct sorted paths from it (all of them when there are at most five), and a "more" line exactly when there are over five |
| Api.PatternNames | src/agno_docs_mcp/tools/api.py:200 | lists the resource names of the table |
| Api.ResourceOrderMeaning | src/agno_docs_mcp/tools/api.py:171-188 | resources are sorted, distinct, and exactly those of some path |
| Api.AgnoApiCases | src/agno_docs_mcp/tools/api.py:205-230 | no spec, or a spec file holding `null`, gives the not-found text; otherwise no resource gives the resource list and a resource its endpoint list |
| Api.BuildEndpoint | src/agno_docs_mcp/tools/api.py:61-91 | builds the specified endpoint |
| Api.PathEndpoints | src/agno_docs_mcp/tools/api.py:57-93 | the verb loop gives the specified endpoints, and a non-object raises |
| Api.GetEndpointsForResource | src/agno_docs_mcp/tools/api.py:43-95 | `get_endpoints_for_resource` gives the specified endpoints |
| Api.AppendRows | src/agno_docs_mcp/tools/api.py:117-140 | appends one row per item |
| Api.FieldRows | src/agno_docs_mcp/tools/api.py:130-133 | the property loop gives the specified rows, or its error |
| Api.FormatBody | src/agno_docs_mcp/tools/api.py:122-134 | the body branch gives the specified lines |
| Api.FormatParams | src/agno_docs_mcp/tools/api.py:112-120 | the parameter branch appends the specified section |
| Api.FormatResponses | src/agno_docs_mcp/tools/api.py:136-141 | the response branch appends the specified section |
| Api.FormatEndpoint | src/agno_docs_mcp/tools/api.py:98-143 | `format_endpoint` gives the specified text |
| Api.FormatEndpointsList | src/agno_docs_mcp/tools/api.py:146-163 | `format_endpoints_list` gives the specified text |
| Api.GroupStep | src/agno_docs_mcp/tools/api.py:171-179 | one more path joins its resource's group, adding the resource the first time |
| Api.EmptyGroup | src/agno_docs_mcp/tools/api.py:171-179 | a resource that no path has gets no group |
| Api.GroupPaths | src/agno_docs_mcp/tools/api.py:171-179 | the grouping loop gives the resources in first-seen order, with each group's paths |
| Api.FormatGroup | src/agno_docs_mcp/tools/api.py:189-194 | appends the specified group lines |
| Api.SectionOf | src/agno_docs_mcp/tools/api.py:188-194 | a resource's section is its group's lines |
| Api.FormatGroups | src/agno_docs_mcp/tools/api.py:188-194 | the section loop appends the specified sections |
| Api.ListAllResources | src/agno_docs_mcp/tools/api.py:166-202 | `list_all_resources` gives the specified text |
| Api.AgnoApiTool | src/agno_docs_mcp/tools/api.py:205-230 | `agno_api` gives the specified answer, the not-found text for a missing or `null` spec |
| Prepare.FindClose | src/agno_docs_mcp/prepare/prepare_docs.py:325 | finds the leftmost `\n---\s*\n`, or reports there is none |
| Prepare.SpaceEnd | src/agno_docs_mcp/prepare/prepare_docs.py:328 | `\s*` ends at the first non-whitespace character |
| Prepare.GreedyGroup | src/agno_docs_mcp/prepare/prepare_docs.py:328 | the title group spans the value up to its last non-blank character, less at most one quote at either end |
| Prepare.TitleGroup | src/agno_docs_mcp/prepare/prepare_docs.py:328 | the first `title:` line's value is matched, less at most one quote at either end |
| Prepare.StripInner | src/agno_docs_mcp/prepare/prepare_docs.py:330 | stripping quotes from the group equals stripping them from the whole value |
| Prepare.TitleAt | src/agno_docs_mcp/prepare/prepare_docs.py:328-330 | the title is the first `title:` line's value, without the blanks after it, with quotes stripped |
| Prepare.TitleLine | src/agno_docs_mcp/prepare/prepare_docs.py:328-330 | the same, stated on the text around the title line, which may end in blanks |
| Prepare.SearchNone | src/agno_docs_mcp/prepare/prepare_docs.py:328 | without a title line there is no match |
| Prepare.CloseAfter | src/agno_docs_mcp/prepare/prepare_docs.py:325 | a header with no line starting with `---` is closed by the `---` line right after it, and that is the first closing line |
| Prepare.FindFirstClose | src/agno_docs_mcp/prepare/prepare_docs.py:325 | the search for the closing delimiter finds the leftmost closing line |
| Prepare.HeaderOf | src/agno_docs_mcp/prepare/prepare_docs.py:323-330 | a header whose first closing line is the one right after it is the text searched for the title line; other lines starting with `---` may occur in it |
| Prepare.TitleFromHeader | src/agno_docs_mcp/prepare/prepare_docs.py:312-330 | a readable file with a header, closed by its first closing line, and a title line (trailing blanks allowed) gets that title with quotes stripped, and as written when it is not quoted; lines starting with `---` that do not close the header are allowed |
| Prepare.TitleFallback | src/agno_docs_mcp/prepare/prepare_docs.py:323-334 | an unreadable file, one without a header, one whose header is never closed and one whose header (up to its first closing line) has no `title:` line gets its stem with `-` as spaces, in title case |
| Prepare.Matching | src/agno_docs_mcp/prepare/prepare_docs.py:268 | entry names matching the pattern are below the directory and end with the extension |
| Prepare.Glob | src/agno_docs_mcp/prepare/prepare_docs.py:268 | `rglob` yields only paths below the directory whose names end with the extension |
| Prepare.GlobEach | src/agno_docs_mcp/prepare/prepare_docs.py:268 | the same, over a directory's entries |
| Prepare.MatchingMembers | src/agno_docs_mcp/prepare/prepare_docs.py:268 | a path matches exactly when it is a listed entry of the directory whose name ends with the extension |
| Prepare.GlobSound | src/agno_docs_mcp/prepare/prepare_docs.py:268 | every path `rglob` yields is reached from a directory root through listed entries and ends with the extension |
| Prepare.GlobComplete | src/agno_docs_mcp/prepare/prepare_docs.py:268 | every path reached through listed entries whose name ends with the extension is yielded |
| Prepare.GlobDistinct | src/agno_docs_mcp/prepare/prepare_docs.py:268 | when no listing names an entry twice, `rglob` yields no path twice |
| Prepare.Entries | src/agno_docs_mcp/prepare/prepare_docs.py:269-280 | one entry per path, in order |
| Prepare.Cats | src/agno_docs_mcp/prepare/prepare_docs.py:270 | one category per entry, in order |
| Prepare.RecordStep | src/agno_docs_mcp/prepare/prepare_docs.py:282-285 | one more file adds one to its category's count, and adds the category to the order the first time it is met |
| Prepare.TallyCounts | src/agno_docs_mcp/prepare/prepare_docs.py:282-302 | each category is counted exactly, and exactly the categories met are counted |
| Prepare.TallyTotal | src/agno_docs_mcp/prepare/prepare_docs.py:282-302 | the category counts add up to the number of files |
| Prepare.CategoryShape | src/agno_docs_mcp/prepare/prepare_docs.py:270 | a top-level file is in "root"; any other is in its first directory |
| Prepare.RelativeEnds | src/agno_docs_mcp/prepare/prepare_docs.py:269 | the relative name keeps the extension |
| Prepare.NotBoth | src/agno_docs_mcp/prepare/prepare_docs.py:268-287 | no name ends with both `.md` and `.mdx`, so the two globs do not overlap |
| Prepare.MdAfterMdx | src/agno_docs_mcp/prepare/prepare_docs.py:268-302 | all `.mdx` entries come before all `.md` entries |
| Prepare.IndexWithoutRaw | src/agno_docs_mcp/prepare/prepare_docs.py:265-266 | without a raw directory the index is empty, at version 1.0 |
| Prepare.IndexEntries | src/agno_docs_mcp/prepare/prepare_docs.py:268-302 | each index entry is a documentation path under raw, with its relative path, extracted title and category |
| Prepare.IndexComplete | src/agno_docs_mcp/prepare/prepare_docs.py:268-291 | in a snapshot whose listings name exactly the existing children, every `.mdx`/`.md` file below raw has an index entry with its relative path and extracted title |
| Prepare.IndexOrder | src/agno_docs_mcp/prepare/prepare_docs.py:268-302 | every entry is `.mdx` or `.md`, all `.mdx` first |
| Prepare.CountsOf | src/agno_docs_mcp/prepare/prepare_docs.py:282-302 | the category order is distinct and covers exactly the counted categories; each count is exact; the counts add up to the number of files |
| Prepare.IndexCounts | src/agno_docs_mcp/prepare/prepare_docs.py:249-309 | the same, for the index built |
| Prepare.AddFile | src/agno_docs_mcp/prepare/prepare_docs.py:275-285 | adding one file keeps the order and counts those of the files so far |
| Prepare.CountFiles | src/agno_docs_mcp/prepare/prepare_docs.py:268-285 | the file loop appends an entry per path and keeps the order and counts exact |
| Prepare.BuildIndex | src/agno_docs_mcp/prepare/prepare_docs.py:249-309 | `build_index` gives the specified index |
| Prepare.CopyCountScan | src/agno_docs_mcp/prepare/prepare_docs.py:226-246 | a successful copy counts exactly the documentation files the walk finds |
| Prepare.CopyCountExact | src/agno_docs_mcp/prepare/prepare_docs.py:226-246 | in a snapshot whose listings name exactly the existing children, once each, the copy returns the number of documentation files below the directory |
| Prepare.CopyEntriesScan | src/agno_docs_mcp/prepare/prepare_docs.py:239-244 | the same over a directory's entries |
| Prepare.CopyEntryScan | src/agno_docs_mcp/prepare/prepare_docs.py:240-244 | the same for one entry |
| Prepare.CopyCountOk | src/agno_docs_mcp/prepare/prepare_docs.py:226-246 | copying a listable directory succeeds |
| Prepare.CopyEntriesOk | src/agno_docs_mcp/prepare/prepare_docs.py:239-244 | copying the entries of a listable directory succeeds |
| Prepare.CopyCountUnlisted | src/agno_docs_mcp/prepare/prepare_docs.py:239 | a directory that cannot be listed raises its listing error |
| Prepare.CopyUnfold | src/agno_docs_mcp/prepare/prepare_docs.py:239-244 | one more entry adds its count, or raises its error |
| Prepare.CopyStops | src/agno_docs_mcp/prepare/prepare_docs.py:239-244 | the first error ends the copy |
| Prepare.CopyDirectoryRecursive | src/agno_docs_mcp/prepare/prepare_docs.py:226-246 | `copy_directory_recursive` gives the specified count |
| Prepare.CopyOne | src/agno_docs_mcp/prepare/prepare_docs.py:240-244 | one entry gives the specified count |
| Outcomes.GatherOk | src/agno_docs_mcp/tools/docs.py:46-48 | a fail-fast loop succeeds exactly when every step does |
| Outcomes.GatherStop | src/agno_docs_mcp/tools/api.py:51-59 | once a step fails, the loop ends with that error |
| Outcomes.GatherFrom | src/agno_docs_mcp/tools/api.py:51-59 | every output comes from one item's step |
| Outcomes.GatherHas | src/agno_docs_mcp/tools/api.py:51-59 | a successful loop keeps every step's outputs |

## Left out

- I/O and the environment:
  - File reading, directory listing and `stat` become lookups in a `FileSystem.Snapshot`.
  - `get_package_root`, `get_docs_base_dir` and `get_snippets_dir` become parameters (`Env` in `Docs`, `Examples` and `AgnoExamples`).
- `load_openapi_spec` is a parameter of type `Option<Json>`: `None` stands for a missing file, an `OSError` while opening or reading it, or text that is not JSON. A file holding `null` loads as `None` in Python and becomes `Some(JNull)` here; `Api.AgnoApi` treats both alike.
- Api.AgnoApiTool: a spec file that is not valid UTF-8 raises `UnicodeDecodeError` in `load_openapi_spec` (`tools/api.py:22-24`), which is not caught; that crash is not modelled.
- The YAML loader of `parse_frontmatter` is a function parameter. A YAML error is `None`.
- Frontmatter.HeaderShape: the loader's result is always a mapping. A header that loads as a truthy non-mapping (a list, a string, a number) is not modelled. `parse_frontmatter` would return that value, and the next `.get` raises `AttributeError` (`utils/content.py:174`, `utils/content.py:198`, `tools/examples.py:152`); `read_mdx_file` does not catch it.
- In `build_index`, writing `index.json` is left out; the model returns the dictionary.
- In `copy_directory_recursive`:
  - `mkdir` and `shutil.copy2` are left out.
  - The destination is not modelled.
  - The only error modelled is a failing `iterdir`.
- Prepare.BuildIndex requires a plain output path (no `..`), which every real call satisfies.
- Python sets are modelled as lists in first-occurrence order (`normalize_keywords`, `extract_keywords_from_path`, the matched-keyword set). Python's set iteration order is unspecified. One output line depends on it: the `*Keywords: …*` line of the keyword search in `agno_examples` (`tools/examples.py:114`) joins the result of `normalize_keywords`, and the model prints the keywords there in first-occurrence order. No other result depends on the order.
- `.lower()`, `.title()`, `\w` and `\s` are modelled on ASCII-style character classes. Unicode case mapping and Unicode classes are not modelled.
- Regular expressions are modelled with hand-written scanners for the patterns used. There is no regex engine.
- Prepare.TitleLine, Prepare.TitleAt and Prepare.TitleFromHeader: the `^title:\s*["']?(.+?)["']?\s*$` match is modelled for a title line with a non-blank value, which may be followed by blanks. Two cases are not modelled. A `title:` line whose value is blank can make Python's regex backtrack across the line end. A value that is a single quote character followed by blanks makes the group the first blank, not the quote.
- JSON covers objects, arrays, strings, booleans, null and integers. Floats are not modelled.
- `str()`/`repr` escaping of a displayed JSON value is simplified.
- Duplicate JSON keys resolve to the first occurrence; `json.load` would keep the last one.
- `agno_api` takes no query keywords: the source accepts them but does not use them.
- `rglob` is modelled as a depth-first walk in `iterdir` order, not as Python's traversal order.
- Symbolic links are not modelled.
- Physical `stat` of a path that passes through a missing directory and then `..` is resolved lexically. Paths.DotDotInsideFound states the case where that directory exists, so the lexical and physical answers agree.
- Walk.ScanExact, Walk.ExistingReached, Prepare.IndexComplete and Prepare.CopyCountExact assume a snapshot whose listings agree with its files and directories: `Walk.ListsChildren` (each existing path is named in its parent's listing), `Walk.Listable` (every directory below can be listed) and, for counts, `Walk.DistinctListings` (no listing names an entry twice). A real `iterdir` has all three; a directory whose listing fails has no such completeness.
- Walk.WalkFiles: a base that does not exist or is a plain file is `Err`, because `iterdir` raises there. A directory deeper in the tree that cannot be listed contributes nothing, as `PermissionError` is caught.
- `is_safe_path` is modelled as written: a string-prefix check, which `Paths.SiblingAccepted` shows is not segment-aware. The model does not correct it.
- Not part of this model:
  - the other tools: `tools/reference.py`, `tools/migration.py`, `tools/integrations.py` and `tools/agentos.py`;
  - the MCP wiring in `server.py` and `app.py`;
  - the rest of `prepare_docs.py` (cloning the upstream repository and command-line handling).
- Concurrency is not modelled: both caches are single-threaded module state.
