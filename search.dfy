/** Keyword search over the documentation tree (utils/search.py): every
    line of every walked file is checked against every keyword, the files
    with a hit are scored, ranked by a stable descending sort on their final
    score and cut to the limit. */
module Search {
  import opened Text
  import opened Outcomes
  import opened Sorting
  import opened FileSystem
  import opened Walk
  import opened Keywords
  import Content

  // ---------------------------------------------------------------------
  // calculate_path_relevance

  /** The directory names that earn a path one extra point. */
  const HighValueDirs: seq<string> :=
    ["agents", "teams", "workflows", "tools", "memory", "knowledge", "models", "agentos", "integrations"]

  predicate HighValue(pathLower: string)
  {
    exists i :: 0 <= i < |HighValueDirs| && Contains(pathLower, HighValueDirs[i])
  }

  /** How many of the keywords occur, ignoring case, in the lower-cased
      path. */
  function KeywordsIn(pathLower: string, keywords: seq<string>): (r: nat)
    ensures r <= |keywords|
  {
    if keywords == [] then 0
    else
      KeywordsIn(pathLower, keywords[..|keywords| - 1]) +
      (if Contains(pathLower, Lower(keywords[|keywords| - 1])) then 1 else 0)
  }

  /** calculate_path_relevance: 2 for a "reference/" path, 3 per keyword in
      the path, 1 when a high-value directory name occurs. */
  function Relevance(path: string, keywords: seq<string>): nat
  {
    var pl := Lower(path);
    (if StartsWith(pl, "reference/") then 2 else 0) + 3 * KeywordsIn(pl, keywords) +
    (if HighValue(pl) then 1 else 0)
  }

  /** No keyword in the path counts nothing; any keyword counts. */
  lemma {:induction false} KeywordsInZero(pathLower: string, keywords: seq<string>)
    ensures KeywordsIn(pathLower, keywords) == 0 <==>
      forall k :: 0 <= k < |keywords| ==> !Contains(pathLower, Lower(keywords[k]))
  {
    if keywords != [] {
      var front := keywords[..|keywords| - 1];
      KeywordsInZero(pathLower, front);
      assert forall k :: 0 <= k < |front| ==> front[k] == keywords[k];
    }
  }

  /** Every keyword in the path counts. */
  lemma {:induction false} KeywordsInAll(pathLower: string, keywords: seq<string>)
    ensures KeywordsIn(pathLower, keywords) == |keywords| <==>
      forall k :: 0 <= k < |keywords| ==> Contains(pathLower, Lower(keywords[k]))
  {
    if keywords != [] {
      var front := keywords[..|keywords| - 1];
      KeywordsInAll(pathLower, front);
      assert forall k :: 0 <= k < |front| ==> front[k] == keywords[k];
    }
  }

  /** The relevance lies between 0 and 3 + 3 per keyword; it is 0 exactly
      when none of its three boosts applies, and at least 3 once a keyword
      is in the path. */
  lemma {:induction false} RelevanceBounds(path: string, keywords: seq<string>)
    ensures Relevance(path, keywords) <= 3 + 3 * |keywords|
    ensures Relevance(path, keywords) == 0 <==>
      !StartsWith(Lower(path), "reference/") && !HighValue(Lower(path)) &&
      forall k :: 0 <= k < |keywords| ==> !Contains(Lower(path), Lower(keywords[k]))
    ensures (exists k :: 0 <= k < |keywords| && Contains(Lower(path), Lower(keywords[k]))) ==>
      Relevance(path, keywords) >= 3
  {
    KeywordsInZero(Lower(path), keywords);
  }

  method CalculatePathRelevance(path: string, keywords: seq<string>) returns (relevance: nat)
    ensures relevance == Relevance(path, keywords)
  {
    relevance := 0;
    var pathLower := Lower(path);
    if StartsWith(pathLower, "reference/") {
      relevance := relevance + 2;
    }
    ghost var boost := relevance;
    for i := 0 to |keywords|
      invariant relevance == boost + 3 * KeywordsIn(pathLower, keywords[..i])
    {
      assert keywords[..i + 1][..i] == keywords[..i];
      if Contains(pathLower, Lower(keywords[i])) {
        relevance := relevance + 3;
      }
    }
    assert keywords[..|keywords|] == keywords;
    var any := false;
    for i := 0 to |HighValueDirs|
      invariant any <==> exists k :: 0 <= k < i && Contains(pathLower, HighValueDirs[k])
    {
      if Contains(pathLower, HighValueDirs[i]) {
        any := true;
      }
    }
    if any {
      relevance := relevance + 1;
    }
  }

  // ---------------------------------------------------------------------
  // FileScore and calculate_final_score

  /** A file with at least one hit: the keywords it matched, the hits, the
      hits on heading lines and its path relevance. */
  datatype FileScore = FileScore(path: string, matched: set<string>, total: nat, title: nat, pathRelevance: nat)

  /** calculate_final_score for a search with n keywords. */
  function FinalScore(s: FileScore, n: nat): int
  {
    s.total + 3 * s.title + 2 * s.pathRelevance + 5 * |s.matched| + (if |s.matched| == n then 10 else 0)
  }

  /** All else equal, matching more of the search's keywords scores
      strictly higher. */
  lemma {:induction false} MoreKeywordsScoreHigher(s: FileScore, t: FileScore, n: nat)
    requires s.total == t.total && s.title == t.title && s.pathRelevance == t.pathRelevance
    requires |s.matched| < |t.matched| <= n
    ensures FinalScore(s, n) < FinalScore(t, n)
  {
  }

  /** A set of keywords taken from a list of n keywords has at most n
      members, so the bound above holds for every file a search scores. */
  lemma {:induction false} MatchedBound(matched: set<string>, keywords: seq<string>)
    requires forall m :: m in matched ==> m in keywords
    ensures |matched| <= |keywords|
  {
    if keywords != [] {
      var last := keywords[|keywords| - 1];
      var front := keywords[..|keywords| - 1];
      var rest := matched - {last};
      forall m | m in rest ensures m in front {
        var i :| 0 <= i < |keywords| && keywords[i] == m;
        assert i < |front| && front[i] == m;
      }
      MatchedBound(rest, front);
      if last in matched {
        assert matched == rest + {last};
      } else {
        assert matched == rest;
      }
    } else {
      assert matched == {} by {
        if m :| m in matched {
          assert false;
        }
      }
    }
  }

  // ---------------------------------------------------------------------
  // The scoring loop of search_documents

  /** keyword.lower() in line.lower() */
  predicate Matches(line: string, keyword: string)
  {
    Contains(Lower(line), Lower(keyword))
  }

  /** A heading line: it starts with "#" or mentions "title". */
  predicate IsHeading(line: string)
  {
    StartsWith(line, "#") || Contains(Lower(line), "title")
  }

  /** Some keyword matches the line. */
  predicate LineHit(line: string, ks: seq<string>)
  {
    exists k :: 0 <= k < |ks| && Matches(line, ks[k])
  }

  /** The relative path of a walked file, with "/" between segments and
      every backslash turned into "/". */
  function RelPath(base: Path, p: Path): string
    requires |base| <= |p|
  {
    ReplaceChar(Join(p[|base|..], "/"), '\\', '/')
  }

  /** file_scores: the relative paths in the order they were first scored,
      and their scores. */
  datatype Tally = Tally(order: seq<string>, scores: map<string, FileScore>)

  /** What a tally keeps: each scored path once in the order, exactly the
      scored paths there, each score for its own path, with at least one
      matched keyword, all of them among the search's keywords, no more
      heading hits than hits, and the path's relevance. */
  predicate WellFormed(t: Tally, keywords: seq<string>)
  {
    NoDuplicates(t.order) &&
    (forall key :: key in t.scores ==> key in t.order) &&
    (forall i :: 0 <= i < |t.order| ==> t.order[i] in t.scores) &&
    forall key :: key in t.scores ==> ScoreFor(t.scores[key], key, keywords)
  }

  predicate ScoreFor(s: FileScore, key: string, keywords: seq<string>)
  {
    s.path == key && s.matched != {} && (forall m :: m in s.matched ==> m in keywords) &&
    s.title <= s.total && |s.matched| <= s.total && s.pathRelevance == Relevance(key, keywords)
  }

  /** The score a path has so far, or a fresh one (FileScore(path=…,
      path_relevance=…)). */
  function Current(t: Tally, key: string, keywords: seq<string>): FileScore
  {
    if key in t.scores then t.scores[key] else FileScore(key, {}, 0, 0, Relevance(key, keywords))
  }

  /** One keyword matched on a line of the file at key: the keyword joins
      the matched set, one more hit, and one more heading hit when the line
      is a heading. */
  function Bump(s: FileScore, line: string, keyword: string): FileScore
  {
    s.(matched := s.matched + {keyword}, total := s.total + 1,
       title := if IsHeading(line) then s.title + 1 else s.title)
  }

  function Hit(t: Tally, key: string, line: string, keyword: string, keywords: seq<string>): Tally
  {
    var order := if key in t.scores then t.order else t.order + [key];
    Tally(order, t.scores[key := Bump(Current(t, key, keywords), line, keyword)])
  }

  /** The keywords ks tried in turn against one line. */
  function ScanKeywords(t: Tally, key: string, line: string, ks: seq<string>, keywords: seq<string>): Tally
  {
    if ks == [] then t
    else
      var t1 := ScanKeywords(t, key, line, ks[..|ks| - 1], keywords);
      if Matches(line, ks[|ks| - 1]) then Hit(t1, key, line, ks[|ks| - 1], keywords) else t1
  }

  /** Every keyword against each line in turn. */
  function ScanLines(t: Tally, key: string, lines: seq<string>, keywords: seq<string>): Tally
  {
    if lines == [] then t
    else ScanKeywords(ScanLines(t, key, lines[..|lines| - 1], keywords), key, lines[|lines| - 1], keywords, keywords)
  }

  /** One walked file: a file that cannot be read is skipped. */
  function ScanFile(fs: Snapshot, base: Path, t: Tally, p: Path, keywords: seq<string>): Tally
    requires |base| <= |p|
  {
    match ReadText(fs, p)
    case Err(_) => t
    case Ok(content) => ScanLines(t, RelPath(base, p), Split(content, '\n'), keywords)
  }

  /** The tally after the walked files, in walk order. */
  function ScanFiles(fs: Snapshot, base: Path, files: seq<Path>, keywords: seq<string>): Tally
    requires forall i :: 0 <= i < |files| ==> |base| <= |files[i]|
  {
    if files == [] then Tally([], map[])
    else ScanFile(fs, base, ScanFiles(fs, base, files[..|files| - 1], keywords), files[|files| - 1], keywords)
  }

  /** A hit of one of the search's keywords keeps the tally well formed. */
  lemma {:induction false} HitKeeps(t: Tally, key: string, line: string, keyword: string, keywords: seq<string>)
    requires keyword in keywords && WellFormed(t, keywords)
    ensures WellFormed(Hit(t, key, line, keyword, keywords), keywords)
  {
    var h := Hit(t, key, line, keyword, keywords);
    HitOrder(t, key, line, keyword, keywords);
    BumpKeeps(t, key, line, keyword, keywords);
    forall k | k in h.scores ensures ScoreFor(h.scores[k], k, keywords) {
      if k != key {
        assert h.scores[k] == t.scores[k];
      }
    }
  }

  /** A hit adds its path to the order once, and only when it is new. */
  lemma {:induction false} HitOrder(t: Tally, key: string, line: string, keyword: string, keywords: seq<string>)
    requires WellFormed(t, keywords)
    ensures var h := Hit(t, key, line, keyword, keywords);
      && NoDuplicates(h.order)
      && (forall k :: k in h.scores ==> k in h.order)
      && (forall i :: 0 <= i < |h.order| ==> h.order[i] in h.scores)
  {
    if key !in t.scores {
      assert key !in t.order;
    }
  }

  /** The bumped score is still one for its path. */
  lemma {:induction false} BumpKeeps(t: Tally, key: string, line: string, keyword: string, keywords: seq<string>)
    requires keyword in keywords && WellFormed(t, keywords)
    ensures ScoreFor(Bump(Current(t, key, keywords), line, keyword), key, keywords)
  {
    var s := Current(t, key, keywords);
    assert ScoreFor(s, key, keywords) || s.matched == {};
    assert |s.matched + {keyword}| <= |s.matched| + 1 by {
      if keyword in s.matched {
        assert s.matched + {keyword} == s.matched;
      }
    }
  }

  lemma {:induction false} ScanKeywordsKeeps(t: Tally, key: string, line: string, ks: seq<string>, keywords: seq<string>)
    requires (forall k :: 0 <= k < |ks| ==> ks[k] in keywords) && WellFormed(t, keywords)
    ensures WellFormed(ScanKeywords(t, key, line, ks, keywords), keywords)
  {
    if ks != [] {
      var front := ks[..|ks| - 1];
      assert forall k :: 0 <= k < |front| ==> front[k] == ks[k];
      ScanKeywordsKeeps(t, key, line, front, keywords);
      if Matches(line, ks[|ks| - 1]) {
        HitKeeps(ScanKeywords(t, key, line, front, keywords), key, line, ks[|ks| - 1], keywords);
      }
    }
  }

  lemma {:induction false} ScanLinesKeeps(t: Tally, key: string, lines: seq<string>, keywords: seq<string>)
    requires WellFormed(t, keywords)
    ensures WellFormed(ScanLines(t, key, lines, keywords), keywords)
  {
    if lines != [] {
      ScanLinesKeeps(t, key, lines[..|lines| - 1], keywords);
      ScanKeywordsKeeps(ScanLines(t, key, lines[..|lines| - 1], keywords), key, lines[|lines| - 1], keywords, keywords);
    }
  }

  /** The tally of a search is well formed. */
  lemma {:induction false} ScanFilesWellFormed(fs: Snapshot, base: Path, files: seq<Path>, keywords: seq<string>)
    requires forall i :: 0 <= i < |files| ==> |base| <= |files[i]|
    ensures WellFormed(ScanFiles(fs, base, files, keywords), keywords)
  {
    if files != [] {
      var front := files[..|files| - 1];
      var p := files[|files| - 1];
      ScanFilesWellFormed(fs, base, front, keywords);
      if ReadText(fs, p).Ok? {
        ScanLinesKeeps(ScanFiles(fs, base, front, keywords), RelPath(base, p), Split(ReadText(fs, p).value, '\n'), keywords);
      }
    }
  }

  // ---------------------------------------------------------------------
  // Which files are scored

  /** A readable file with a line some keyword matches. */
  predicate FileHit(fs: Snapshot, p: Path, keywords: seq<string>)
  {
    ReadText(fs, p).Ok? &&
    exists j :: 0 <= j < |Split(ReadText(fs, p).value, '\n')| &&
      LineHit(Split(ReadText(fs, p).value, '\n')[j], keywords)
  }

  /** The walked file p has relative path key and a hit. */
  predicate Witness(fs: Snapshot, base: Path, p: Path, key: string, keywords: seq<string>)
  {
    |base| <= |p| && RelPath(base, p) == key && FileHit(fs, p, keywords)
  }

  lemma {:induction false} ScanKeywordsKeys(t: Tally, key: string, line: string, ks: seq<string>, keywords: seq<string>)
    ensures forall k :: k in ScanKeywords(t, key, line, ks, keywords).scores <==>
      k in t.scores || (k == key && LineHit(line, ks))
    ensures !LineHit(line, ks) ==> ScanKeywords(t, key, line, ks, keywords) == t
    ensures forall k :: k != key && k in t.scores ==>
      ScanKeywords(t, key, line, ks, keywords).scores[k] == t.scores[k]
  {
    if ks != [] {
      var front := ks[..|ks| - 1];
      ScanKeywordsKeys(t, key, line, front, keywords);
      assert forall k :: 0 <= k < |front| ==> front[k] == ks[k];
      assert LineHit(line, ks) <==> LineHit(line, front) || Matches(line, ks[|ks| - 1]);
    }
  }

  lemma {:induction false} ScanLinesKeys(t: Tally, key: string, lines: seq<string>, keywords: seq<string>)
    ensures forall k :: k in ScanLines(t, key, lines, keywords).scores <==>
      k in t.scores || (k == key && exists j :: 0 <= j < |lines| && LineHit(lines[j], keywords))
  {
    if lines != [] {
      var front := lines[..|lines| - 1];
      ScanLinesKeys(t, key, front, keywords);
      ScanKeywordsKeys(ScanLines(t, key, front, keywords), key, lines[|lines| - 1], keywords, keywords);
      assert forall j :: 0 <= j < |front| ==> front[j] == lines[j];
      assert (exists j :: 0 <= j < |lines| && LineHit(lines[j], keywords)) <==>
        (exists j :: 0 <= j < |front| && LineHit(front[j], keywords)) || LineHit(lines[|lines| - 1], keywords);
    }
  }

  /** One file adds its relative path when it has a hit, and nothing else. */
  lemma {:induction false} ScanFileKeys(fs: Snapshot, base: Path, t: Tally, p: Path, keywords: seq<string>)
    requires |base| <= |p|
    ensures forall k :: k in ScanFile(fs, base, t, p, keywords).scores <==>
      k in t.scores || Witness(fs, base, p, k, keywords)
  {
    if ReadText(fs, p).Ok? {
      ScanLinesKeys(t, RelPath(base, p), Split(ReadText(fs, p).value, '\n'), keywords);
    }
  }

  /** A path is scored exactly when some walked file with that relative
      path has a line that some keyword matches: a FileScore is only made
      on a hit. */
  lemma {:induction false} ScanFilesKeys(fs: Snapshot, base: Path, files: seq<Path>, keywords: seq<string>)
    requires forall i :: 0 <= i < |files| ==> |base| <= |files[i]|
    ensures forall k :: k in ScanFiles(fs, base, files, keywords).scores <==>
      exists i :: 0 <= i < |files| && Witness(fs, base, files[i], k, keywords)
  {
    if files != [] {
      var front := files[..|files| - 1];
      var p := files[|files| - 1];
      var t := ScanFiles(fs, base, front, keywords);
      ScanFilesKeys(fs, base, front, keywords);
      ScanFileKeys(fs, base, t, p, keywords);
      assert ScanFiles(fs, base, files, keywords) == ScanFile(fs, base, t, p, keywords);
      forall k ensures k in ScanFile(fs, base, t, p, keywords).scores <==>
        exists i :: 0 <= i < |files| && Witness(fs, base, files[i], k, keywords)
      {
        if exists i :: 0 <= i < |files| && Witness(fs, base, files[i], k, keywords) {
          var i :| 0 <= i < |files| && Witness(fs, base, files[i], k, keywords);
          if i < |front| {
            assert front[i] == files[i];
          }
        }
        if exists i :: 0 <= i < |front| && Witness(fs, base, front[i], k, keywords) {
          var i :| 0 <= i < |front| && Witness(fs, base, front[i], k, keywords);
          assert files[i] == front[i];
        }
      }
    }
  }

  /** One line's worth of hits on a scored path: the hits grow by the
      number of keywords matching the line, the heading hits by the same
      number on a heading line, and the matched set by those keywords. */
  function HitCount(line: string, ks: seq<string>): nat
  {
    if ks == [] then 0
    else HitCount(line, ks[..|ks| - 1]) + (if Matches(line, ks[|ks| - 1]) then 1 else 0)
  }

  lemma {:induction false} ScanKeywordsEffect(t: Tally, key: string, line: string, ks: seq<string>, keywords: seq<string>)
    requires LineHit(line, ks) || key in t.scores
    ensures var s := Current(t, key, keywords);
      var r := ScanKeywords(t, key, line, ks, keywords);
      key in r.scores &&
      r.scores[key].total == s.total + HitCount(line, ks) &&
      r.scores[key].title == s.title + (if IsHeading(line) then HitCount(line, ks) else 0) &&
      r.scores[key].matched == s.matched + (set k | k in ks && Matches(line, k)) &&
      r.scores[key].pathRelevance == s.pathRelevance
  {
    if ks != [] {
      var front := ks[..|ks| - 1];
      var last := ks[|ks| - 1];
      assert forall m :: 0 <= m < |front| ==> front[m] == ks[m];
      assert (set k | k in ks && Matches(line, k)) ==
        (set k | k in front && Matches(line, k)) + (if Matches(line, last) then {last} else {});
      if LineHit(line, front) || key in t.scores {
        ScanKeywordsEffect(t, key, line, front, keywords);
      } else {
        ScanKeywordsKeys(t, key, line, front, keywords);
        assert HitCount(line, front) == 0 by {
          HitCountZero(line, front);
        }
        assert (set k | k in front && Matches(line, k)) == {};
      }
    } else {
      assert (set k | k in ks && Matches(line, k)) == {};
    }
  }

  lemma {:induction false} HitCountZero(line: string, ks: seq<string>)
    requires !LineHit(line, ks)
    ensures HitCount(line, ks) == 0
  {
    if ks != [] {
      var front := ks[..|ks| - 1];
      assert forall m :: 0 <= m < |front| ==> front[m] == ks[m];
      HitCountZero(line, front);
    }
  }

  // ---------------------------------------------------------------------
  // Ranking

  /** file_scores.values(): the scores in the order the paths were first
      scored. */
  function Values(t: Tally): (r: seq<FileScore>)
    requires forall i :: 0 <= i < |t.order| ==> t.order[i] in t.scores
    ensures |r| == |t.order|
    ensures forall i :: 0 <= i < |r| ==> r[i] == t.scores[t.order[i]]
    decreases |t.order|
  {
    if t.order == [] then []
    else [t.scores[t.order[0]]] + Values(Tally(t.order[1..], t.scores))
  }

  /** sorted(…, key=calculate_final_score, reverse=True) */
  function Ranked(t: Tally, n: nat): seq<FileScore>
    requires forall i :: 0 <= i < |t.order| ==> t.order[i] in t.scores
  {
    SortDesc(Values(t), (s: FileScore) => FinalScore(s, n))
  }

  /** The ranking of a whole search over walked files. */
  function Ranking(fs: Snapshot, base: Path, files: seq<Path>, keywords: seq<string>): seq<FileScore>
    requires forall i :: 0 <= i < |files| ==> |base| <= |files[i]|
  {
    ScanFilesWellFormed(fs, base, files, keywords);
    Ranked(ScanFiles(fs, base, files, keywords), |keywords|)
  }

  /** The ranking holds each scored path once, in non-increasing final
      score; among equal scores the first-scored path comes first. */
  lemma {:induction false} RankingCorrect(fs: Snapshot, base: Path, files: seq<Path>, keywords: seq<string>)
    requires forall i :: 0 <= i < |files| ==> |base| <= |files[i]|
    ensures var t := ScanFiles(fs, base, files, keywords);
      var key := (s: FileScore) => FinalScore(s, |keywords|);
      var r := Ranking(fs, base, files, keywords);
      WellFormed(t, keywords) && NonIncreasing(r, key) && multiset(r) == multiset(Values(t)) &&
      (forall k :: WithKey(r, key, k) == WithKey(Values(t), key, k)) &&
      forall i :: 0 <= i < |r| ==> r[i].path in t.scores && t.scores[r[i].path] == r[i] && ScoreFor(r[i], r[i].path, keywords)
  {
    var t := ScanFiles(fs, base, files, keywords);
    ScanFilesWellFormed(fs, base, files, keywords);
    var key := (s: FileScore) => FinalScore(s, |keywords|);
    var v := Values(t);
    SortDescCorrect(v, key);
    var r := Ranking(fs, base, files, keywords);
    forall i | 0 <= i < |r|
      ensures r[i].path in t.scores && t.scores[r[i].path] == r[i] && ScoreFor(r[i], r[i].path, keywords)
    {
      assert r[i] in multiset(v);
      var j :| 0 <= j < |v| && v[j] == r[i];
      assert t.order[j] in t.scores;
    }
  }

  /** ranked_files[:limit], with Python's slicing for a negative limit. */
  function PyHead<T>(s: seq<T>, limit: int): (r: seq<T>)
    ensures limit >= 0 ==> |r| == if limit < |s| then limit else |s|
    ensures limit < 0 ==> |r| == if |s| + limit > 0 then |s| + limit else 0
    ensures r == s[..|r|]
  {
    if limit >= 0 then (if limit < |s| then s[..limit] else s)
    else if |s| + limit > 0 then s[..|s| + limit] else []
  }

  function PathsOf(scores: seq<FileScore>): (r: seq<string>)
    ensures |r| == |scores| && forall i :: 0 <= i < |r| ==> r[i] == scores[i].path
  {
    if scores == [] then [] else [scores[0].path] + PathsOf(scores[1..])
  }

  /** search_documents: [] for no keywords; otherwise the walk's error, or
      the ranked paths cut to the limit. */
  function SearchSpec(fs: Snapshot, base: Path, keywords: seq<string>, limit: int): (r: Result<seq<string>>)
    ensures r.Ok? <==> keywords == [] || IsDirectory(fs, base)
    ensures keywords == [] ==> r == Ok([])
    ensures r.Ok? && limit >= 0 ==> |r.value| <= limit
  {
    if keywords == [] then Ok([])
    else match WalkFiles(fs, base)
      case Err(e) => Err(e)
      case Ok(files) => Ok(PathsOf(PyHead(Ranking(fs, base, files, keywords), limit)))
  }

  /** Every entry of the ranking is for the relative path of a walked file
      with a line that some keyword matches. */
  lemma {:induction false} RankingWitnessed(fs: Snapshot, base: Path, files: seq<Path>, keywords: seq<string>)
    requires forall i :: 0 <= i < |files| ==> |base| <= |files[i]|
    ensures var ranking := Ranking(fs, base, files, keywords);
      forall i :: 0 <= i < |ranking| ==>
        exists j :: 0 <= j < |files| && Witness(fs, base, files[j], ranking[i].path, keywords)
  {
    ScanFilesKeys(fs, base, files, keywords);
    RankingCorrect(fs, base, files, keywords);
  }

  /** Every scored path of a well-formed tally is in its ranking. */
  lemma {:induction false} KeyRanked(t: Tally, keywords: seq<string>, key: string)
    requires WellFormed(t, keywords) && key in t.scores
    ensures exists i :: 0 <= i < |Ranked(t, |keywords|)| && Ranked(t, |keywords|)[i].path == key
  {
    var v := Values(t);
    var ranking := Ranked(t, |keywords|);
    SortDescCorrect(v, (s: FileScore) => FinalScore(s, |keywords|));
    assert key in t.order;
    var m :| 0 <= m < |t.order| && t.order[m] == key;
    assert v[m] in multiset(ranking);
    var i :| 0 <= i < |ranking| && ranking[i] == v[m];
    assert ScoreFor(t.scores[key], key, keywords);
  }

  /** Every walked file with a line that some keyword matches has its
      relative path in the ranking. */
  lemma {:induction false} RankingComplete(fs: Snapshot, base: Path, files: seq<Path>, keywords: seq<string>)
    requires forall i :: 0 <= i < |files| ==> |base| <= |files[i]|
    ensures var ranking := Ranking(fs, base, files, keywords);
      forall j :: 0 <= j < |files| && FileHit(fs, files[j], keywords) ==>
        exists i :: 0 <= i < |ranking| && ranking[i].path == RelPath(base, files[j])
  {
    var t := ScanFiles(fs, base, files, keywords);
    ScanFilesWellFormed(fs, base, files, keywords);
    ScanFilesKeys(fs, base, files, keywords);
    assert Ranking(fs, base, files, keywords) == Ranked(t, |keywords|);
    forall j | 0 <= j < |files| && FileHit(fs, files[j], keywords)
      ensures exists i :: 0 <= i < |Ranked(t, |keywords|)| && Ranked(t, |keywords|)[i].path == RelPath(base, files[j])
    {
      assert Witness(fs, base, files[j], RelPath(base, files[j]), keywords);
      KeyRanked(t, keywords, RelPath(base, files[j]));
    }
  }

  /** search_documents returns the first paths of the ranking: each one the
      relative path of a walked .mdx/.md file with a line that some keyword
      matches, ignoring case. */
  lemma {:induction false} SearchResultsWitnessed(fs: Snapshot, base: Path, keywords: seq<string>, limit: int)
    requires keywords != [] && IsDirectory(fs, base)
    ensures var files := WalkFiles(fs, base).value;
      var r := SearchSpec(fs, base, keywords, limit).value;
      var ranking := Ranking(fs, base, files, keywords);
      |r| <= |ranking| && (forall i :: 0 <= i < |r| ==> r[i] == ranking[i].path) &&
      forall i :: 0 <= i < |r| ==>
        exists j :: 0 <= j < |files| && RelPath(base, files[j]) == r[i] && Found(fs, base, files[j]) &&
          FileHit(fs, files[j], keywords)
  {
    var files := WalkFiles(fs, base).value;
    var ranking := Ranking(fs, base, files, keywords);
    var head := PyHead(ranking, limit);
    var r := SearchSpec(fs, base, keywords, limit).value;
    assert r == PathsOf(head);
    RankingWitnessed(fs, base, files, keywords);
    forall i | 0 <= i < |r|
      ensures exists j :: (0 <= j < |files| && RelPath(base, files[j]) == r[i] && Found(fs, base, files[j]) &&
        FileHit(fs, files[j], keywords))
    {
      assert r[i] == ranking[i].path;
      var j :| 0 <= j < |files| && Witness(fs, base, files[j], ranking[i].path, keywords);
      assert Found(fs, base, files[j]);
    }
  }

  // ---------------------------------------------------------------------
  // get_matching_paths

  /** The keywords get_matching_paths searches with: those of the path and
      those of the query, normalised together. A missing query is an empty
      one. */
  function MatchingKeywords(docPath: string, query: seq<string>): seq<string>
  {
    Normalized(Extracted(docPath) + query)
  }

  /** The suggestion text for some found paths. */
  function SuggestionText(paths: seq<string>): string
  {
    Content.SuggestionHeading + "\n\n" + Join(Content.EntryLines("", paths), "\n")
  }

  function MatchingPaths(fs: Snapshot, base: Path, docPath: string, query: seq<string>): (r: Result<string>)
    ensures r.Ok? <==> MatchingKeywords(docPath, query) == [] || IsDirectory(fs, base)
    ensures r.Ok? && r.value != "" ==> StartsWith(r.value, Content.SuggestionHeading + "\n\n")
  {
    var keywords := MatchingKeywords(docPath, query);
    if keywords == [] then Ok("")
    else match SearchSpec(fs, base, keywords, 10)
      case Err(e) => Err(e)
      case Ok(paths) => Ok(if paths == [] then "" else SuggestionText(paths))
  }

  /** get_matching_paths is empty without keywords or without hits; the
      suggestions are one line per found path, at most ten. */
  lemma {:induction false} MatchingPathsShape(fs: Snapshot, base: Path, docPath: string, query: seq<string>)
    requires MatchingPaths(fs, base, docPath, query).Ok?
    ensures var r := MatchingPaths(fs, base, docPath, query).value;
      var keywords := MatchingKeywords(docPath, query);
      r == "" <==> keywords == [] || SearchSpec(fs, base, keywords, 10).value == []
    ensures var keywords := MatchingKeywords(docPath, query);
      keywords != [] && SearchSpec(fs, base, keywords, 10).value != [] ==>
        var paths := SearchSpec(fs, base, keywords, 10).value;
        |paths| <= 10 &&
        MatchingPaths(fs, base, docPath, query).value == SuggestionText(paths)
  {
    var keywords := MatchingKeywords(docPath, query);
    if keywords != [] && SearchSpec(fs, base, keywords, 10).value != [] {
      var s := SuggestionText(SearchSpec(fs, base, keywords, 10).value);
      assert |s| > 0;
    }
  }

  // ---------------------------------------------------------------------
  // The imperative operations

  /** The keyword loop of search_documents for one line. */
  method ScoreLine(t: Tally, key: string, line: string, keywords: seq<string>) returns (r: Tally)
    ensures r == ScanKeywords(t, key, line, keywords, keywords)
  {
    r := t;
    var lineLower := Lower(line);
    for k := 0 to |keywords|
      invariant r == ScanKeywords(t, key, line, keywords[..k], keywords)
    {
      assert keywords[..k + 1][..k] == keywords[..k];
      if Contains(lineLower, Lower(keywords[k])) {
        ghost var before := r;
        if key !in r.scores {
          var relevance := CalculatePathRelevance(key, keywords);
          r := Tally(r.order + [key], r.scores[key := FileScore(key, {}, 0, 0, relevance)]);
        }
        var score := r.scores[key];
        assert score == Current(before, key, keywords);
        score := score.(matched := score.matched + {keywords[k]}, total := score.total + 1);
        if StartsWith(line, "#") || Contains(lineLower, "title") {
          score := score.(title := score.title + 1);
        }
        assert score == Bump(Current(before, key, keywords), line, keywords[k]);
        r := r.(scores := r.scores[key := score]);
      }
    }
    assert keywords[..|keywords|] == keywords;
  }

  /** The line loop of search_documents for one walked file. */
  method ScoreFile(fs: Snapshot, base: Path, t: Tally, p: Path, keywords: seq<string>) returns (r: Tally)
    requires |base| <= |p|
    ensures r == ScanFile(fs, base, t, p, keywords)
  {
    r := t;
    match ReadText(fs, p) {
      case Err(_) =>
      case Ok(content) =>
        var key := RelPath(base, p);
        var lines := Split(content, '\n');
        for j := 0 to |lines|
          invariant r == ScanLines(t, key, lines[..j], keywords)
        {
          assert lines[..j + 1][..j] == lines[..j];
          r := ScoreLine(r, key, lines[j], keywords);
        }
        assert lines[..|lines|] == lines;
    }
  }

  /** The file loop of search_documents. */
  method ScoreFiles(fs: Snapshot, base: Path, files: seq<Path>, keywords: seq<string>) returns (t: Tally)
    requires forall i :: 0 <= i < |files| ==> |base| <= |files[i]|
    ensures t == ScanFiles(fs, base, files, keywords)
  {
    t := Tally([], map[]);
    for i := 0 to |files|
      invariant t == ScanFiles(fs, base, files[..i], keywords)
    {
      assert files[..i + 1][..i] == files[..i];
      t := ScoreFile(fs, base, t, files[i], keywords);
    }
    assert files[..|files|] == files;
  }

  /** [f.path for f in …] */
  method Paths(scores: seq<FileScore>) returns (paths: seq<string>)
    ensures paths == PathsOf(scores)
  {
    paths := [];
    for i := 0 to |scores|
      invariant paths == PathsOf(scores[..i])
    {
      assert scores[..i + 1] == scores[..i] + [scores[i]];
      PathsOfSnoc(scores[..i], scores[i]);
      paths := paths + [scores[i].path];
    }
    assert scores[..|scores|] == scores;
  }

  /** search_documents: the walk through the file-list cache, the scoring
      loops, the ranking and the cut to the limit. */
  method SearchDocuments(fs: Snapshot, base: Path, keywords: seq<string>, limit: int, cache: MdxFileCache)
    returns (r: Result<seq<string>>)
    requires Plain(base) && cache.Valid(fs)
    modifies cache
    ensures cache.Valid(fs)
    ensures r == SearchSpec(fs, base, keywords, limit)
    ensures keywords == [] ==> cache.entries == old(cache.entries)
  {
    if keywords == [] {
      return Ok([]);
    }
    var walked := cache.WalkMdxFiles(fs, base);
    if walked.Err? {
      return Err(walked.msg);
    }
    var files := walked.value;
    var t := ScoreFiles(fs, base, files, keywords);
    ScanFilesWellFormed(fs, base, files, keywords);
    var paths := Paths(PyHead(Ranked(t, |keywords|), limit));
    r := Ok(paths);
  }

  lemma {:induction false} PathsOfSnoc(s: seq<FileScore>, x: FileScore)
    ensures PathsOf(s + [x]) == PathsOf(s) + [x.path]
  {
  }

  /** get_matching_paths */
  method GetMatchingPaths(fs: Snapshot, base: Path, docPath: string, query: seq<string>, cache: MdxFileCache)
    returns (r: Result<string>)
    requires Plain(base) && cache.Valid(fs)
    modifies cache
    ensures cache.Valid(fs)
    ensures r == MatchingPaths(fs, base, docPath, query)
  {
    var pathKeywords := ExtractKeywordsFromPath(docPath);
    var all := NormalizeKeywords(pathKeywords + query);
    if all == [] {
      return Ok("");
    }
    var found := SearchDocuments(fs, base, all, 10, cache);
    if found.Err? {
      return Err(found.msg);
    }
    if found.value == [] {
      return Ok("");
    }
    r := Ok(SuggestionText(found.value));
  }
}
