/** The agno_examples tool (tools/examples.py): the preview of the best
    fenced code block of a page, the examples collected from a category
    directory, and the branching between a category, a keyword search and
    the list of categories. */
module Examples {
  import opened Text
  import opened Outcomes
  import opened FileSystem
  import opened Frontmatter
  import opened Snippets
  import opened Sorting
  import opened Paths
  import opened Content
  import opened Walk
  import opened Keywords
  import opened Search
  import opened Docs

  // ---------------------------------------------------------------------
  // Fenced code blocks: re.findall(r"```(\w+)?[^\n]*\n(.*?)```", content, re.DOTALL)

  const Fence := "```"

  /** Index of the first "```" at or after from, |s| when there is none. */
  function FindFence(s: string, from: nat): (r: nat)
    requires from <= |s|
    ensures from <= r <= |s|
    ensures r < |s| ==> OccursAt(s, Fence, r)
    ensures forall k :: from <= k < r ==> !OccursAt(s, Fence, k)
    decreases |s| - from
  {
    if from + 3 > |s| then |s|
    else if s[from..from + 3] == Fence then from
    else FindFence(s, from + 1)
  }

  /** End of the run of word characters that starts at from. */
  function WordEnd(s: string, from: nat): (r: nat)
    requires from <= |s|
    ensures from <= r <= |s|
    ensures forall k :: from <= k < r ==> IsWordChar(s[k])
    ensures r < |s| ==> !IsWordChar(s[r])
    decreases |s| - from
  {
    if from < |s| && IsWordChar(s[from]) then WordEnd(s, from + 1) else from
  }

  /** One match of the pattern: the language group (empty when absent) and
      the code group. */
  datatype Block = Block(lang: string, code: string)

  predicate WordChars(s: string)
  {
    forall k :: 0 <= k < |s| ==> IsWordChar(s[k])
  }

  /** Each language is word characters (possibly none) and no code holds
      a fence. */
  predicate WellFormedBlocks(r: seq<Block>)
  {
    forall i :: 0 <= i < |r| ==> WordChars(r[i].lang) && !Contains(r[i].code, Fence)
  }

  /** The first match at or after from and the position after its closing
      fence. A match opens at the first fence, takes the word characters
      after it as the language, skips to the end of that line and ends at
      the first fence after it (the lazy group). When the first fence has
      no newline or no closing fence after it, no later position can match
      either, so there is no match. */
  function NextMatch(s: string, from: nat): (r: Option<(Block, nat)>)
    requires from <= |s|
    ensures r.Some? ==> from < r.value.1 <= |s|
    ensures r.Some? ==> WordChars(r.value.0.lang) && !Contains(r.value.0.code, Fence)
  {
    var open := FindFence(s, from);
    if open == |s| then None
    else
      var langEnd := WordEnd(s, open + 3);
      var nl := FindChar(s, '\n', open + 3);
      if nl == |s| then None
      else
        var close := FindFence(s, nl + 1);
        if close == |s| then None
        else
          MatchFacts(s, open + 3, langEnd, nl, close);
          Some((Block(s[open + 3..langEnd], s[nl + 1..close]), close + 3))
  }

  /** re.findall from position from on: the matches one after another. */
  function BlocksFrom(s: string, from: nat): (r: seq<Block>)
    requires from <= |s|
    decreases |s| - from
  {
    match NextMatch(s, from)
    case None => []
    case Some((b, next)) => [b] + BlocksFrom(s, next)
  }

  /** Every match has a language of word characters (possibly none) and
      code without a fence in it. */
  lemma {:induction false} BlocksShape(s: string, from: nat)
    requires from <= |s|
    ensures WellFormedBlocks(BlocksFrom(s, from))
    decreases |s| - from
  {
    match NextMatch(s, from)
    case None =>
    case Some((b, next)) =>
      var rest := BlocksFrom(s, next);
      BlocksShape(s, next);
      var r := [b] + rest;
      assert BlocksFrom(s, from) == r;
      forall i | 0 <= i < |r| ensures WordChars(r[i].lang) && !Contains(r[i].code, Fence) {
        if i > 0 {
          assert r[i] == rest[i - 1];
        }
      }
  }

  /** The groups of a match: a language of word characters that ends
      before the newline, and code without a fence. */
  lemma {:induction false} MatchFacts(s: string, lo: nat, langEnd: nat, nl: nat, close: nat)
    requires lo <= nl < |s| && s[nl] == '\n'
    requires langEnd == WordEnd(s, lo) && close == FindFence(s, nl + 1)
    ensures langEnd <= nl
    ensures WordChars(s[lo..langEnd]) && !Contains(s[nl + 1..close], Fence)
  {
    LangBeforeNewline(s, lo, langEnd, nl);
    NoFenceInside(s, nl + 1, close);
    LangWord(s, lo, langEnd);
  }

  lemma {:induction false} NoFenceInside(s: string, lo: nat, hi: nat)
    requires lo <= hi <= |s|
    requires forall k :: lo <= k < hi ==> !OccursAt(s, Fence, k)
    ensures !Contains(s[lo..hi], Fence)
  {
    if Contains(s[lo..hi], Fence) {
      var i :| 0 <= i <= hi - lo - |Fence| && OccursAt(s[lo..hi], Fence, i);
      SliceOfSlice(s, lo, hi, i, |Fence|);
      assert OccursAt(s, Fence, lo + i);
    }
  }

  lemma {:induction false} LangBeforeNewline(s: string, lo: nat, hi: nat, nl: nat)
    requires lo <= hi <= |s| && lo <= nl < |s| && s[nl] == '\n'
    requires forall k :: lo <= k < hi ==> IsWordChar(s[k])
    ensures hi <= nl
  {
  }

  lemma {:induction false} LangWord(s: string, lo: nat, hi: nat)
    requires lo <= hi <= |s|
    requires forall k :: lo <= k < hi ==> IsWordChar(s[k])
    ensures WordChars(s[lo..hi])
  {
  }

  function Blocks(content: string): seq<Block>
  {
    BlocksFrom(content, 0)
  }

  /** Text without a fence has no code block. */
  lemma {:induction false} NoFenceNoBlocks(content: string)
    requires !Contains(content, Fence)
    ensures Blocks(content) == []
  {
    var open := FindFence(content, 0);
    assert open == |content|;
    assert NextMatch(content, 0).None?;
  }

  // ---------------------------------------------------------------------
  // _extract_code_preview

  const ShellLangs: set<string> := {"bash", "shell", "sh"}
  const PythonLangs: set<string> := {"python", "py"}

  /** The score of a block with lower-cased language and stripped code;
      None when the block is skipped. */
  function Score(lang: string, code: string): Option<nat>
  {
    if code == "" then None
    else if lang in ShellLangs then
      if StartsWith(code, "touch ") || StartsWith(code, "mkdir ") then None else Some(1)
    else if lang in PythonLangs then
      if Contains(code, "import ") || Contains(code, "def ") || Contains(code, "class ") then Some(10)
      else if Contains(Lower(code), "agent") || Contains(code, "=") then Some(8)
      else Some(5)
    else Some(2)
  }

  function BlockScore(b: Block): Option<nat>
  {
    Score(Lower(b.lang), Strip(b.code))
  }

  /** The scores are 1, 2, 5, 8 and 10; exactly empty blocks and shell
      blocks that only create files are skipped; every Python block beats
      every other kind, and 10 goes only to Python with imports or
      definitions. */
  lemma {:induction false} ScoreTable(lang: string, code: string)
    ensures Score(lang, code).Some? ==> Score(lang, code).value in {1, 2, 5, 8, 10}
    ensures Score(lang, code).None? <==>
      code == "" || (lang in ShellLangs && (StartsWith(code, "touch ") || StartsWith(code, "mkdir ")))
    ensures Score(lang, code).Some? ==> (Score(lang, code).value >= 5 <==> lang in PythonLangs)
    ensures Score(lang, code) == Some(10) <==>
      code != "" && lang in PythonLangs && (Contains(code, "import ") || Contains(code, "def ") || Contains(code, "class "))
  {
  }

  /** The scores of the blocks, in order; None for a skipped block. */
  function Scores(bs: seq<Block>): (r: seq<Option<nat>>)
    ensures |r| == |bs|
    ensures forall i :: 0 <= i < |bs| ==> r[i] == BlockScore(bs[i])
  {
    Mapped(BlockScore, bs)
  }

  /** The index best_block comes from after the loop has seen these
      scores: a later block replaces the best one only with a strictly
      higher score. */
  function BestOf(scores: seq<Option<nat>>): (r: Option<nat>)
    ensures r.Some? ==> r.value < |scores| && scores[r.value].Some?
  {
    if scores == [] then None
    else
      var prev := BestOf(scores[..|scores| - 1]);
      var s := scores[|scores| - 1];
      if s.None? then prev
      else if prev.None? then Some(|scores| - 1)
      else if s.value > scores[prev.value].value then Some(|scores| - 1)
      else prev
  }

  /** One more score: best_block changes only for a strictly higher one. */
  lemma {:induction false} BestOfStep(scores: seq<Option<nat>>, i: nat)
    requires i < |scores|
    ensures var prev := BestOf(scores[..i]);
      BestOf(scores[..i + 1]) ==
        if scores[i].None? then prev
        else if prev.None? then Some(i)
        else if scores[i].value > scores[prev.value].value then Some(i)
        else prev
  {
    assert scores[..i + 1][..i] == scores[..i];
  }

  /** No block is chosen exactly when every block is skipped; otherwise the
      chosen block has the highest score, and every block before it a
      strictly lower one: the earliest maximum wins. */
  lemma {:induction false} BestOfCorrect(scores: seq<Option<nat>>)
    ensures BestOf(scores).None? <==> forall j :: 0 <= j < |scores| ==> scores[j].None?
    ensures BestOf(scores).Some? ==> forall j :: 0 <= j < |scores| && scores[j].Some? ==>
      scores[j].value <= scores[BestOf(scores).value].value
    ensures BestOf(scores).Some? ==> forall j :: 0 <= j < BestOf(scores).value && scores[j].Some? ==>
      scores[j].value < scores[BestOf(scores).value].value
  {
    if scores != [] {
      var front := scores[..|scores| - 1];
      BestOfCorrect(front);
      assert forall j :: 0 <= j < |front| ==> front[j] == scores[j];
    }
  }

  /** Python's `lang or "python"` */
  function LangOrPython(lang: string): string
  {
    if lang == "" then "python" else lang
  }

  const TruncationMarker := "# ... (truncated)"

  /** The code cut to maxLines lines and the marker when it has more. */
  function Truncated(code: string, maxLines: int): string
  {
    var lines := Split(code, '\n');
    if |lines| > maxLines then Join(PyHead(lines, maxLines), "\n") + "\n" + TruncationMarker else code
  }

  function Fenced(lang: string, code: string): string
  {
    Fence + lang + "\n" + code + "\n" + Fence
  }

  /** _extract_code_preview */
  function Preview(content: string, maxLines: int): string
  {
    var bs := Blocks(content);
    match BestOf(Scores(bs))
    case None => ""
    case Some(i) => Fenced(LangOrPython(Lower(bs[i].lang)), Truncated(Strip(bs[i].code), maxLines))
  }

  lemma {:induction false} FencedShape(lang: string, code: string)
    ensures StartsWith(Fenced(lang, code), Fence) && EndsWith(Fenced(lang, code), "\n" + Fence)
  {
    assert Fenced(lang, code) == Fence + (lang + "\n" + code + "\n" + Fence);
    assert Fenced(lang, code) == (Fence + lang + "\n" + code) + ("\n" + Fence);
  }

  /** The preview is empty exactly when every block is skipped (in
      particular for a page without fences); otherwise it is fenced. */
  lemma {:induction false} PreviewCorrect(content: string, maxLines: int)
    ensures Preview(content, maxLines) == "" <==> forall j :: 0 <= j < |Blocks(content)| ==> BlockScore(Blocks(content)[j]).None?
    ensures !Contains(content, Fence) ==> Preview(content, maxLines) == ""
    ensures Preview(content, maxLines) != "" ==>
      StartsWith(Preview(content, maxLines), Fence) && EndsWith(Preview(content, maxLines), "\n" + Fence)
  {
    var bs := Blocks(content);
    BestOfCorrect(Scores(bs));
    if !Contains(content, Fence) {
      NoFenceNoBlocks(content);
    }
    match BestOf(Scores(bs))
    case None =>
    case Some(i) =>
      FencedShape(LangOrPython(Lower(bs[i].lang)), Truncated(Strip(bs[i].code), maxLines));
  }

  /** Code with more lines than the limit keeps exactly the first maxLines
      lines and gets the marker as one more line (after an empty first line
      when the limit is 0). */
  lemma {:induction false} TruncatedLines(code: string, maxLines: nat)
    requires |Split(code, '\n')| > maxLines
    ensures maxLines > 0 ==>
      Split(Truncated(code, maxLines), '\n') == Split(code, '\n')[..maxLines] + [TruncationMarker]
    ensures maxLines == 0 ==> Split(Truncated(code, maxLines), '\n') == ["", TruncationMarker]
  {
    var lines := Split(code, '\n');
    var head := if maxLines > 0 then lines[..maxLines] else [""];
    var kept := head + [TruncationMarker];
    assert '\n' !in TruncationMarker;
    assert forall k :: 0 <= k < |kept| ==> '\n' !in kept[k];
    JoinAppend(head, TruncationMarker, "\n");
    if maxLines > 0 {
      assert Truncated(code, maxLines) == Join(head, "\n") + "\n" + TruncationMarker;
    } else {
      assert Truncated(code, maxLines) == "" + "\n" + TruncationMarker;
    }
    SplitJoin(kept, '\n');
  }

  /** The scoring branches of one block's loop pass; None where the loop
      continues without scoring. */
  method ScoreOf(lang: string, code: string) returns (score: Option<nat>)
    ensures score == Score(lang, code)
  {
    if |code| == 0 {
      return None;
    }
    if lang in ShellLangs {
      if StartsWith(code, "touch ") || StartsWith(code, "mkdir ") {
        return None;
      }
      score := Some(1);
    } else if lang in PythonLangs {
      if Contains(code, "import ") || Contains(code, "def ") || Contains(code, "class ") {
        score := Some(10);
      } else if Contains(Lower(code), "agent") || Contains(code, "=") {
        score := Some(8);
      } else {
        score := Some(5);
      }
    } else {
      score := Some(2);
    }
  }

  /** _extract_code_preview: the loop keeps the best block so far and its
      score, starting below every score. */
  method ExtractCodePreview(content: string, maxLines: int) returns (r: string)
    ensures r == Preview(content, maxLines)
  {
    var blocks := Blocks(content);
    if |blocks| == 0 {
      return "";
    }
    ghost var scores := Scores(blocks);
    ghost var bestIdx: Option<nat> := None;
    var best: Option<(string, string)> := None;
    var bestScore: int := -1;
    for i := 0 to |blocks|
      invariant bestIdx == BestOf(scores[..i])
      invariant bestIdx.None? <==> best.None?
      invariant bestIdx.None? ==> bestScore == -1
      invariant bestIdx.Some? ==> bestScore == scores[bestIdx.value].value
      invariant bestIdx.Some? ==>
        best.value == (LangOrPython(Lower(blocks[bestIdx.value].lang)), Strip(blocks[bestIdx.value].code))
    {
      BestOfStep(scores, i);
      var lang := Lower(blocks[i].lang);
      var code := Strip(blocks[i].code);
      var scored := ScoreOf(lang, code);
      if scored.None? {
        continue;
      }
      var score := scored.value;
      if score > bestScore {
        bestScore := score;
        best := Some((LangOrPython(lang), code));
        bestIdx := Some(i);
      }
    }
    assert scores[..|blocks|] == scores;
    if best.None? {
      return "";
    }
    var (lang, code) := best.value;
    var lines := Split(code, '\n');
    if |lines| > maxLines {
      code := Join(PyHead(lines, maxLines), "\n") + "\n" + TruncationMarker;
    }
    return Fence + lang + "\n" + code + "\n" + Fence;
  }

  // ---------------------------------------------------------------------
  // _matches_keywords

  /** _matches_keywords: some keyword is a substring of the lower-cased
      text. */
  function MatchesKeywords(text: string, keywords: seq<string>): (r: bool)
    ensures r <==> exists i :: 0 <= i < |keywords| && Contains(Lower(text), keywords[i])
  {
    AnyOccurs(Lower(text), keywords)
  }

  /** [e for e in examples if _matches_keywords(e, keywords)] */
  function Filtered(examples: seq<string>, keywords: seq<string>): (r: seq<string>)
    ensures |r| <= |examples|
    ensures forall i :: 0 <= i < |r| ==> r[i] in examples && MatchesKeywords(r[i], keywords)
    ensures forall i :: 0 <= i < |examples| && MatchesKeywords(examples[i], keywords) ==> examples[i] in r
  {
    if examples == [] then []
    else
      var front := Filtered(examples[..|examples| - 1], keywords);
      var e := examples[|examples| - 1];
      assert forall i :: 0 <= i < |examples| - 1 ==> examples[..|examples| - 1][i] == examples[i];
      front + (if MatchesKeywords(e, keywords) then [e] else [])
  }

  // ---------------------------------------------------------------------
  // _collect_examples_from_dir

  const PreviewLines := 30
  const FilesPerDirectory := 10
  const SubdirsPerDirectory := 5
  const MaxDepth := 2

  const ExampleHead := "\n### "

  /** The text of one example: title, file line and, when there is one,
      the preview. */
  function ExampleText(title: string, fileRel: string, preview: string): (r: string)
    ensures StartsWith(r, ExampleHead + title + "\n")
  {
    var head := ExampleHead + title + "\n";
    var text := head + ("*File: `" + fileRel + "`*\n");
    var r := if preview != "" then text + ("\n" + preview + "\n") else text;
    assert r[..|head|] == head;
    r
  }

  /** The title used when the front matter has none: the name without
      ".mdx", dashes as spaces, in title case. */
  function DefaultTitle(name: string): string
  {
    Title(ReplaceChar(ReplaceAll(name, ".mdx", ""), '-', ' '))
  }

  /** The snippet cache only gains entries, and only for snippets that
      can be loaded. */
  predicate Grows(env: Env, before: Cache, after: Cache)
  {
    Extends(before, after) && AddsOnlyLoadable(env.fs, env.snippetDir, before, after)
  }

  lemma {:induction false} GrowsTrans(env: Env, a: Cache, b: Cache, c: Cache)
    requires Grows(env, a, b) && Grows(env, b, c)
    ensures Grows(env, a, c)
  {
  }

  /** The example for one file: read with its snippets resolved, titled
      from the front matter or the file name. */
  function FileExample(env: Env, dir: Path, rel: string, name: string, cache: Cache): (r: (string, Cache))
    ensures StartsWith(r.0, ExampleHead)
    ensures Grows(env, cache, r.1)
  {
    var (d, c) := ReadMdx(env.yaml, env.fs, env.snippetDir, JoinPath(dir, name), true, cache);
    (ExampleOf(d, rel, name), c)
  }

  /** The example text of a page that has been read. */
  function ExampleOf(d: Document, rel: string, name: string): (e: string)
    ensures StartsWith(e, ExampleHead)
  {
    var title := TitleOf(d.header, DefaultTitle(name));
    var e := ExampleText(title, rel + "/" + name, Preview(d.body, PreviewLines));
    HeadPrefix(e, ExampleHead, title + "\n");
    e
  }

  lemma {:induction false} HeadPrefix(e: string, head: string, more: string)
    requires StartsWith(e, head + more)
    ensures StartsWith(e, head)
  {
    assert e[..|head|] == (head + more)[..|head|];
  }

  /** One example per file, in order. */
  function FileExamples(env: Env, dir: Path, rel: string, files: seq<string>, cache: Cache): (r: (seq<string>, Cache))
    ensures |r.0| == |files|
    ensures Heads(r.0)
    ensures Grows(env, cache, r.1)
  {
    if files == [] then ([], cache)
    else
      var (front, c1) := FileExamples(env, dir, rel, files[..|files| - 1], cache);
      var (e, c2) := FileExample(env, dir, rel, files[|files| - 1], c1);
      GrowsTrans(env, cache, c1, c2);
      AllExamples(front, [e]);
      (front + [e], c2)
  }

  /** How many examples a walk from this depth can give at most. */
  function Bound(depth: nat): nat
    decreases if depth > MaxDepth then 0 else MaxDepth + 1 - depth
  {
    if depth > MaxDepth then 0 else FilesPerDirectory + Times(SubdirsPerDirectory, Bound(depth + 1))
  }

  /** n * b, written as n copies of b so that bounds stay linear. */
  function Times(n: nat, b: nat): nat
  {
    if n == 0 then 0 else Times(n - 1, b) + b
  }

  lemma {:induction false} TimesMono(m: nat, n: nat, b: nat)
    requires m <= n
    ensures Times(m, b) <= Times(n, b)
    decreases n
  {
    if m < n {
      TimesMono(m, n - 1, b);
    }
  }

  /** The list a step appends to, one item after the other, threading
      the snippet cache: results.extend(step(item)) in a loop. */
  function Concat(step: (string, Cache) -> (seq<string>, Cache), items: seq<string>, cache: Cache): (seq<string>, Cache)
  {
    if items == [] then ([], cache)
    else
      var (front, c1) := Concat(step, items[..|items| - 1], cache);
      var (last, c2) := step(items[|items| - 1], c1);
      (front + last, c2)
  }

  lemma {:induction false} FoldStart(step: (string, Cache) -> (seq<string>, Cache), items: seq<string>, cache: Cache)
    ensures Concat(step, items[..0], cache) == ([], cache)
  {
    assert items[..0] == [];
  }

  lemma {:induction false} FoldStep(step: (string, Cache) -> (seq<string>, Cache), items: seq<string>, j: nat, c0: Cache,
                 results: seq<string>, c1: Cache, more: seq<string>, c2: Cache)
    requires j < |items|
    requires (results, c1) == Concat(step, items[..j], c0)
    requires (more, c2) == step(items[j], c1)
    ensures (results + more, c2) == Concat(step, items[..j + 1], c0)
  {
    assert items[..j + 1][..j] == items[..j];
  }

  lemma {:induction false} FoldEnd(step: (string, Cache) -> (seq<string>, Cache), items: seq<string>, cache: Cache)
    ensures Concat(step, items[..|items|], cache) == Concat(step, items, cache)
  {
    assert items[..|items|] == items;
  }

  predicate Heads(s: seq<string>)
  {
    forall i :: 0 <= i < |s| ==> StartsWith(s[i], ExampleHead)
  }

  /** A step that gives at most b example texts, each starting with the
      example heading, and only grows the cache, keeps all three over the
      whole list. */
  lemma {:induction false} ConcatFacts(env: Env, step: (string, Cache) -> (seq<string>, Cache), items: seq<string>, cache: Cache, b: nat)
    requires forall d, c :: |step(d, c).0| <= b && Heads(step(d, c).0) && Grows(env, c, step(d, c).1)
    ensures |Concat(step, items, cache).0| <= Times(|items|, b)
    ensures Heads(Concat(step, items, cache).0)
    ensures Grows(env, cache, Concat(step, items, cache).1)
    decreases |items|
  {
    if items != [] {
      var front := items[..|items| - 1];
      ConcatFacts(env, step, front, cache, b);
      var (f, c1) := Concat(step, front, cache);
      var (last, c2) := step(items[|items| - 1], c1);
      StepBound(|f|, |last|, |items|, b);
      AllExamples(f, last);
      GrowsTrans(env, cache, c1, c2);
    }
  }

  /** The walk of one subdirectory entry, one level deeper; the entry's
      trailing "/" is dropped. */
  function SubdirStep(env: Env, dir: Path, rel: string, depth: nat): (string, Cache) -> (seq<string>, Cache)
    requires depth <= MaxDepth
    decreases MaxDepth + 1 - depth, 0
  {
    (d: string, c: Cache) =>
      Collect(env, JoinPath(dir, TrimRight(d, {'/'})), rel + "/" + TrimRight(d, {'/'}), depth + 1, c)
  }

  lemma {:induction false} SubdirStepFacts(env: Env, dir: Path, rel: string, depth: nat)
    requires depth <= MaxDepth
    ensures var step := SubdirStep(env, dir, rel, depth);
      forall d, c :: |step(d, c).0| <= Bound(depth + 1) && Heads(step(d, c).0) && Grows(env, c, step(d, c).1)
    decreases MaxDepth + 1 - depth, 1
  {
  }

  /** The subdirectories keep the three facts of one subdirectory. */
  lemma {:induction false} SubdirsFacts(env: Env, dir: Path, rel: string, depth: nat, dirs: seq<string>, cache: Cache)
    requires depth <= MaxDepth
    ensures var r := Concat(SubdirStep(env, dir, rel, depth), dirs, cache);
      |r.0| <= Times(|dirs|, Bound(depth + 1)) && Heads(r.0) && Grows(env, cache, r.1)
    decreases MaxDepth + 1 - depth, 2
  {
    SubdirStepFacts(env, dir, rel, depth);
    ConcatFacts(env, SubdirStep(env, dir, rel, depth), dirs, cache, Bound(depth + 1));
  }

  /** _collect_examples_from_dir: nothing below depth 2; otherwise the
      examples of the directory's listing. */
  function Collect(env: Env, dir: Path, rel: string, depth: nat, cache: Cache): (r: (seq<string>, Cache))
    ensures depth > MaxDepth ==> r == ([], cache)
    ensures |r.0| <= Bound(depth)
    ensures Heads(r.0)
    ensures Grows(env, cache, r.1)
    decreases if depth > MaxDepth then 0 else MaxDepth + 1 - depth, 4
  {
    if depth > MaxDepth then ([], cache)
    else CollectListed(env, dir, rel, depth, Listing(env.fs, dir), cache)
  }

  /** The examples of the first 10 files of a listing, then those of its
      first 5 subdirectories, each walked one level deeper. */
  function CollectListed(env: Env, dir: Path, rel: string, depth: nat, l: DirectoryContents, cache: Cache): (r: (seq<string>, Cache))
    requires depth <= MaxDepth
    ensures |r.0| <= FilesPerDirectory + Times(SubdirsPerDirectory, Bound(depth + 1))
    ensures Heads(r.0)
    ensures Grows(env, cache, r.1)
    decreases MaxDepth + 1 - depth, 3
  {
    var files := PyHead(l.files, FilesPerDirectory);
    var (fe, c1) := FileExamples(env, dir, rel, files, cache);
    var dirs := PyHead(l.dirs, SubdirsPerDirectory);
    var (de, c2) := Concat(SubdirStep(env, dir, rel, depth), dirs, c1);
    SubdirsFacts(env, dir, rel, depth, dirs, c1);
    LevelBound(l, fe, de, Bound(depth + 1));
    GrowsTrans(env, cache, c1, c2);
    AllExamples(fe, de);
    (fe + de, c2)
  }

  lemma {:induction false} AllExamples(a: seq<string>, b: seq<string>)
    requires Heads(a) && Heads(b)
    ensures Heads(a + b)
  {
    forall i | 0 <= i < |a + b| ensures StartsWith((a + b)[i], ExampleHead) {
      if i >= |a| { assert (a + b)[i] == b[i - |a|]; }
    }
  }

  /** One level gives at most 10 file examples and 5 subdirectory walks. */
  lemma {:induction false} LevelBound(l: DirectoryContents, fe: seq<string>, de: seq<string>, b: nat)
    requires |fe| <= |PyHead(l.files, FilesPerDirectory)|
    requires |de| <= Times(|PyHead(l.dirs, SubdirsPerDirectory)|, b)
    ensures |fe + de| <= FilesPerDirectory + Times(SubdirsPerDirectory, b)
  {
    TimesMono(|PyHead(l.dirs, SubdirsPerDirectory)|, SubdirsPerDirectory, b);
  }

  lemma {:induction false} StepBound(x: nat, y: nat, n: nat, b: nat)
    requires n >= 1 && x <= Times(n - 1, b) && y <= b
    ensures x + y <= Times(n, b)
  {
  }

  /** The walk from the top visits at most 10 + 5 * (10 + 5 * 10) files. */
  lemma {:induction false} CollectBound(env: Env, dir: Path, rel: string, cache: Cache)
    ensures |Collect(env, dir, rel, 0, cache).0| <= 310
  {
    assert Bound(3) == 0;
    assert Bound(2) == 10;
  }

  /** The body of the loop over the files of _collect_examples_from_dir. */
  method FileExampleOf(env: Env, dir: Path, rel: string, name: string, snippets: SnippetCache)
    returns (text: string)
    modifies snippets
    ensures (text, snippets.entries) == FileExample(env, dir, rel, name, old(snippets.entries))
  {
    ghost var before := snippets.entries;
    var doc := ReadMdxFile(env.yaml, env.fs, env.snippetDir, JoinPath(dir, name), true, snippets);
    var title := TitleOf(doc.header, DefaultTitle(name));
    var preview := ExtractCodePreview(doc.body, PreviewLines);
    var fileRel := rel + "/" + name;
    text := ExampleHead + title + "\n";
    text := text + ("*File: `" + fileRel + "`*\n");
    if preview != "" {
      text := text + ("\n" + preview + "\n");
    }
    assert FileExample(env, dir, rel, name, before) == (text, snippets.entries);
  }

  /** The loop over the first files of _collect_examples_from_dir. */
  method FileExamplesOf(env: Env, dir: Path, rel: string, files: seq<string>, snippets: SnippetCache)
    returns (results: seq<string>)
    modifies snippets
    ensures (results, snippets.entries) == FileExamples(env, dir, rel, files, old(snippets.entries))
  {
    results := [];
    ghost var c0 := snippets.entries;
    for i := 0 to |files|
      invariant (results, snippets.entries) == FileExamples(env, dir, rel, files[..i], c0)
    {
      assert files[..i + 1][..i] == files[..i];
      var text := FileExampleOf(env, dir, rel, files[i], snippets);
      results := results + [text];
    }
    assert files[..|files|] == files;
  }

  /** The loop over the first subdirectories of _collect_examples_from_dir,
      extending the results with each subdirectory's examples. */
  method SubdirExamplesOf(env: Env, dir: Path, rel: string, dirs: seq<string>, depth: nat, snippets: SnippetCache)
    returns (results: seq<string>)
    requires depth <= MaxDepth
    modifies snippets
    ensures (results, snippets.entries) == Concat(SubdirStep(env, dir, rel, depth), dirs, old(snippets.entries))
    decreases MaxDepth + 1 - depth, 1
  {
    ghost var c0 := snippets.entries;
    ghost var step := SubdirStep(env, dir, rel, depth);
    results := [];
    FoldStart(step, dirs, c0);
    for j := 0 to |dirs|
      invariant (results, snippets.entries) == Concat(step, dirs[..j], c0)
    {
      ghost var c1 := snippets.entries;
      var more := SubdirExampleOf(env, dir, rel, dirs[j], depth, snippets);
      FoldStep(step, dirs, j, c0, results, c1, more, snippets.entries);
      results := results + more;
    }
    FoldEnd(step, dirs, c0);
  }

  /** One subdirectory: its trailing "/" dropped, walked one level
      deeper. */
  method SubdirExampleOf(env: Env, dir: Path, rel: string, d: string, depth: nat, snippets: SnippetCache)
    returns (results: seq<string>)
    requires depth <= MaxDepth
    modifies snippets
    ensures (results, snippets.entries) == SubdirStep(env, dir, rel, depth)(d, old(snippets.entries))
    decreases MaxDepth + 1 - depth, 0
  {
    var name := TrimRight(d, {'/'});
    results := CollectExamplesFromDir(env, JoinPath(dir, name), rel + "/" + name, depth + 1, snippets);
  }

  /** _collect_examples_from_dir: the files first, then the
      subdirectories. */
  method CollectExamplesFromDir(env: Env, dir: Path, rel: string, depth: nat, snippets: SnippetCache)
    returns (results: seq<string>)
    modifies snippets
    ensures (results, snippets.entries) == Collect(env, dir, rel, depth, old(snippets.entries))
    decreases if depth > MaxDepth then 0 else MaxDepth + 1 - depth, 2
  {
    if depth > MaxDepth {
      return [];
    }
    var contents := ListDirectory(env.fs, dir);
    var fromFiles := FileExamplesOf(env, dir, rel, PyHead(contents.files, FilesPerDirectory), snippets);
    var fromDirs := SubdirExamplesOf(env, dir, rel, PyHead(contents.dirs, SubdirsPerDirectory), depth, snippets);
    results := fromFiles + fromDirs;
  }
}
