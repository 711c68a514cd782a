/** resolve_snippets (utils/content.py): `<Snippet file="…"/>` tags are
    replaced, left to right, by the named snippet's body, itself resolved
    one level shallower; successful resolutions are kept in a cache keyed
    by the file name as the tag writes it. */
module Snippets {
  import opened Text
  import opened Outcomes
  import opened FileSystem
  import opened Frontmatter

  /** The snippet cache: tag file name to resolved text. */
  type Cache = map<string, string>

  /** A tag the pattern matched at some position: the file name it names
      and the index just after it. */
  datatype Tag = Tag(name: string, end: nat)

  /** Index of the first quote character at or after from. */
  function FindQuote(s: string, from: nat): (r: nat)
    requires from <= |s|
    ensures from <= r <= |s|
    ensures r < |s| ==> s[r] in Quotes
    ensures forall k :: from <= k < r ==> s[k] !in Quotes
    decreases |s| - from
  {
    if from == |s| || s[from] in Quotes then from else FindQuote(s, from + 1)
  }

  /** `<Snippet\s+file=["']([^"']+)["']\s*\/?>`, ignoring ASCII case,
      matched at position i. */
  function MatchTag(s: string, i: nat): (r: Option<Tag>)
    ensures r.Some? ==> i < r.value.end <= |s| && r.value.name != []
    ensures r.Some? ==> forall k :: 0 <= k < |r.value.name| ==> r.value.name[k] !in Quotes
    ensures r.Some? ==> s[r.value.end - 1] == '>'
  {
    if i + 8 > |s| || Lower(s[i..i + 8]) != "<snippet" then None
    else
      var j := SpaceRunEnd(s, i + 8);
      if j == i + 8 || j + 6 > |s| || Lower(s[j..j + 5]) != "file=" || s[j + 5] !in Quotes then None
      else
        var m := FindQuote(s, j + 6);
        if m == j + 6 || m == |s| then None
        else
          var w := SpaceRunEnd(s, m + 1);
          if w < |s| && s[w] == '>' then Some(Tag(s[j + 6..m], w + 1))
          else if w + 1 < |s| && s[w] == '/' && s[w + 1] == '>' then Some(Tag(s[j + 6..m], w + 2))
          else None
  }

  /** Where a tag's file is looked for: the name under the snippet
      directory, or with ".mdx" appended when that is missing and the name
      does not end in ".mdx". */
  function Locate(fs: Snapshot, dir: Path, name: string): Path
  {
    var p := JoinPath(dir, name);
    if !Exists(fs, p) && !EndsWith(name, ".mdx") then JoinPath(dir, name + ".mdx") else p
  }

  /** A snippet that is found and reads without error. */
  predicate Loadable(fs: Snapshot, dir: Path, name: string)
  {
    Exists(fs, Locate(fs, dir, name)) && ReadText(fs, Locate(fs, dir, name)).Ok?
  }

  function NotFoundMarker(name: string): string
  {
    "<!-- Snippet " + name + " not found -->"
  }

  function LoadFailedMarker(name: string): string
  {
    "<!-- Snippet " + name + " could not be loaded -->"
  }

  /** Every entry of the old cache is in the new one, unchanged. */
  predicate Extends(old_: Cache, new_: Cache)
  {
    forall k :: k in old_ ==> k in new_ && new_[k] == old_[k]
  }

  /** The entries the new cache adds are all for loadable snippets. */
  predicate AddsOnlyLoadable(fs: Snapshot, dir: Path, old_: Cache, new_: Cache)
  {
    forall k :: k in new_ && k !in old_ ==> Loadable(fs, dir, k)
  }

  /** resolve_snippets(content, depth) run against a cache: the text and
      the cache afterwards. */
  function Resolve(fs: Snapshot, dir: Path, content: string, depth: int, cache: Cache): (r: (string, Cache))
    ensures depth <= 0 ==> r == (content, cache)
    ensures Extends(cache, r.1) && AddsOnlyLoadable(fs, dir, cache, r.1)
    decreases if depth > 0 then depth else 0, 2, 0
  {
    if depth <= 0 then (content, cache) else SubFrom(fs, dir, content, 0, depth, cache)
  }

  /** The substitution from position i on. */
  function SubFrom(fs: Snapshot, dir: Path, s: string, i: nat, depth: int, cache: Cache): (r: (string, Cache))
    requires depth >= 1 && i <= |s|
    ensures Extends(cache, r.1) && AddsOnlyLoadable(fs, dir, cache, r.1)
    decreases depth, 1, |s| - i
  {
    if i == |s| then ("", cache)
    else match MatchTag(s, i)
      case Some(t) =>
        var (rep, c1) := Replace(fs, dir, t.name, depth, cache);
        var (rest, c2) := SubFrom(fs, dir, s, t.end, depth, c1);
        (rep + rest, c2)
      case None =>
        var (rest, c2) := SubFrom(fs, dir, s, i + 1, depth, cache);
        ([s[i]] + rest, c2)
  }

  /** What one tag is replaced by (replace_snippet). */
  function Replace(fs: Snapshot, dir: Path, name: string, depth: int, cache: Cache): (r: (string, Cache))
    requires depth >= 1
    ensures name in cache ==> r == (cache[name], cache)
    ensures name !in cache && !Exists(fs, Locate(fs, dir, name)) ==> r == (NotFoundMarker(name), cache)
    ensures name !in cache && Exists(fs, Locate(fs, dir, name)) && !Loadable(fs, dir, name) ==>
      r == (LoadFailedMarker(name), cache)
    ensures name !in cache && Loadable(fs, dir, name) ==> name in r.1 && r.1[name] == r.0
    ensures Extends(cache, r.1) && AddsOnlyLoadable(fs, dir, cache, r.1)
    decreases depth, 0, 0
  {
    if name in cache then (cache[name], cache)
    else
      var p := Locate(fs, dir, name);
      if !Exists(fs, p) then (NotFoundMarker(name), cache)
      else match ReadText(fs, p)
        case Err(_) => (LoadFailedMarker(name), cache)
        case Ok(text) =>
          var (resolved, c1) := Resolve(fs, dir, Strip(Body(text)), depth - 1, cache);
          (resolved, c1[name := resolved])
  }

  /** Text without any tag comes back unchanged, and so does the cache. */
  lemma {:induction false} NoTagUnchanged(fs: Snapshot, dir: Path, s: string, i: nat, depth: int, cache: Cache)
    requires depth >= 1 && i <= |s|
    requires forall k :: i <= k < |s| ==> MatchTag(s, k).None?
    ensures SubFrom(fs, dir, s, i, depth, cache) == (s[i..], cache)
    decreases |s| - i
  {
    if i < |s| {
      NoTagUnchanged(fs, dir, s, i + 1, depth, cache);
      assert s[i..] == [s[i]] + s[i + 1..];
    }
  }

  lemma {:induction false} NoTagResolve(fs: Snapshot, dir: Path, content: string, depth: int, cache: Cache)
    requires forall k :: 0 <= k < |content| ==> MatchTag(content, k).None?
    ensures Resolve(fs, dir, content, depth, cache) == (content, cache)
  {
    if depth > 0 {
      NoTagUnchanged(fs, dir, content, 0, depth, cache);
    }
  }

  /** At depth 1 a snippet's body is inlined as written: tags inside it are
      not expanded, so a snippet that names itself is read once. */
  lemma {:induction false} DepthOneInlinesVerbatim(fs: Snapshot, dir: Path, name: string, cache: Cache)
    requires name !in cache && Loadable(fs, dir, name)
    ensures var text := ReadText(fs, Locate(fs, dir, name)).value;
      Replace(fs, dir, name, 1, cache) == (Strip(Body(text)), cache[name := Strip(Body(text))])
  {
  }

  /** The text a tag-free stretch contributes is copied through, and a tag
      contributes exactly its replacement: the result is the pieces in
      order. */
  lemma {:induction false} SubFromTag(fs: Snapshot, dir: Path, s: string, i: nat, depth: int, cache: Cache)
    requires depth >= 1 && i < |s| && MatchTag(s, i).Some?
    ensures var t := MatchTag(s, i).value;
      var rep := Replace(fs, dir, t.name, depth, cache);
      SubFrom(fs, dir, s, i, depth, cache) ==
        (rep.0 + SubFrom(fs, dir, s, t.end, depth, rep.1).0, SubFrom(fs, dir, s, t.end, depth, rep.1).1)
  {
  }

  /** A character where no tag starts is copied through. */
  lemma {:induction false} SubFromText(fs: Snapshot, dir: Path, s: string, i: nat, depth: int, cache: Cache)
    requires depth >= 1 && i < |s| && MatchTag(s, i).None?
    ensures SubFrom(fs, dir, s, i, depth, cache) ==
      ([s[i]] + SubFrom(fs, dir, s, i + 1, depth, cache).0, SubFrom(fs, dir, s, i + 1, depth, cache).1)
  {
  }

  /** The module-level cache and the operations that use it. */
  class SnippetCache {
    var entries: Cache

    constructor ()
      ensures entries == map[]
    {
      entries := map[];
    }

    /** resolve_snippets */
    method ResolveSnippets(fs: Snapshot, dir: Path, content: string, maxDepth: int) returns (r: string)
      modifies this
      ensures (r, entries) == Resolve(fs, dir, content, maxDepth, old(entries))
      decreases if maxDepth > 0 then maxDepth else 0, 2
    {
      if maxDepth <= 0 {
        return content;
      }
      ghost var whole := SubFrom(fs, dir, content, 0, maxDepth, entries);
      var out := "";
      var i := 0;
      assert "" + whole.0 == whole.0;
      while i < |content|
        invariant 0 <= i <= |content|
        invariant out + SubFrom(fs, dir, content, i, maxDepth, entries).0 == whole.0
        invariant SubFrom(fs, dir, content, i, maxDepth, entries).1 == whole.1
        decreases |content| - i
      {
        var piece, next := ResolveAt(fs, dir, content, i, maxDepth);
        out := out + piece;
        i := next;
      }
      assert out + "" == out;
      r := out;
    }

    /** One step of the scan: the replacement of the tag that starts at i,
        or the character at i. */
    method ResolveAt(fs: Snapshot, dir: Path, content: string, i: nat, maxDepth: int) returns (piece: string, next: nat)
      requires maxDepth >= 1 && i < |content|
      modifies this
      ensures i < next <= |content|
      ensures SubFrom(fs, dir, content, i, maxDepth, old(entries)) ==
        (piece + SubFrom(fs, dir, content, next, maxDepth, entries).0, SubFrom(fs, dir, content, next, maxDepth, entries).1)
      decreases maxDepth, 1
    {
      match MatchTag(content, i) {
        case Some(t) =>
          SubFromTag(fs, dir, content, i, maxDepth, entries);
          piece := ReplaceSnippet(fs, dir, t.name, maxDepth);
          next := t.end;
        case None =>
          SubFromText(fs, dir, content, i, maxDepth, entries);
          piece := [content[i]];
          next := i + 1;
      }
    }

    /** replace_snippet: a cache hit, a file that is missing or unreadable,
      or a resolved body that is then cached. */
    method ReplaceSnippet(fs: Snapshot, dir: Path, name: string, depth: int) returns (r: string)
      requires depth >= 1
      modifies this
      ensures (r, entries) == Replace(fs, dir, name, depth, old(entries))
      decreases depth, 0
    {
      if name in entries {
        return entries[name];
      }
      var p := JoinPath(dir, name);
      if !Exists(fs, p) && !EndsWith(name, ".mdx") {
        p := JoinPath(dir, name + ".mdx");
      }
      if !Exists(fs, p) {
        return NotFoundMarker(name);
      }
      match ReadText(fs, p) {
        case Err(_) =>
          return LoadFailedMarker(name);
        case Ok(text) =>
          var resolved := ResolveSnippets(fs, dir, Strip(Body(text)), depth - 1);
          entries := entries[name := resolved];
          return resolved;
      }
    }
  }
}
