/** The documentation preparation script (prepare/prepare_docs.py): the
    title of a document, the search index with its per-category counts,
    and the count of files copy_directory_recursive copies. */
module Prepare {
  import opened Text
  import opened Outcomes
  import opened FileSystem
  import opened Sorting
  import opened Paths
  import opened Walk

  // ---------------------------------------------------------------------
  // extract_title: the closing "---" search

  /** `\s*\n` from c: the run of whitespace starting at c holds a newline. */
  predicate NewlineAhead(t: string, c: nat)
    decreases |t| - c
  {
    c < |t| && (t[c] == '\n' || (IsSpace(t[c]) && NewlineAhead(t, c + 1)))
  }

  /** `\n---\s*\n` matches at i. */
  predicate ClosesAt(t: string, i: nat)
  {
    i + 4 <= |t| && t[i] == '\n' && t[i + 1..i + 4] == "---" && NewlineAhead(t, i + 4)
  }

  /** re.search(r"\n---\s*\n", t) from position i: the start of the
      leftmost match. */
  function FindClose(t: string, i: nat): (r: Option<nat>)
    ensures r.Some? ==> i <= r.value && ClosesAt(t, r.value)
    ensures r.Some? ==> forall k :: i <= k < r.value ==> !ClosesAt(t, k)
    ensures r.None? ==> forall k :: i <= k <= |t| ==> !ClosesAt(t, k)
    decreases |t| - i
  {
    if i + 4 > |t| then None
    else if ClosesAt(t, i) then Some(i)
    else FindClose(t, i + 1)
  }

  // ---------------------------------------------------------------------
  // extract_title: `^title:\s*["\']?(.+?)["\']?\s*$` with re.MULTILINE,
  // step by step in the order the backtracking matcher tries it

  /** The end of the whitespace run that starts at c. */
  function SpaceEnd(f: string, c: nat): (r: nat)
    requires c <= |f|
    ensures c <= r <= |f|
    ensures forall k :: c <= k < r ==> IsSpace(f[k])
    ensures r == |f| || !IsSpace(f[r])
    decreases |f| - c
  {
    if c < |f| && IsSpace(f[c]) then SpaceEnd(f, c + 1) else c
  }

  /** `\s*$` from c: whitespace up to the end of a line or of the text. */
  predicate LineEndAhead(f: string, c: nat)
    decreases |f| - c
  {
    c >= |f| || f[c] == '\n' || (IsSpace(f[c]) && LineEndAhead(f, c + 1))
  }

  /** `["\']?\s*$` from g. */
  predicate TailAt(f: string, g: nat)
  {
    LineEndAhead(f, g) || (g < |f| && f[g] in Quotes && LineEndAhead(f, g + 1))
  }

  /** `(.+?)` from b, having tried the ends before g: the first end that
      lets the rest of the pattern match, on the same line. */
  function Lazy(f: string, b: nat, g: nat): (r: Option<nat>)
    requires b < g <= |f|
    ensures r.Some? ==> g <= r.value <= |f| && TailAt(f, r.value)
    decreases |f| - g
  {
    if TailAt(f, g) then Some(g)
    else if g < |f| && f[g] != '\n' then Lazy(f, b, g + 1)
    else None
  }

  /** The group when it starts at b: it needs one character that is not a
      newline. */
  function GroupFrom(f: string, b: nat): (r: Option<(nat, nat)>)
    ensures r.Some? ==> r.value.0 == b < r.value.1 <= |f|
  {
    if b < |f| && f[b] != '\n' then
      match Lazy(f, b, b + 1)
      case None => None
      case Some(g) => Some((b, g))
    else None
  }

  /** `["\']?` at a, first taking a quote when there is one. */
  function AfterQuote(f: string, a: nat): (r: Option<(nat, nat)>)
    ensures r.Some? ==> r.value.0 < r.value.1 <= |f|
  {
    var quoted := if a < |f| && f[a] in Quotes then GroupFrom(f, a + 1) else None;
    if quoted.Some? then quoted else GroupFrom(f, a)
  }

  /** `\s*` after "title:" at q, giving back one character at a time from
      the longest run. */
  function Greedy(f: string, q: nat, a: nat): (r: Option<(nat, nat)>)
    requires q <= a
    ensures r.Some? ==> r.value.0 < r.value.1 <= |f|
    decreases a - q
  {
    var here := AfterQuote(f, a);
    if here.Some? then here
    else if a > q then Greedy(f, q, a - 1)
    else None
  }

  /** The pattern at line start p: where the group starts and ends. */
  function MatchAt(f: string, p: nat): (r: Option<(nat, nat)>)
    requires p <= |f|
    ensures r.Some? ==> r.value.0 < r.value.1 <= |f|
  {
    if StartsWith(f[p..], "title:") then Greedy(f, p + 6, SpaceEnd(f, p + 6)) else None
  }

  /** `^` under re.MULTILINE. */
  predicate LineStart(f: string, p: nat)
  {
    p == 0 || (0 < p <= |f| && f[p - 1] == '\n')
  }

  /** re.search from position p: the group of the leftmost match. */
  function TitleSearch(f: string, p: nat): (r: Option<string>)
    requires p <= |f|
    decreases |f| - p
  {
    var m := if LineStart(f, p) then MatchAt(f, p) else None;
    if m.Some? then Some(f[m.value.0..m.value.1])
    else if p < |f| then TitleSearch(f, p + 1)
    else None
  }

  /** The fallback title: the stem with "-" read as " ", title-cased. */
  function StemTitle(p: Path): string
  {
    Title(ReplaceChar(Stem(Name(p)), '-', ' '))
  }

  /** The title of a text: the frontmatter title with its quotes stripped,
      or None when the text has no closed header with a title line. */
  function HeaderTitle(content: string): Option<string>
  {
    if !StartsWith(content, "---") then None
    else
      var t := content[3..];
      match FindClose(t, 0)
      case None => None
      case Some(i) =>
        match TitleSearch(t[..i], 0)
        case None => None
        case Some(g) => Some(StripChars(g, Quotes))
  }

  /** extract_title: any error while reading falls back to the stem. */
  function ExtractTitle(fs: Snapshot, p: Path): string
  {
    match ReadText(fs, p)
    case Err(_) => StemTitle(p)
    case Ok(content) =>
      match HeaderTitle(content)
      case None => StemTitle(p)
      case Some(title) => title
  }

  // ---------------------------------------------------------------------
  // What extract_title gives

  /** No line of f starts with "title:". */
  predicate NoTitleLine(f: string)
  {
    forall k :: 0 <= k && k + 6 <= |f| && LineStart(f, k) ==> f[k..k + 6] != "title:"
  }

  /** No line of f after its first starts with "---". */
  predicate NoDashLine(f: string)
  {
    forall k :: 0 <= k && k + 4 <= |f| && f[k] == '\n' ==> f[k + 1..k + 4] != "---"
  }

  /** The header's closing line starts at i: the leftmost match of
      `\n---\s*\n`. */
  predicate FirstClose(t: string, i: nat)
  {
    ClosesAt(t, i) && forall k :: 0 <= k < i ==> !ClosesAt(t, k)
  }

  /** A text extract_title gives no header title for: it does not open
      with "---", or its header is never closed, or no line of the header
      before its closing line starts with "title:". */
  predicate Untitled(content: string)
  {
    !StartsWith(content, "---")
    || forall i: nat :: i <= |content| - 3 && FirstClose(content[3..], i) ==> NoTitleLine(content[3..][..i])
  }

  lemma {:induction false} SpaceEndIs(f: string, c: nat, e: nat)
    requires c <= e <= |f|
    requires forall m :: c <= m < e ==> IsSpace(f[m])
    requires e == |f| || !IsSpace(f[e])
    ensures SpaceEnd(f, c) == e
    decreases e - c
  {
    if c < e {
      SpaceEndIs(f, c + 1, e);
    }
  }

  lemma {:induction false} NoLineEnd(f: string, k: nat, j: nat)
    requires k <= j < |f| && !IsSpace(f[j])
    requires forall m :: k <= m < j ==> f[m] != '\n'
    ensures !LineEndAhead(f, k)
    decreases j - k
  {
    if k < j {
      NoLineEnd(f, k + 1, j);
    }
  }

  /** On a line whose text before L ends with a non-blank character and
      has only blanks after L, the lazy group ends at L, or one before when
      that last character is a quote. */
  lemma {:induction false} LazyEnds(f: string, b: nat, g: nat, L: nat)
    requires b < g <= L <= |f| && !IsSpace(f[L - 1])
    requires forall m :: b <= m < L ==> f[m] != '\n'
    requires LineEndAhead(f, L)
    ensures var r := Lazy(f, b, g);
      r.Some? && g <= r.value && (r.value == L || (r.value == L - 1 && f[L - 1] in Quotes))
    decreases L - g
  {
    if g < L - 1 {
      NoLineEnd(f, g, L - 1);
      NoLineEnd(f, g + 1, L - 1);
      LazyEnds(f, b, g + 1, L);
    } else if g == L - 1 {
      NoLineEnd(f, g, L - 1);
    }
  }

  /** The group on a line "title:" + spaces + w + blanks: w with at most
      one quote dropped from each end, when w starts and ends with
      non-whitespace. */
  lemma {:induction false} GreedyGroup(f: string, q: nat, a: nat, L: nat)
    requires q <= a < L <= |f|
    requires forall m :: q <= m < a ==> IsSpace(f[m])
    requires !IsSpace(f[a]) && !IsSpace(f[L - 1])
    requires forall m :: a <= m < L ==> f[m] != '\n'
    requires LineEndAhead(f, L)
    requires a + 1 < L || f[a] !in Quotes || L == |f| || f[L] == '\n'
    ensures var r := Greedy(f, q, SpaceEnd(f, q));
      r.Some? && a <= r.value.0 < r.value.1 <= L
      && (r.value.0 == a || (r.value.0 == a + 1 && f[a] in Quotes))
      && (r.value.1 == L || (r.value.1 == L - 1 && f[L - 1] in Quotes))
  {
    SpaceEndIs(f, q, a);
    LazyEnds(f, a, a + 1, L);
    if f[a] in Quotes && a + 1 < L {
      LazyEnds(f, a + 1, a + 2, L);
    }
  }

  lemma {:induction false} TrimLeftFrom(s: string, cs: set<char>, k: nat)
    requires k <= |s| && forall i :: 0 <= i < k ==> s[i] in cs
    ensures TrimLeft(s, cs) == TrimLeft(s[k..], cs)
    decreases k
  {
    if k > 0 {
      assert s[1..][k - 1..] == s[k..];
      TrimLeftFrom(s[1..], cs, k - 1);
    }
  }

  lemma {:induction false} TrimRightTo(s: string, cs: set<char>, k: nat)
    requires k <= |s| && forall i :: k <= i < |s| ==> s[i] in cs
    ensures TrimRight(s, cs) == TrimRight(s[..k], cs)
    decreases |s| - k
  {
    if k < |s| {
      assert s[..|s| - 1][..k] == s[..k];
      TrimRightTo(s[..|s| - 1], cs, k);
    } else {
      assert s[..k] == s;
    }
  }

  /** Trailing characters of cs do not change strip(cs). */
  lemma {:induction false} StripTrailing(x: string, z: string, cs: set<char>)
    requires forall i :: 0 <= i < |z| ==> z[i] in cs
    ensures StripChars(x + z, cs) == StripChars(x, cs)
    decreases |x|
  {
    if x == [] {
      assert x + z == z;
      TrimLeftFrom(z, cs, |z|);
    } else if x[0] in cs {
      assert (x + z)[1..] == x[1..] + z;
      StripTrailing(x[1..], z, cs);
    } else {
      TrimRightTo(x + z, cs, |x|);
      assert (x + z)[..|x|] == x;
    }
  }

  lemma {:induction false} StripLeading(w: string, s: nat, cs: set<char>)
    requires s <= |w| && forall i :: 0 <= i < s ==> w[i] in cs
    ensures StripChars(w, cs) == StripChars(w[s..], cs)
  {
    TrimLeftFrom(w, cs, s);
  }

  lemma {:induction false} Trailing(w: string, e: nat, cs: set<char>)
    requires e <= |w| && forall i :: e <= i < |w| ==> w[i] in cs
    ensures forall i :: 0 <= i < |w[e..]| ==> w[e..][i] in cs
  {
    forall i | 0 <= i < |w[e..]| ensures w[e..][i] in cs {
      assert w[e..][i] == w[e + i];
    }
  }

  lemma {:induction false} StripGroup(w: string, s: nat, e: nat, cs: set<char>)
    requires s <= e <= |w|
    requires forall i :: 0 <= i < s ==> w[i] in cs
    requires forall i :: e <= i < |w| ==> w[i] in cs
    ensures StripChars(w[s..e], cs) == StripChars(w, cs)
  {
    StripLeading(w, s, cs);
    SliceSplit(w, s, e);
    Trailing(w, e, cs);
    StripTrailing(w[s..e], w[e..], cs);
  }

  /** Lines of pre, which ends with a newline and has no title line, are
      never where the search succeeds. */
  lemma {:induction false} SearchSkips(f: string, pre: string, p: nat)
    requires p <= |pre| <= |f| && f[..|pre|] == pre
    requires pre == [] || pre[|pre| - 1] == '\n'
    requires NoTitleLine(pre)
    ensures TitleSearch(f, p) == TitleSearch(f, |pre|)
    decreases |pre| - p
  {
    if p < |pre| {
      if LineStart(f, p) && p + 6 <= |f| {
        if p + 6 <= |pre| {
          assert f[p..p + 6] == pre[p..p + 6];
          assert LineStart(pre, p) by {
            if p > 0 {
              assert f[p - 1] == pre[p - 1];
            }
          }
        } else {
          assert f[p..p + 6][|pre| - 1 - p] == f[|pre| - 1] == '\n';
        }
        assert f[p..][..6] == f[p..p + 6];
      }
      SearchSkips(f, pre, p + 1);
    }
  }

  lemma {:induction false} SearchNone(f: string, p: nat)
    requires p <= |f| && NoTitleLine(f)
    ensures TitleSearch(f, p) == None
    decreases |f| - p
  {
    if p + 6 <= |f| {
      assert f[p..][..6] == f[p..p + 6];
    }
    if p < |f| {
      SearchNone(f, p + 1);
    }
  }

  /** The search on a text whose first title line starts at P, with its
      value from a through L: the group is that value, less at most one
      quote at each end. */
  lemma {:induction false} TitleGroup(f: string, P: nat, a: nat, L: nat) returns (s: nat, e: nat)
    requires P + 6 <= a < L <= |f|
    requires P == 0 || f[P - 1] == '\n'
    requires NoTitleLine(f[..P])
    requires f[P..P + 6] == "title:"
    requires forall m :: P + 6 <= m < a ==> IsSpace(f[m])
    requires !IsSpace(f[a]) && !IsSpace(f[L - 1])
    requires forall m :: a <= m < L ==> f[m] != '\n'
    requires LineEndAhead(f, L)
    requires a + 1 < L || f[a] !in Quotes || L == |f| || f[L] == '\n'
    ensures a <= s < e <= L
    ensures TitleSearch(f, 0) == Some(f[s..e])
    ensures s == a || (s == a + 1 && f[a] in Quotes)
    ensures e == L || (e == L - 1 && f[L - 1] in Quotes)
  {
    SearchSkips(f, f[..P], 0);
    assert f[P..][..6] == f[P..P + 6];
    GreedyGroup(f, P + 6, a, L);
    var r := Greedy(f, P + 6, SpaceEnd(f, P + 6)).value;
    s, e := r.0, r.1;
  }

  /** Dropping a quote from either end of w leaves its strip("'\"") as it
      was. */
  lemma {:induction false} StripInner(w: string, s: nat, e: nat)
    requires s <= e <= |w|
    requires s == 0 || (s == 1 && w[0] in Quotes)
    requires e == |w| || (e == |w| - 1 && w[|w| - 1] in Quotes)
    ensures StripChars(w[s..e], Quotes) == StripChars(w, Quotes)
  {
    StripGroup(w, s, e, Quotes);
  }

  lemma {:induction false} StripAt(f: string, a: nat, L: nat, s: nat, e: nat)
    requires a <= s <= e <= L <= |f|
    requires s == a || (s == a + 1 && f[a] in Quotes)
    requires e == L || (e == L - 1 && f[L - 1] in Quotes)
    ensures StripChars(f[s..e], Quotes) == StripChars(f[a..L], Quotes)
  {
    var w, i, j := f[a..L], s - a, e - a;
    assert w[i..j] == f[s..e] by {
      SliceOfSlice(f, a, L, i, j - i);
    }
    assert i == 0 || (i == 1 && w[0] in Quotes);
    assert j == |w| || (j == |w| - 1 && w[|w| - 1] in Quotes);
    StripInner(w, i, j);
  }

  lemma {:induction false} TitleAt(f: string, P: nat, a: nat, L: nat)
    requires P + 6 <= a < L <= |f|
    requires P == 0 || f[P - 1] == '\n'
    requires NoTitleLine(f[..P])
    requires f[P..P + 6] == "title:"
    requires forall m :: P + 6 <= m < a ==> IsSpace(f[m])
    requires !IsSpace(f[a]) && !IsSpace(f[L - 1])
    requires forall m :: a <= m < L ==> f[m] != '\n'
    requires LineEndAhead(f, L)
    requires a + 1 < L || f[a] !in Quotes || L == |f| || f[L] == '\n'
    ensures var g := TitleSearch(f, 0);
      g.Some? && StripChars(g.value, Quotes) == StripChars(f[a..L], Quotes)
  {
    var s, e := TitleGroup(f, P, a, L);
    StripAt(f, a, L, s, e);
  }

  /** rest starts with blanks up to a newline or its end: `\s*$`. */
  predicate LineTail(rest: string)
  {
    LineEndAhead(rest, 0)
  }

  lemma {:induction false} LineEndShift(x: string, rest: string, c: nat)
    requires LineEndAhead(rest, c)
    ensures LineEndAhead(x + rest, |x| + c)
    decreases |rest| - c
  {
    if c < |rest| {
      assert (x + rest)[|x| + c] == rest[c];
      if rest[c] != '\n' {
        LineEndShift(x, rest, c + 1);
      }
    }
  }

  /** The first "title:" line after lines that are not: its value, read as
      the first non-blank character through the last one, so without the
      blanks that may follow it, with quotes stripped from both ends. */
  lemma {:induction false} TitleLine(pre: string, sp: string, w: string, rest: string)
    requires pre == [] || pre[|pre| - 1] == '\n'
    requires NoTitleLine(pre)
    requires forall m :: 0 <= m < |sp| ==> IsSpace(sp[m])
    requires w != [] && !IsSpace(w[0]) && !IsSpace(w[|w| - 1]) && '\n' !in w
    requires LineTail(rest)
    requires |w| > 1 || w[0] !in Quotes || rest == [] || rest[0] == '\n'
    ensures var g := TitleSearch(pre + "title:" + sp + w + rest, 0);
      g.Some? && StripChars(g.value, Quotes) == StripChars(w, Quotes)
  {
    var f := pre + "title:" + sp + w + rest;
    var P := |pre|;
    var a := P + 6 + |sp|;
    var L := a + |w|;
    assert f[..P] == pre;
    assert f[P..P + 6] == "title:";
    assert forall m :: P + 6 <= m < a ==> f[m] == sp[m - P - 6];
    assert f[a..L] == w;
    assert f == (pre + "title:" + sp + w) + rest;
    LineEndShift(pre + "title:" + sp + w, rest, 0);
    assert L < |f| ==> f[L] == rest[0];
    TitleAt(f, P, a, L);
  }

  /** The leftmost closing line is the one re.search finds. */
  lemma {:induction false} FindFirstClose(t: string, j: nat, i: nat)
    requires j <= i && FirstClose(t, i)
    ensures FindClose(t, j) == Some(i)
    decreases i - j
  {
    if j < i {
      FindFirstClose(t, j + 1, i);
    }
  }

  /** A header without a line starting with "---" closes at the first line
      "---" after it. */
  lemma {:induction false} CloseAfter(f: string, more: string)
    requires NoDashLine(f)
    ensures FirstClose(f + "\n---\n" + more, |f|)
    ensures FindClose(f + "\n---\n" + more, 0) == Some(|f|)
  {
    var t := f + "\n---\n" + more;
    assert t[|f|..|f| + 5] == "\n---\n";
    assert ClosesAt(t, |f|);
    forall k | 0 <= k < |f| ensures !ClosesAt(t, k) {
      if k + 4 <= |f| {
        assert t[k] == f[k];
        assert t[k + 1..k + 4] == f[k + 1..k + 4];
      } else {
        assert t[k + 1..k + 4][|f| - k - 1] == '\n';
      }
    }
    FindFirstClose(t, 0, |f|);
  }

  /** A header whose first closing line is the one right after it is
      searched for its title line alone. */
  lemma {:induction false} HeaderOf(f: string, more: string)
    requires FirstClose(f + "\n---\n" + more, |f|)
    ensures HeaderTitle("---" + f + "\n---\n" + more) ==
      match TitleSearch(f, 0)
      case None => None
      case Some(g) => Some(StripChars(g, Quotes))
  {
    var t := f + "\n---\n" + more;
    assert ("---" + f + "\n---\n" + more)[3..] == t;
    FindFirstClose(t, 0, |f|);
    assert t[..|f|] == f;
  }

  /** A header, closed by its first closing line, holding a "title:" line
      gives that line's value, stripped of quotes at both ends; a value
      without quotes at its ends is the title as it stands. */
  lemma {:induction false} TitleFromHeader(fs: Snapshot, p: Path, pre: string, sp: string, w: string, rest: string, more: string)
    requires ReadText(fs, p) == Ok("---" + (pre + "title:" + sp + w + rest) + "\n---\n" + more)
    requires pre == [] || pre[|pre| - 1] == '\n'
    requires NoTitleLine(pre)
    requires FirstClose((pre + "title:" + sp + w + rest) + "\n---\n" + more, |pre + "title:" + sp + w + rest|)
    requires forall m :: 0 <= m < |sp| ==> IsSpace(sp[m])
    requires w != [] && !IsSpace(w[0]) && !IsSpace(w[|w| - 1]) && '\n' !in w
    requires LineTail(rest)
    requires |w| > 1 || w[0] !in Quotes || rest == [] || rest[0] == '\n'
    ensures ExtractTitle(fs, p) == StripChars(w, Quotes)
    ensures w[0] !in Quotes && w[|w| - 1] !in Quotes ==> ExtractTitle(fs, p) == w
  {
    HeaderOf(pre + "title:" + sp + w + rest, more);
    TitleLine(pre, sp, w, rest);
    if w[0] !in Quotes && w[|w| - 1] !in Quotes {
      StripCharsKeeps(w, Quotes);
    }
  }

  /** Every other readable document, and every unreadable one, is titled
      from its file name. */
  lemma {:induction false} TitleFallback(fs: Snapshot, p: Path)
    requires ReadText(fs, p).Ok? ==> Untitled(ReadText(fs, p).value)
    ensures ExtractTitle(fs, p) == StemTitle(p)
  {
    if ReadText(fs, p).Ok? {
      var content := ReadText(fs, p).value;
      if StartsWith(content, "---") {
        var t := content[3..];
        match FindClose(t, 0)
        case None =>
        case Some(i) =>
          assert FirstClose(t, i);
          SearchNone(t[..i], 0);
      }
    }
  }

  // ---------------------------------------------------------------------
  // build_index: the files under raw/ and their categories

  /** The paths of the names in c that end with ext, in order. */
  function Matching(c: Path, names: seq<string>, ext: string): (r: seq<Path>)
    ensures forall i :: 0 <= i < |r| ==> Below(c, r[i]) && EndsWith(Name(r[i]), ext)
  {
    if names == [] then []
    else
      var n := names[|names| - 1];
      assert (c + [n])[..|c|] == c && Name(c + [n]) == n;
      Matching(c, names[..|names| - 1], ext) + (if EndsWith(n, ext) then [c + [n]] else [])
  }

  /** Path.rglob("*" + ext) from c: the matching entries of c in iterdir()
      order (files and directories alike, hidden names included), then the
      same search in each subdirectory in turn. A directory that cannot be
      listed yields nothing, and so does a root that is not a directory. */
  function Glob(fs: Snapshot, c: Path, ext: string): (r: seq<Path>)
    ensures forall i :: 0 <= i < |r| ==> Below(c, r[i]) && EndsWith(Name(r[i]), ext)
    decreases Room(fs, c), 1, 0
  {
    if !IsDirectory(fs, c) then []
    else Matching(c, Names(fs, c), ext) + GlobEach(fs, c, Names(fs, c), ext)
  }

  /** The searches in the subdirectories among names, in order. */
  function GlobEach(fs: Snapshot, c: Path, names: seq<string>, ext: string): (r: seq<Path>)
    ensures forall i :: 0 <= i < |r| ==> Below(c, r[i]) && EndsWith(Name(r[i]), ext)
    decreases Room(fs, c), 0, |names|
  {
    if names == [] then []
    else
      var n := names[|names| - 1];
      var front := GlobEach(fs, c, names[..|names| - 1], ext);
      if IsDirectory(fs, c + [n]) then
        ChildDepth(fs, c, n);
        var sub := Glob(fs, c + [n], ext);
        assert forall i :: 0 <= i < |sub| ==> sub[i][..|c|] == c by {
          forall i | 0 <= i < |sub| ensures sub[i][..|c|] == c {
            assert sub[i][..|c| + 1][..|c|] == sub[i][..|c|];
            assert (c + [n])[..|c|] == c;
          }
        }
        front + sub
      else front
  }

  /** The matching entries of c are exactly c's names that end in ext. */
  lemma {:induction false} MatchingMembers(c: Path, names: seq<string>, ext: string, p: Path)
    ensures p in Matching(c, names, ext) <==>
      |p| == |c| + 1 && p[..|c|] == c && p[|c|] in names && EndsWith(p[|c|], ext)
    decreases |names|
  {
    if names != [] {
      var front, n := names[..|names| - 1], names[|names| - 1];
      MatchingMembers(c, front, ext, p);
      assert names == front + [n];
      if |p| == |c| + 1 && p[..|c|] == c {
        assert p == c + [p[|c|]];
      }
    }
  }

  /** rglob yields only entries reached from c through listings. */
  lemma {:induction false} GlobSound(fs: Snapshot, c: Path, ext: string, p: Path)
    requires p in Glob(fs, c, ext)
    ensures IsDirectory(fs, c) && Reached(fs, c, p) && EndsWith(Name(p), ext)
    decreases Room(fs, c), 1, 0
  {
    var names := Names(fs, c);
    if p in Matching(c, names, ext) {
      MatchingMembers(c, names, ext, p);
    } else {
      GlobEachSound(fs, c, names, ext, p);
    }
  }

  lemma {:induction false} GlobEachSound(fs: Snapshot, c: Path, names: seq<string>, ext: string, p: Path)
    requires p in GlobEach(fs, c, names, ext)
    ensures |p| > |c| + 1 && p[..|c|] == c && p[|c|] in names && Descends(fs, c, p) && EndsWith(Name(p), ext)
    decreases Room(fs, c), 0, |names|
  {
    var front, n := names[..|names| - 1], names[|names| - 1];
    if p in GlobEach(fs, c, front, ext) {
      GlobEachSound(fs, c, front, ext, p);
    } else {
      var d := c + [n];
      ChildDepth(fs, c, n);
      GlobSound(fs, d, ext, p);
      assert p[..|c| + 1] == d;
      assert p[..|c|] == p[..|c| + 1][..|c|];
      assert p[|c|] == p[..|c| + 1][|c|];
      forall j | |c| < j < |p| ensures IsDirectory(fs, p[..j]) && p[j] in Names(fs, p[..j]) {
        if j == |c| + 1 {
          assert p[..j] == d;
        }
      }
    }
  }

  /** rglob yields every entry reached from c through listings whose name
      ends in ext, files and directories alike. */
  lemma {:induction false} GlobComplete(fs: Snapshot, c: Path, ext: string, p: Path)
    requires IsDirectory(fs, c) && Reached(fs, c, p) && EndsWith(Name(p), ext)
    ensures p in Glob(fs, c, ext)
    decreases |p| - |c|, 1
  {
    var names := Names(fs, c);
    if |p| == |c| + 1 {
      MatchingMembers(c, names, ext, p);
    } else {
      var k :| 0 <= k < |names| && names[k] == p[|c|];
      GlobEachComplete(fs, c, names, k, ext, p);
    }
  }

  lemma {:induction false} GlobEachComplete(fs: Snapshot, c: Path, names: seq<string>, k: int, ext: string, p: Path)
    requires 0 <= k < |names| && |p| > |c| + 1 && p[..|c|] == c && p[|c|] == names[k]
    requires Descends(fs, c, p) && EndsWith(Name(p), ext)
    ensures p in GlobEach(fs, c, names, ext)
    decreases |p| - |c|, 0, |names|
  {
    var front, n := names[..|names| - 1], names[|names| - 1];
    if k < |names| - 1 {
      assert front[k] == names[k];
      GlobEachComplete(fs, c, front, k, ext, p);
    } else {
      var d := c + [n];
      assert p[..|c| + 1] == d && IsDirectory(fs, p[..|c| + 1]);
      ChildDepth(fs, c, n);
      assert p[..|d|] == d;
      assert p[|d|] in Names(fs, d);
      assert Descends(fs, d, p);
      GlobComplete(fs, d, ext, p);
    }
  }

  /** With iterdir() naming each entry once, rglob yields nothing twice. */
  lemma {:induction false} GlobDistinct(fs: Snapshot, c: Path, ext: string)
    requires DistinctListings(fs)
    ensures NoDuplicates(Glob(fs, c, ext))
    decreases Room(fs, c), 1, 0
  {
    if IsDirectory(fs, c) {
      var names := Names(fs, c);
      MatchingDistinct(c, names, ext);
      GlobEachDistinct(fs, c, names, ext);
      var a, b := Matching(c, names, ext), GlobEach(fs, c, names, ext);
      forall i, j | 0 <= i < |a| && 0 <= j < |b| ensures a[i] != b[j] {
        MatchingMembers(c, names, ext, a[i]);
        GlobEachSound(fs, c, names, ext, b[j]);
      }
      DistinctConcat(a, b);
    }
  }

  lemma {:induction false} MatchingDistinct(c: Path, names: seq<string>, ext: string)
    requires NoDuplicates(names)
    ensures NoDuplicates(Matching(c, names, ext))
    decreases |names|
  {
    if names != [] {
      var front, n := names[..|names| - 1], names[|names| - 1];
      assert NoDuplicates(front) && n !in front;
      MatchingDistinct(c, front, ext);
      var a := Matching(c, front, ext);
      var b: seq<Path> := if EndsWith(n, ext) then [c + [n]] else [];
      forall i, j | 0 <= i < |a| && 0 <= j < |b| ensures a[i] != b[j] {
        MatchingMembers(c, front, ext, a[i]);
        assert b[j][|c|] == n;
      }
      DistinctConcat(a, b);
    }
  }

  lemma {:induction false} GlobEachDistinct(fs: Snapshot, c: Path, names: seq<string>, ext: string)
    requires DistinctListings(fs) && NoDuplicates(names)
    ensures NoDuplicates(GlobEach(fs, c, names, ext))
    decreases Room(fs, c), 0, |names|
  {
    if names != [] {
      var front, n := names[..|names| - 1], names[|names| - 1];
      assert NoDuplicates(front) && n !in front;
      GlobEachDistinct(fs, c, front, ext);
      var d := c + [n];
      if IsDirectory(fs, d) {
        ChildDepth(fs, c, n);
        GlobDistinct(fs, d, ext);
        var a, b := GlobEach(fs, c, front, ext), Glob(fs, d, ext);
        forall i, j | 0 <= i < |a| && 0 <= j < |b| ensures a[i] != b[j] {
          GlobEachSound(fs, c, front, ext, a[i]);
          GlobSound(fs, d, ext, b[j]);
          assert b[j][..|c| + 1] == d;
          assert b[j][|c|] == b[j][..|c| + 1][|c|];
        }
        DistinctConcat(a, b);
      }
    }
  }

  /** One entry of index["files"]. */
  datatype FileEntry = FileEntry(path: string, title: string, category: string)

  /** The index build_index returns: index["categories"] is a dict, held
      here as its keys in insertion order and the counts. */
  datatype Index = Index(version: string, files: seq<FileEntry>, order: seq<string>, categories: map<string, nat>)

  /** str(p.relative_to(raw)) with backslashes read as slashes. */
  function RelativeName(raw: Path, p: Path): string
    requires |raw| <= |p|
  {
    ReplaceChar(Join(p[|raw|..], "/"), '\\', '/')
  }

  /** The first segment of a relative path, or "root" for a top-level file. */
  function CategoryOf(rel: string): string
  {
    if '/' in rel then Split(rel, '/')[0] else "root"
  }

  function EntryOf(fs: Snapshot, raw: Path, p: Path): FileEntry
    requires |raw| <= |p|
  {
    var rel := RelativeName(raw, p);
    FileEntry(rel, ExtractTitle(fs, p), CategoryOf(rel))
  }

  /** The entries for paths found below raw, in order. */
  function Entries(fs: Snapshot, raw: Path, ps: seq<Path>): (r: seq<FileEntry>)
    requires forall i :: 0 <= i < |ps| ==> |raw| < |ps[i]|
    ensures |r| == |ps|
    ensures forall i :: 0 <= i < |ps| ==> r[i] == EntryOf(fs, raw, ps[i])
  {
    Mapped(p requires |raw| <= |p| => EntryOf(fs, raw, p), ps)
  }

  /** The categories of the files, in order. */
  function Cats(files: seq<FileEntry>): (r: seq<string>)
    ensures |r| == |files|
    ensures forall i :: 0 <= i < |files| ==> r[i] == files[i].category
  {
    if files == [] then [] else Cats(files[..|files| - 1]) + [files[|files| - 1].category]
  }

  /** index["categories"] after the files are counted one by one. */
  function Tally(files: seq<FileEntry>): map<string, nat>
  {
    if files == [] then map[]
    else
      var m := Tally(files[..|files| - 1]);
      var c := files[|files| - 1].category;
      m[c := (if c in m then m[c] else 0) + 1]
  }

  /** The raw/ directory under the output directory. */
  function RawDir(out: Path): Path
  {
    out + ["raw"]
  }

  /** build_index: the .mdx files under raw/ in rglob order, then the .md
      files; each with its relative path, title and category. */
  function IndexOf(fs: Snapshot, out: Path): Index
    requires Plain(out)
  {
    var raw := RawDir(out);
    if !Exists(fs, raw) then Index("1.0", [], [], map[])
    else
      var files := Entries(fs, raw, Glob(fs, raw, ".mdx")) + Entries(fs, raw, Glob(fs, raw, ".md"));
      Index("1.0", files, Dedup(Cats(files)), Tally(files))
  }

  /** The sum of the counts of keys. */
  function Total(keys: seq<string>, m: map<string, nat>): nat
  {
    if keys == [] then 0 else (if keys[0] in m then m[keys[0]] else 0) + Total(keys[1..], m)
  }

  /** Counting one more file: its category's count goes up by one, and a
      new category goes to the end of the keys. */
  lemma {:induction false} RecordStep(files: seq<FileEntry>, e: FileEntry)
    ensures var m := Tally(files);
      Tally(files + [e]) == m[e.category := (if e.category in m then m[e.category] else 0) + 1]
    ensures Dedup(Cats(files + [e])) ==
      if e.category in Tally(files) then Dedup(Cats(files)) else Dedup(Cats(files)) + [e.category]
  {
    TallySnoc(files, e);
    CatsSnoc(files, e);
    TallyCounts(files);
    DedupFromSnoc([], Cats(files), e.category);
    DedupFromCorrect([], Cats(files));
  }

  lemma {:induction false} TallySnoc(files: seq<FileEntry>, e: FileEntry)
    ensures var m := Tally(files);
      Tally(files + [e]) == m[e.category := (if e.category in m then m[e.category] else 0) + 1]
  {
    assert (files + [e])[..|files|] == files;
  }

  lemma {:induction false} CatsSnoc(files: seq<FileEntry>, e: FileEntry)
    ensures Cats(files + [e]) == Cats(files) + [e.category]
  {
    assert (files + [e])[..|files|] == files;
  }

  /** The counted categories are exactly those of the files, each counted
      as often as it occurs. */
  lemma {:induction false} TallyCounts(files: seq<FileEntry>)
    ensures forall c :: c in Tally(files) <==> c in Cats(files)
    ensures forall c :: c in Tally(files) ==> Tally(files)[c] == multiset(Cats(files))[c]
    decreases |files|
  {
    if files != [] {
      var front := files[..|files| - 1];
      TallyCounts(front);
      assert Cats(files) == Cats(front) + [files[|files| - 1].category];
    }
  }

  lemma {:induction false} TotalSkip(keys: seq<string>, m: map<string, nat>, c: string, v: nat)
    requires c !in keys
    ensures Total(keys, m[c := v]) == Total(keys, m)
    decreases |keys|
  {
    if keys != [] {
      TotalSkip(keys[1..], m, c, v);
    }
  }

  lemma {:induction false} TotalBump(keys: seq<string>, m: map<string, nat>, c: string)
    requires NoDuplicates(keys) && c in keys && c in m
    ensures Total(keys, m[c := m[c] + 1]) == Total(keys, m) + 1
    decreases |keys|
  {
    if keys[0] == c {
      assert c !in keys[1..] by {
        forall j | 0 <= j < |keys[1..]| ensures keys[1..][j] != c {
          assert keys[1..][j] == keys[j + 1];
        }
      }
      TotalSkip(keys[1..], m, c, m[c] + 1);
    } else {
      assert NoDuplicates(keys[1..]) by {
        forall i, j | 0 <= i < j < |keys[1..]| ensures keys[1..][i] != keys[1..][j] {
          assert keys[1..][i] == keys[i + 1] && keys[1..][j] == keys[j + 1];
        }
      }
      TotalBump(keys[1..], m, c);
    }
  }

  lemma {:induction false} TotalSnoc(keys: seq<string>, x: string, m: map<string, nat>)
    ensures Total(keys + [x], m) == Total(keys, m) + (if x in m then m[x] else 0)
    decreases |keys|
  {
    if keys == [] {
      assert [] + [x] == [x];
    } else {
      assert (keys + [x])[1..] == keys[1..] + [x];
      TotalSnoc(keys[1..], x, m);
    }
  }

  /** The counts of the categories add up to the number of files. */
  lemma {:induction false} TallyTotal(files: seq<FileEntry>)
    ensures Total(Dedup(Cats(files)), Tally(files)) == |files|
    decreases |files|
  {
    if files != [] {
      var front := files[..|files| - 1];
      var e := files[|files| - 1];
      assert files == front + [e];
      TallyTotal(front);
      RecordStep(front, e);
      TallyCounts(front);
      DedupFromCorrect([], Cats(front));
      var order := Dedup(Cats(front));
      var m := Tally(front);
      if e.category in m {
        TotalBump(order, m, e.category);
      } else {
        TotalSnoc(order, e.category, m[e.category := 1]);
        TotalSkip(order, m, e.category, 1);
      }
    }
  }

  /** A category is the first segment of a path that has more than one,
      and "root" otherwise. */
  lemma {:induction false} CategoryShape(rel: string)
    ensures '/' !in rel ==> CategoryOf(rel) == "root"
    ensures '/' in rel ==> '/' !in CategoryOf(rel) && StartsWith(rel, CategoryOf(rel) + "/")
  {
    if '/' in rel {
      var i := FindChar(rel, '/', 0);
      var k :| 0 <= k < |rel| && rel[k] == '/';
      assert i <= k;
      assert Split(rel, '/')[0] == rel[..i];
      assert rel[..i + 1] == rel[..i] + "/";
    }
  }

  lemma {:induction false} JoinEndsWithLast(segs: seq<string>, ext: string)
    requires segs != [] && EndsWith(segs[|segs| - 1], ext)
    ensures EndsWith(Join(segs, "/"), ext)
  {
    var front := segs[..|segs| - 1];
    var last := segs[|segs| - 1];
    assert segs == front + [last];
    JoinAppend(front, last, "/");
    var pre := if front == [] then "" else Join(front, "/") + "/";
    var j := pre + last;
    assert j[|j| - |ext|..] == last[|last| - |ext|..];
  }

  lemma {:induction false} ReplaceKeepsEnd(s: string, ext: string)
    requires EndsWith(s, ext) && '\\' !in ext
    ensures EndsWith(ReplaceChar(s, '\\', '/'), ext)
  {
    var r := ReplaceChar(s, '\\', '/');
    forall k | 0 <= k < |ext| ensures r[|r| - |ext| + k] == ext[k] {
      assert s[|s| - |ext| + k] == s[|s| - |ext|..][k] == ext[k];
    }
    assert r[|r| - |ext|..] == ext;
  }

  /** The relative path keeps the suffix of the file's name. */
  lemma {:induction false} RelativeEnds(raw: Path, p: Path, ext: string)
    requires |raw| < |p| && EndsWith(Name(p), ext) && '\\' !in ext
    ensures EndsWith(RelativeName(raw, p), ext)
  {
    var segs := p[|raw|..];
    assert segs[|segs| - 1] == Name(p);
    JoinEndsWithLast(segs, ext);
    ReplaceKeepsEnd(Join(segs, "/"), ext);
  }

  /** A name ending in ".md" does not end in ".mdx". */
  lemma {:induction false} NotBoth(s: string)
    ensures EndsWith(s, ".md") ==> !EndsWith(s, ".mdx")
  {
    if EndsWith(s, ".md") {
      assert s[|s| - 3..][2] == s[|s| - 1];
    }
  }

  /** Without a raw/ directory the index has no files and no categories. */
  lemma {:induction false} IndexWithoutRaw(fs: Snapshot, out: Path)
    requires Plain(out) && !IsDirectory(fs, RawDir(out))
    ensures IndexOf(fs, out) == Index("1.0", [], [], map[])
  {
    var raw := RawDir(out);
    if Exists(fs, raw) {
      assert Glob(fs, raw, ".mdx") == [] && Glob(fs, raw, ".md") == [];
      assert Dedup(Cats([])) == [];
    }
  }

  /** Every entry of the index is a .mdx or .md path found below raw/,
      with that file's title; its category is the first segment of its
      path when the path has more than one, and "root" otherwise. */
  lemma {:induction false} IndexEntries(fs: Snapshot, out: Path)
    requires Plain(out)
    ensures var ix := IndexOf(fs, out);
      forall i :: 0 <= i < |ix.files| ==>
        (exists p :: (Below(RawDir(out), p) && (EndsWith(Name(p), ".mdx") || EndsWith(Name(p), ".md"))
           && ix.files[i].path == RelativeName(RawDir(out), p) && ix.files[i].title == ExtractTitle(fs, p)))
        && ('/' !in ix.files[i].path ==> ix.files[i].category == "root")
        && ('/' in ix.files[i].path ==> '/' !in ix.files[i].category && StartsWith(ix.files[i].path, ix.files[i].category + "/"))
  {
    var raw := RawDir(out);
    if Exists(fs, raw) {
      var mdx, md := Glob(fs, raw, ".mdx"), Glob(fs, raw, ".md");
      var files := Entries(fs, raw, mdx) + Entries(fs, raw, md);
      forall i | 0 <= i < |files|
        ensures exists p :: (Below(raw, p) && (EndsWith(Name(p), ".mdx") || EndsWith(Name(p), ".md"))
           && files[i].path == RelativeName(raw, p) && files[i].title == ExtractTitle(fs, p))
        ensures '/' !in files[i].path ==> files[i].category == "root"
        ensures '/' in files[i].path ==> '/' !in files[i].category && StartsWith(files[i].path, files[i].category + "/")
      {
        var p := if i < |mdx| then mdx[i] else md[i - |mdx|];
        assert files[i] == EntryOf(fs, raw, p);
        CategoryShape(files[i].path);
      }
    }
  }

  /** In a snapshot whose listings agree with its entries and can all be
      read, every .mdx file and every .md file below raw/, at any depth,
      has an entry in the index with its relative path and its title. */
  lemma {:induction false} IndexComplete(fs: Snapshot, out: Path, p: Path)
    requires Plain(out) && IsDirectory(fs, RawDir(out)) && RawDir(out) in fs.listing
    requires ListsChildren(fs, RawDir(out)) && Listable(fs, RawDir(out))
    requires p in fs.files && Below(RawDir(out), p) && (EndsWith(Name(p), ".mdx") || EndsWith(Name(p), ".md"))
    ensures var ix := IndexOf(fs, out);
      exists i :: 0 <= i < |ix.files| && ix.files[i].path == RelativeName(RawDir(out), p)
        && ix.files[i].title == ExtractTitle(fs, p)
  {
    var raw := RawDir(out);
    assert Plain(raw) by {
      forall k | 0 <= k < |raw| ensures PlainSegment(raw[k]) {
        if k < |out| { assert raw[k] == out[k]; }
      }
    }
    CanonPlain(raw);
    ExistingReached(fs, raw, p);
    var mdx, md := Glob(fs, raw, ".mdx"), Glob(fs, raw, ".md");
    if EndsWith(Name(p), ".mdx") {
      GlobComplete(fs, raw, ".mdx", p);
    } else {
      GlobComplete(fs, raw, ".md", p);
    }
    IndexFiles(fs, out);
    EntriesCover(fs, raw, mdx, md, p);
  }

  lemma {:induction false} IndexFiles(fs: Snapshot, out: Path)
    requires Plain(out) && Exists(fs, RawDir(out))
    ensures IndexOf(fs, out).files ==
      Entries(fs, RawDir(out), Glob(fs, RawDir(out), ".mdx")) + Entries(fs, RawDir(out), Glob(fs, RawDir(out), ".md"))
  {
  }

  lemma {:induction false} EntriesCover(fs: Snapshot, raw: Path, a: seq<Path>, b: seq<Path>, p: Path)
    requires forall i :: 0 <= i < |a| ==> |raw| < |a[i]|
    requires forall i :: 0 <= i < |b| ==> |raw| < |b[i]|
    requires p in a || p in b
    ensures var files := Entries(fs, raw, a) + Entries(fs, raw, b);
      exists i :: 0 <= i < |files| && files[i].path == RelativeName(raw, p) && files[i].title == ExtractTitle(fs, p)
  {
    var A, B := Entries(fs, raw, a), Entries(fs, raw, b);
    var e := EntryOf(fs, raw, p);
    assert e.path == RelativeName(raw, p) && e.title == ExtractTitle(fs, p);
    if p in a {
      var k := IndexIn(a, p);
      assert A[k] == e;
      EntryWitness(A + B, k, e);
    } else {
      var k := IndexIn(b, p);
      assert B[k] == e;
      EntryWitness(A + B, |A| + k, e);
    }
  }

  lemma {:induction false} EntryWitness(files: seq<FileEntry>, k: nat, e: FileEntry)
    requires k < |files| && files[k] == e
    ensures exists i :: 0 <= i < |files| && files[i].path == e.path && files[i].title == e.title
  {
  }

  /** Where x sits in s. */
  function IndexIn(s: seq<Path>, x: Path): (k: nat)
    requires x in s
    ensures k < |s| && s[k] == x
  {
    if s[0] == x then 0 else 1 + IndexIn(s[1..], x)
  }

  /** The entries of paths whose names end in ext have relative paths
      ending in ext. */
  lemma {:induction false} EntriesEnd(fs: Snapshot, raw: Path, ps: seq<Path>, ext: string)
    requires forall i :: 0 <= i < |ps| ==> |raw| < |ps[i]| && EndsWith(Name(ps[i]), ext)
    requires '\\' !in ext
    ensures forall i :: 0 <= i < |ps| ==> EndsWith(Entries(fs, raw, ps)[i].path, ext)
  {
    forall i | 0 <= i < |ps| ensures EndsWith(Entries(fs, raw, ps)[i].path, ext) {
      RelativeEnds(raw, ps[i], ext);
    }
  }

  /** The .md ones come after the .mdx ones. */
  lemma {:induction false} MdAfterMdx(a: seq<FileEntry>, b: seq<FileEntry>)
    requires forall i :: 0 <= i < |a| ==> EndsWith(a[i].path, ".mdx")
    requires forall i :: 0 <= i < |b| ==> EndsWith(b[i].path, ".md")
    ensures var files := a + b;
      (forall i :: 0 <= i < |files| ==> EndsWith(files[i].path, ".mdx") || EndsWith(files[i].path, ".md"))
      && (forall i, j :: 0 <= i < j < |files| && EndsWith(files[i].path, ".md") ==> !EndsWith(files[j].path, ".mdx"))
  {
    var files := a + b;
    forall i | 0 <= i < |files|
      ensures i < |a| ==> EndsWith(files[i].path, ".mdx")
      ensures i >= |a| ==> EndsWith(files[i].path, ".md")
    {
      if i >= |a| {
        assert files[i] == b[i - |a|];
      }
    }
    forall i, j | 0 <= i < j < |files| && EndsWith(files[i].path, ".md")
      ensures !EndsWith(files[j].path, ".mdx")
    {
      NotBoth(files[i].path);
      NotBoth(files[j].path);
    }
  }

  /** The .mdx files come first: after a ".md" path there is no ".mdx"
      path, and every path ends in one of the two. */
  lemma {:induction false} IndexOrder(fs: Snapshot, out: Path)
    requires Plain(out)
    ensures var files := IndexOf(fs, out).files;
      (forall i :: 0 <= i < |files| ==> EndsWith(files[i].path, ".mdx") || EndsWith(files[i].path, ".md"))
      && (forall i, j :: 0 <= i < j < |files| && EndsWith(files[i].path, ".md") ==> !EndsWith(files[j].path, ".mdx"))
  {
    var raw := RawDir(out);
    if Exists(fs, raw) {
      var mdx, md := Glob(fs, raw, ".mdx"), Glob(fs, raw, ".md");
      EntriesEnd(fs, raw, mdx, ".mdx");
      EntriesEnd(fs, raw, md, ".md");
      MdAfterMdx(Entries(fs, raw, mdx), Entries(fs, raw, md));
    }
  }

  /** The counts of a list of files: each category once, in order of first
      appearance, with the number of files in it; the counts add up to the
      number of files. */
  lemma {:induction false} CountsOf(files: seq<FileEntry>)
    ensures var order, m := Dedup(Cats(files)), Tally(files);
      NoDuplicates(order)
      && (forall c :: c in m <==> c in order)
      && (forall c :: c in m <==> exists i :: 0 <= i < |files| && files[i].category == c)
      && (forall c :: c in m ==> m[c] == multiset(Cats(files))[c])
      && Total(order, m) == |files|
  {
    var cats := Cats(files);
    TallyCounts(files);
    DedupFromCorrect([], cats);
    TallyTotal(files);
    forall c ensures c in cats <==> exists i :: 0 <= i < |files| && files[i].category == c {
      if c in cats {
        var i :| 0 <= i < |cats| && cats[i] == c;
      }
    }
  }

  /** index["categories"] counts the index's own files. */
  lemma {:induction false} IndexCounts(fs: Snapshot, out: Path)
    requires Plain(out)
    ensures var ix := IndexOf(fs, out);
      NoDuplicates(ix.order)
      && (forall c :: c in ix.categories <==> c in ix.order)
      && (forall c :: c in ix.categories <==> exists i :: 0 <= i < |ix.files| && ix.files[i].category == c)
      && (forall c :: c in ix.categories ==> ix.categories[c] == multiset(Cats(ix.files))[c])
      && Total(ix.order, ix.categories) == |ix.files|
  {
    var ix := IndexOf(fs, out);
    assert ix.order == Dedup(Cats(ix.files)) && ix.categories == Tally(ix.files);
    CountsOf(ix.files);
  }

  /** One file counted: the body of both loops of build_index. */
  method AddFile(files: seq<FileEntry>, order: seq<string>, counts: map<string, nat>, entry: FileEntry)
    returns (files': seq<FileEntry>, order': seq<string>, counts': map<string, nat>)
    requires order == Dedup(Cats(files)) && counts == Tally(files)
    ensures files' == files + [entry]
    ensures order' == Dedup(Cats(files')) && counts' == Tally(files')
  {
    RecordStep(files, entry);
    files', order', counts' := files + [entry], order, counts;
    var category := entry.category;
    if category !in counts' {
      counts' := counts'[category := 0];
      order' := order' + [category];
    }
    counts' := counts'[category := counts'[category] + 1];
  }

  lemma {:induction false} EntriesSnoc(fs: Snapshot, raw: Path, paths: seq<Path>, i: nat)
    requires i < |paths| && forall j :: 0 <= j < |paths| ==> |raw| < |paths[j]|
    ensures Entries(fs, raw, paths[..i + 1]) == Entries(fs, raw, paths[..i]) + [EntryOf(fs, raw, paths[i])]
  {
    MappedSnoc(p requires |raw| <= |p| => EntryOf(fs, raw, p), paths, i);
  }

  /** One loop of build_index: the files of one rglob, counted one by one
      into the index built so far. */
  method CountFiles(fs: Snapshot, raw: Path, paths: seq<Path>,
                    files0: seq<FileEntry>, order0: seq<string>, counts0: map<string, nat>)
    returns (files: seq<FileEntry>, order: seq<string>, counts: map<string, nat>)
    requires forall j :: 0 <= j < |paths| ==> |raw| < |paths[j]|
    requires order0 == Dedup(Cats(files0)) && counts0 == Tally(files0)
    ensures files == files0 + Entries(fs, raw, paths)
    ensures order == Dedup(Cats(files)) && counts == Tally(files)
  {
    files, order, counts := files0, order0, counts0;
    for i := 0 to |paths|
      invariant files == files0 + Entries(fs, raw, paths[..i])
      invariant order == Dedup(Cats(files)) && counts == Tally(files)
    {
      var path := paths[i];
      var rel := RelativeName(raw, path);
      var entry := FileEntry(rel, ExtractTitle(fs, path), CategoryOf(rel));
      EntriesSnoc(fs, raw, paths, i);
      Regroup(files0, Entries(fs, raw, paths[..i]), [entry]);
      files, order, counts := AddFile(files, order, counts, entry);
    }
    assert paths[..|paths|] == paths;
  }

  /** build_index, up to the write of index.json: the .mdx files, then the
      .md files. */
  method BuildIndex(fs: Snapshot, out: Path) returns (index: Index)
    requires Plain(out)
    ensures index == IndexOf(fs, out)
  {
    var raw := RawDir(out);
    if !Exists(fs, raw) {
      return Index("1.0", [], [], map[]);
    }
    var mdx := Glob(fs, raw, ".mdx");
    var files, order, counts := CountFiles(fs, raw, mdx, [], [], map[]);
    var md := Glob(fs, raw, ".md");
    files, order, counts := CountFiles(fs, raw, md, files, order, counts);
    assert [] + Entries(fs, raw, mdx) == Entries(fs, raw, mdx);
    index := Index("1.0", files, order, counts);
  }

  // ---------------------------------------------------------------------
  // copy_directory_recursive: how many files it copies

  /** What iterdir() raises on c, when it raises. */
  function ListError(fs: Snapshot, c: Path): Option<string>
  {
    if !IsDirectory(fs, c) then
      if IsRegular(fs, c) then Some("[Errno 20] Not a directory: '" + PathString(c) + "'")
      else Some("[Errno 2] No such file or directory: '" + PathString(c) + "'")
    else if c !in fs.listing then Some("[Errno 13] Permission denied: '" + PathString(c) + "'")
    else None
  }

  /** copy_directory_recursive(c, ...): the number of files copied, or the
      error of the first directory that cannot be listed. */
  function CopyCount(fs: Snapshot, c: Path): Result<nat>
    decreases Room(fs, c), 2, 0
  {
    match ListError(fs, c)
    case Some(e) => Err(e)
    case None => CopyEntries(fs, c, fs.listing[c])
  }

  /** The entries of c in order; the first error ends the loop. */
  function CopyEntries(fs: Snapshot, c: Path, names: seq<string>): Result<nat>
    decreases Room(fs, c), 1, |names|
  {
    if names == [] then Ok(0)
    else
      match CopyEntries(fs, c, names[..|names| - 1])
      case Err(e) => Err(e)
      case Ok(n) =>
        match CopyEntry(fs, c, names[|names| - 1])
        case Err(e) => Err(e)
        case Ok(k) => Ok(n + k)
  }

  /** A directory is copied recursively, a regular .mdx/.md file counts
      one, anything else is skipped. */
  function CopyEntry(fs: Snapshot, c: Path, name: string): Result<nat>
    decreases Room(fs, c), 0, 0
  {
    if IsDirectory(fs, c + [name]) then
      ChildDepth(fs, c, name);
      CopyCount(fs, c + [name])
    else if IsDocEntry(fs, c, name) then Ok(1)
    else Ok(0)
  }

  /** A copy that succeeds copies exactly the files the walk of the tree
      finds. */
  lemma {:induction false} CopyCountScan(fs: Snapshot, c: Path)
    requires CopyCount(fs, c).Ok?
    ensures CopyCount(fs, c).value == |Scan(fs, c)|
    decreases Room(fs, c), 2, 0
  {
    CopyEntriesScan(fs, c, fs.listing[c]);
  }

  lemma {:induction false} CopyEntriesScan(fs: Snapshot, c: Path, names: seq<string>)
    requires CopyEntries(fs, c, names).Ok?
    ensures CopyEntries(fs, c, names).value == |ScanEntries(fs, c, names)|
    decreases Room(fs, c), 1, |names|
  {
    if names != [] {
      CopyEntriesScan(fs, c, names[..|names| - 1]);
      CopyEntryScan(fs, c, names[|names| - 1]);
    }
  }

  lemma {:induction false} CopyEntryScan(fs: Snapshot, c: Path, name: string)
    requires CopyEntry(fs, c, name).Ok?
    ensures CopyEntry(fs, c, name).value == |Entry(fs, c, name)|
    decreases Room(fs, c), 0, 0
  {
    if IsDirectory(fs, c + [name]) {
      ChildDepth(fs, c, name);
      CopyCountScan(fs, c + [name]);
    }
  }

  /** In a snapshot whose listings name each entry once, agree with its
      entries and can all be read, copy_directory_recursive returns the
      number of .mdx/.md files in the whole tree below c. */
  lemma {:induction false} CopyCountExact(fs: Snapshot, c: Path)
    requires IsDirectory(fs, c) && c in fs.listing && Listable(fs, c)
    requires ListsChildren(fs, c) && DistinctListings(fs)
    ensures CopyCount(fs, c) == Ok(|DocFiles(fs, c)|)
  {
    CopyCountOk(fs, c);
    CopyCountScan(fs, c);
    ScanExact(fs, c);
  }

  /** The copy of a directory whose whole tree can be listed succeeds. */
  lemma {:induction false} CopyCountOk(fs: Snapshot, c: Path)
    requires IsDirectory(fs, c) && c in fs.listing && Listable(fs, c)
    ensures CopyCount(fs, c).Ok?
    decreases Room(fs, c), 2, 0
  {
    CopyEntriesOk(fs, c, fs.listing[c]);
  }

  lemma {:induction false} CopyEntriesOk(fs: Snapshot, c: Path, names: seq<string>)
    requires IsDirectory(fs, c) && Listable(fs, c)
    ensures CopyEntries(fs, c, names).Ok?
    decreases Room(fs, c), 1, |names|
  {
    if names != [] {
      CopyEntriesOk(fs, c, names[..|names| - 1]);
      var n := names[|names| - 1];
      if IsDirectory(fs, c + [n]) {
        ChildDepth(fs, c, n);
        assert (c + [n])[..|c|] == c;
        assert Listable(fs, c + [n]) by {
          forall d | d in fs.dirs && |c + [n]| <= |d| && d[..|c + [n]|] == c + [n]
            ensures d in fs.listing
          {
            assert d[..|c|] == d[..|c| + 1][..|c|];
          }
        }
        CopyCountOk(fs, c + [n]);
      }
    }
  }

  /** A copy whose root cannot be listed fails with iterdir()'s error. */
  lemma {:induction false} CopyCountUnlisted(fs: Snapshot, c: Path)
    requires ListError(fs, c).Some?
    ensures CopyCount(fs, c) == Err(ListError(fs, c).value)
  {
  }

  /** copy_directory_recursive, without the writes: the count it returns. */
  method CopyDirectoryRecursive(fs: Snapshot, src: Path) returns (r: Result<nat>)
    ensures r == CopyCount(fs, src)
    decreases Room(fs, src), 1
  {
    var err := ListError(fs, src);
    if err.Some? {
      return Err(err.value);
    }
    var names := fs.listing[src];
    var count := 0;
    for i := 0 to |names|
      invariant CopyEntries(fs, src, names[..i]) == Ok(count)
    {
      var one := CopyOne(fs, src, names[i]);
      CopyUnfold(fs, src, names, i);
      if one.Err? {
        CopyStops(fs, src, names, i + 1);
        return Err(one.msg);
      }
      count := count + one.value;
    }
    assert names[..|names|] == names;
    return Ok(count);
  }

  /** One pass of the loop over a directory's entries. */
  method CopyOne(fs: Snapshot, c: Path, name: string) returns (r: Result<nat>)
    ensures r == CopyEntry(fs, c, name)
    decreases Room(fs, c), 0
  {
    if IsDirectory(fs, c + [name]) {
      ChildDepth(fs, c, name);
      r := CopyDirectoryRecursive(fs, c + [name]);
    } else if IsDocEntry(fs, c, name) {
      r := Ok(1);
    } else {
      r := Ok(0);
    }
  }

  /** Entry i extends the loop's outcome over the entries before it. */
  lemma {:induction false} CopyUnfold(fs: Snapshot, c: Path, names: seq<string>, i: nat)
    requires i < |names|
    ensures CopyEntries(fs, c, names[..i + 1]) ==
      match CopyEntries(fs, c, names[..i])
      case Err(e) => Err(e)
      case Ok(n) =>
        match CopyEntry(fs, c, names[i])
        case Err(e) => Err(e)
        case Ok(k) => Ok(n + k)
  {
    assert names[..i + 1][..i] == names[..i];
  }

  /** Once the loop over the entries fails, the whole loop fails the same
      way. */
  lemma {:induction false} CopyStops(fs: Snapshot, c: Path, names: seq<string>, i: nat)
    requires 0 < i <= |names| && CopyEntries(fs, c, names[..i]).Err?
    ensures CopyEntries(fs, c, names) == CopyEntries(fs, c, names[..i])
    decreases |names| - i
  {
    if i < |names| {
      assert names[..i + 1][..i] == names[..i];
      CopyStops(fs, c, names, i + 1);
    } else {
      assert names[..i] == names;
    }
  }
}
