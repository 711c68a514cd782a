/** normalize_keywords, extract_keywords_from_path and
    calculate_relevance_score (utils/search.py). The source collects
    keywords in a set and returns list(set); here the distinct keywords come
    in the order they are first met. */
module Keywords {
  import opened Text
  import opened Sorting

  // ---------------------------------------------------------------------
  // normalize_keywords

  /** The parts one raw keyword contributes: each str.split() piece,
      lower-cased and stripped, when it is not empty. */
  function Kept(parts: seq<string>): seq<string>
  {
    if parts == [] then []
    else
      var p := Strip(Lower(parts[0]));
      (if p != "" then [p] else []) + Kept(parts[1..])
  }

  /** Every part, in order. */
  function Pieces(keywords: seq<string>): seq<string>
  {
    if keywords == [] then [] else Kept(SplitWs(keywords[0])) + Pieces(keywords[1..])
  }

  /** What normalize_keywords returns. */
  function Normalized(keywords: seq<string>): seq<string>
  {
    Dedup(Pieces(keywords))
  }

  lemma {:induction false} DedupFromCons(seen: seq<string>, x: string, rest: seq<string>)
    ensures DedupFrom(seen, [x] + rest) ==
      if x in seen then DedupFrom(seen, rest) else DedupFrom(seen + [x], rest)
  {
    assert ([x] + rest)[1..] == rest;
  }

  lemma {:induction false} KeptStep(parts: seq<string>, j: int, tail: seq<string>)
    requires 0 <= j < |parts|
    ensures var p := Strip(Lower(parts[j]));
      Kept(parts[j..]) + tail == (if p != "" then [p] else []) + (Kept(parts[j + 1..]) + tail)
  {
    assert parts[j..][1..] == parts[j + 1..];
  }

  lemma {:induction false} PiecesStep(keywords: seq<string>, i: int)
    requires 0 <= i < |keywords|
    ensures Pieces(keywords[i..]) == Kept(SplitWs(keywords[i])) + Pieces(keywords[i + 1..])
  {
    assert keywords[i..][1..] == keywords[i + 1..];
  }

  /** normalize_keywords: for every keyword, for every piece of it. */
  method NormalizeKeywords(keywords: seq<string>) returns (r: seq<string>)
    ensures r == Normalized(keywords)
  {
    var out: seq<string> := [];
    for i := 0 to |keywords|
      invariant DedupFrom(out, Pieces(keywords[i..])) == Normalized(keywords)
    {
      PiecesStep(keywords, i);
      var parts := SplitWs(keywords[i]);
      assert parts[0..] == parts;
      for j := 0 to |parts|
        invariant DedupFrom(out, Kept(parts[j..]) + Pieces(keywords[i + 1..])) == Normalized(keywords)
      {
        var part := Strip(Lower(parts[j]));
        KeptStep(parts, j, Pieces(keywords[i + 1..]));
        if part != "" {
          DedupFromCons(out, part, Kept(parts[j + 1..]) + Pieces(keywords[i + 1..]));
          if part !in out {
            out := out + [part];
          }
        } else {
          assert [] + (Kept(parts[j + 1..]) + Pieces(keywords[i + 1..])) == Kept(parts[j + 1..]) + Pieces(keywords[i + 1..]);
        }
      }
      assert parts[|parts|..] == [] && [] + Pieces(keywords[i + 1..]) == Pieces(keywords[i + 1..]);
    }
    r := out;
  }

  /** A word without whitespace, lower-cased, is still such a word. */
  lemma {:induction false} LowerWord(w: string)
    requires w != [] && NoSpace(w)
    ensures Lower(w) != [] && NoSpace(Lower(w)) && Strip(Lower(w)) == Lower(w)
  {
    var l := Lower(w);
    forall k | 0 <= k < |l| ensures !IsSpace(l[k]) {
      assert l[k] == LowerChar(w[k]);
    }
    StripCharsKeeps(l, Whitespace);
  }

  /** The parts of str.split() pieces are exactly the lower-cased pieces. */
  lemma {:induction false} KeptWords(parts: seq<string>)
    requires forall k :: 0 <= k < |parts| ==> parts[k] != [] && NoSpace(parts[k])
    ensures forall x :: x in Kept(parts) <==> exists k :: 0 <= k < |parts| && x == Lower(parts[k])
    ensures forall k :: 0 <= k < |Kept(parts)| ==> Kept(parts)[k] != [] && NoSpace(Kept(parts)[k])
  {
    forall x ensures x in Kept(parts) <==> exists k :: 0 <= k < |parts| && x == Lower(parts[k]) {
      if x in Kept(parts) {
        KeptFrom(parts, x);
      }
      if exists k :: 0 <= k < |parts| && x == Lower(parts[k]) {
        var k :| 0 <= k < |parts| && x == Lower(parts[k]);
        KeptHas(parts, k);
      }
    }
    KeptShape(parts);
  }

  /** Each lower-cased word is kept. */
  lemma {:induction false} KeptHas(parts: seq<string>, k: int)
    requires forall k :: 0 <= k < |parts| ==> parts[k] != [] && NoSpace(parts[k])
    requires 0 <= k < |parts|
    ensures Lower(parts[k]) in Kept(parts)
  {
    LowerWord(parts[0]);
    if k > 0 {
      assert parts[1..][k - 1] == parts[k];
      KeptHas(parts[1..], k - 1);
    }
  }

  /** Each kept part is a lower-cased word. */
  lemma {:induction false} KeptFrom(parts: seq<string>, x: string)
    requires forall k :: 0 <= k < |parts| ==> parts[k] != [] && NoSpace(parts[k])
    requires x in Kept(parts)
    ensures exists k :: 0 <= k < |parts| && x == Lower(parts[k])
  {
    LowerWord(parts[0]);
    var rest := parts[1..];
    assert Kept(parts) == [Lower(parts[0])] + Kept(rest);
    if x != Lower(parts[0]) {
      assert x in Kept(rest);
      assert forall k :: 0 <= k < |rest| ==> rest[k] == parts[k + 1];
      KeptFrom(rest, x);
      var k :| 0 <= k < |rest| && x == Lower(rest[k]);
      assert x == Lower(parts[k + 1]);
    }
  }

  /** The kept parts are words. */
  lemma {:induction false} KeptShape(parts: seq<string>)
    requires forall k :: 0 <= k < |parts| ==> parts[k] != [] && NoSpace(parts[k])
    ensures forall k :: 0 <= k < |Kept(parts)| ==> Kept(parts)[k] != [] && NoSpace(Kept(parts)[k])
  {
    if parts != [] {
      LowerWord(parts[0]);
      KeptShape(parts[1..]);
    }
  }

  /** x is a lower-cased whitespace-separated piece of the keyword. */
  predicate PieceOf(x: string, keyword: string)
  {
    exists j :: 0 <= j < |SplitWs(keyword)| && x == Lower(SplitWs(keyword)[j])
  }

  lemma {:induction false} KeptPieces(keyword: string)
    ensures forall x :: x in Kept(SplitWs(keyword)) <==> PieceOf(x, keyword)
    ensures forall k :: 0 <= k < |Kept(SplitWs(keyword))| ==>
      Kept(SplitWs(keyword))[k] != [] && NoSpace(Kept(SplitWs(keyword))[k])
  {
    SplitWsParts(keyword);
    KeptWords(SplitWs(keyword));
  }

  /** The pieces of a list of keywords: every lower-cased piece of every
      keyword, and nothing else. */
  lemma {:induction false} PiecesMembers(keywords: seq<string>)
    ensures forall x :: x in Pieces(keywords) <==> exists i :: 0 <= i < |keywords| && PieceOf(x, keywords[i])
  {
    forall x ensures x in Pieces(keywords) <==> exists i :: 0 <= i < |keywords| && PieceOf(x, keywords[i]) {
      if x in Pieces(keywords) {
        PiecesFrom(keywords, x);
      }
      if exists i :: 0 <= i < |keywords| && PieceOf(x, keywords[i]) {
        var i :| 0 <= i < |keywords| && PieceOf(x, keywords[i]);
        PiecesHas(keywords, i, x);
      }
    }
  }

  /** A piece of any keyword is among the pieces. */
  lemma {:induction false} PiecesHas(keywords: seq<string>, i: int, x: string)
    requires 0 <= i < |keywords| && PieceOf(x, keywords[i])
    ensures x in Pieces(keywords)
  {
    if i == 0 {
      KeptPieces(keywords[0]);
    } else {
      assert keywords[1..][i - 1] == keywords[i];
      PiecesHas(keywords[1..], i - 1, x);
    }
  }

  /** Each of the pieces is a piece of some keyword. */
  lemma {:induction false} PiecesFrom(keywords: seq<string>, x: string)
    requires x in Pieces(keywords)
    ensures exists i :: 0 <= i < |keywords| && PieceOf(x, keywords[i])
  {
    KeptPieces(keywords[0]);
    if !PieceOf(x, keywords[0]) {
      PiecesFrom(keywords[1..], x);
      var i :| 0 <= i < |keywords[1..]| && PieceOf(x, keywords[1..][i]);
      assert keywords[i + 1] == keywords[1..][i];
    }
  }

  /** Every piece is a non-empty word without whitespace. */
  lemma {:induction false} PiecesWords(keywords: seq<string>)
    ensures forall k :: 0 <= k < |Pieces(keywords)| ==> Pieces(keywords)[k] != [] && NoSpace(Pieces(keywords)[k])
  {
    if keywords != [] {
      var kept := Kept(SplitWs(keywords[0]));
      var rest := Pieces(keywords[1..]);
      KeptPieces(keywords[0]);
      PiecesWords(keywords[1..]);
      forall k | 0 <= k < |kept + rest| ensures (kept + rest)[k] != [] && NoSpace((kept + rest)[k]) {
        if k >= |kept| {
          assert (kept + rest)[k] == rest[k - |kept|];
        }
      }
    }
  }

  /** normalize_keywords gives distinct, non-empty, lower-case,
      whitespace-free keywords: exactly the lower-cased pieces of the
      input. */
  lemma {:induction false} NormalizedCorrect(keywords: seq<string>)
    ensures NoDuplicates(Normalized(keywords))
    ensures forall k :: 0 <= k < |Normalized(keywords)| ==>
      Normalized(keywords)[k] != [] && NoSpace(Normalized(keywords)[k]) && IsLowercase(Normalized(keywords)[k])
    ensures forall x :: x in Normalized(keywords) <==> exists i :: 0 <= i < |keywords| && PieceOf(x, keywords[i])
  {
    var p := Pieces(keywords);
    DedupFromCorrect([], p);
    PiecesMembers(keywords);
    PiecesWords(keywords);
    var r := Normalized(keywords);
    forall k | 0 <= k < |r| ensures r[k] != [] && NoSpace(r[k]) && IsLowercase(r[k]) {
      assert r[k] in p;
      var m :| 0 <= m < |p| && p[m] == r[k];
      var i :| 0 <= i < |keywords| && PieceOf(r[k], keywords[i]);
      var j :| 0 <= j < |SplitWs(keywords[i])| && r[k] == Lower(SplitWs(keywords[i])[j]);
      LowerIsLowercase(SplitWs(keywords[i])[j]);
    }
  }

  // ---------------------------------------------------------------------
  // extract_keywords_from_path

  /** path.split("/")[-1] */
  function LastSegment(path: string): string
  {
    var parts := Split(path, '/');
    parts[|parts| - 1]
  }

  /** re.sub(r"\.(mdx|md)$", "", name): `$` also matches just before a
      final newline. */
  function DropDocSuffix(name: string): string
  {
    if EndsWith(name, ".mdx") then name[..|name| - 4]
    else if EndsWith(name, ".md") then name[..|name| - 3]
    else if EndsWith(name, ".mdx\n") then name[..|name| - 5] + "\n"
    else if EndsWith(name, ".md\n") then name[..|name| - 4] + "\n"
    else name
  }

  /** re.split(r"[-_]|(?=[A-Z])", s), with cur the part begun so far: "-"
      and "_" end a part and are dropped, an upper-case letter starts a new
      one. */
  function SplitParts(s: string, cur: string): (r: seq<string>)
    ensures |r| >= 1
    decreases |s|
  {
    if s == [] then [cur]
    else if s[0] == '-' || s[0] == '_' then [cur] + SplitParts(s[1..], "")
    else if IsUpper(s[0]) then [cur] + SplitParts(s[1..], [s[0]])
    else SplitParts(s[1..], cur + [s[0]])
  }

  /** The boundaries re.split(r"[-_]|(?=[A-Z])", s) splits at, in order:
      a "-" or "_" that is dropped, or "" before an upper-case letter. */
  function Seps(s: string): seq<string>
  {
    if s == [] then []
    else (if s[0] == '-' || s[0] == '_' then [[s[0]]] else if IsUpper(s[0]) then [""] else []) + Seps(s[1..])
  }

  /** The parts put back together, each boundary between two of them. */
  function Rejoin(parts: seq<string>, seps: seq<string>): string
    requires |parts| == |seps| + 1
  {
    if seps == [] then parts[0] else parts[0] + seps[0] + Rejoin(parts[1..], seps[1..])
  }

  /** A part holds no "-" or "_", and no upper-case letter after its first
      character. */
  predicate PartShape(p: string)
  {
    forall k :: 0 <= k < |p| ==> p[k] != '-' && p[k] != '_' && (k > 0 ==> !IsUpper(p[k]))
  }

  /** What re.split(r"[-_]|(?=[A-Z])", s) yields, from the part cur begun so
      far: one part more than there are boundaries; putting the boundaries
      back gives the text; no part holds a separator or an upper-case letter
      past its start; and a part after the first begins with an upper-case
      letter exactly when the boundary before it is the empty one. */
  lemma {:induction false} SplitPartsShape(s: string, cur: string)
    requires PartShape(cur)
    ensures var r, seps := SplitParts(s, cur), Seps(s);
      |r| == |seps| + 1
      && Rejoin(r, seps) == cur + s
      && |cur| <= |r[0]| && r[0][..|cur|] == cur
      && (r[0] != [] && IsUpper(r[0][0]) ==> cur != [] && IsUpper(cur[0]))
      && (forall i :: 0 <= i < |r| ==> PartShape(r[i]))
      && (forall i :: 0 < i < |r| ==> (seps[i - 1] == "" <==> r[i] != [] && IsUpper(r[i][0])))
  {
    SplitRejoin(s, cur);
    SplitHead(s, cur);
    SplitPartsOk(s, cur);
    SplitStarts(s, cur);
  }

  lemma {:induction false} SplitRejoin(s: string, cur: string)
    ensures RejoinsTo(s, cur)
    decreases |s|
  {
    if s != [] {
      var c := s[0];
      if c == '-' || c == '_' {
        SplitRejoin(s[1..], "");
        RejoinSeparator(s, cur);
      } else if IsUpper(c) {
        SplitRejoin(s[1..], [c]);
        RejoinUpper(s, cur);
      } else {
        SplitRejoin(s[1..], cur + [c]);
        RejoinInside(s, cur);
      }
    }
  }

  /** The parts of s from cur, rejoined with their boundaries, give cur + s. */
  predicate RejoinsTo(s: string, cur: string)
  {
    |SplitParts(s, cur)| == |Seps(s)| + 1 && Rejoin(SplitParts(s, cur), Seps(s)) == cur + s
  }

  lemma {:induction false} RejoinSeparator(s: string, cur: string)
    requires s != [] && (s[0] == '-' || s[0] == '_') && RejoinsTo(s[1..], "")
    ensures RejoinsTo(s, cur)
  {
    var R, S := SplitParts(s[1..], ""), Seps(s[1..]);
    assert SplitParts(s, cur) == [cur] + R;
    assert Seps(s) == [[s[0]]] + S;
    assert "" + s[1..] == s[1..] && [s[0]] + s[1..] == s;
    RejoinCons(cur, [s[0]], R, S, s[1..]);
  }

  lemma {:induction false} RejoinUpper(s: string, cur: string)
    requires s != [] && s[0] != '-' && s[0] != '_' && IsUpper(s[0]) && RejoinsTo(s[1..], [s[0]])
    ensures RejoinsTo(s, cur)
  {
    var R, S := SplitParts(s[1..], [s[0]]), Seps(s[1..]);
    assert SplitParts(s, cur) == [cur] + R;
    assert Seps(s) == [""] + S;
    assert [s[0]] + s[1..] == s && "" + s == s;
    RejoinCons(cur, "", R, S, s);
  }

  lemma {:induction false} RejoinInside(s: string, cur: string)
    requires s != [] && s[0] != '-' && s[0] != '_' && !IsUpper(s[0]) && RejoinsTo(s[1..], cur + [s[0]])
    ensures RejoinsTo(s, cur)
  {
    assert SplitParts(s, cur) == SplitParts(s[1..], cur + [s[0]]);
    assert Seps(s) == Seps(s[1..]);
    assert cur + [s[0]] + s[1..] == cur + s;
  }

  /** One more part in front, after a boundary sep: when the rest rejoins
      to t, the whole rejoins to part + sep + t. */
  lemma {:induction false} RejoinCons(part: string, sep: string, R: seq<string>, S: seq<string>, t: string)
    requires |R| == |S| + 1
    requires sep + Rejoin(R, S) == sep + t
    ensures |[part] + R| == |[sep] + S| + 1
    ensures Rejoin([part] + R, [sep] + S) == part + (sep + t)
  {
    assert ([part] + R)[1..] == R && ([sep] + S)[1..] == S;
    assert part + sep + Rejoin(R, S) == part + (sep + Rejoin(R, S));
  }

  /** The first part extends the part begun so far, and starts with an
      upper-case letter only when that one does. */
  lemma {:induction false} SplitHead(s: string, cur: string)
    ensures var r := SplitParts(s, cur);
      |cur| <= |r[0]| && r[0][..|cur|] == cur
      && (r[0] != [] && IsUpper(r[0][0]) ==> cur != [] && IsUpper(cur[0]))
    decreases |s|
  {
    if s != [] && s[0] != '-' && s[0] != '_' && !IsUpper(s[0]) {
      var next := cur + [s[0]];
      SplitHead(s[1..], next);
      var r := SplitParts(s, cur);
      assert r[0][..|next|] == next;
      assert r[0][..|cur|] == next[..|cur|] == cur;
      if cur == [] {
        assert r[0][0] == next[0] == s[0];
      } else {
        assert r[0][0] == cur[0];
      }
    }
  }

  lemma {:induction false} SplitPartsOk(s: string, cur: string)
    requires PartShape(cur)
    ensures forall i :: 0 <= i < |SplitParts(s, cur)| ==> PartShape(SplitParts(s, cur)[i])
    decreases |s|
  {
    if s != [] {
      if s[0] == '-' || s[0] == '_' {
        SplitPartsOk(s[1..], "");
        PartsCons(cur, SplitParts(s[1..], ""));
      } else if IsUpper(s[0]) {
        SplitPartsOk(s[1..], [s[0]]);
        PartsCons(cur, SplitParts(s[1..], [s[0]]));
      } else {
        assert PartShape(cur + [s[0]]);
        SplitPartsOk(s[1..], cur + [s[0]]);
      }
    }
  }

  lemma {:induction false} PartsCons(cur: string, R: seq<string>)
    requires PartShape(cur) && forall i :: 0 <= i < |R| ==> PartShape(R[i])
    ensures forall i :: 0 <= i < |[cur] + R| ==> PartShape(([cur] + R)[i])
  {
    forall i | 0 <= i < |[cur] + R| ensures PartShape(([cur] + R)[i]) {
      if i > 0 {
        assert ([cur] + R)[i] == R[i - 1];
      }
    }
  }

  lemma {:induction false} SplitStarts(s: string, cur: string)
    ensures var r, seps := SplitParts(s, cur), Seps(s);
      |r| == |seps| + 1
      && forall i :: 0 < i < |r| ==> (seps[i - 1] == "" <==> r[i] != [] && IsUpper(r[i][0]))
    decreases |s|
  {
    SplitRejoin(s, cur);
    if s != [] {
      var c := s[0];
      var S := Seps(s[1..]);
      if c == '-' || c == '_' {
        SplitStarts(s[1..], "");
        SplitHead(s[1..], "");
        assert Seps(s) == [[c]] + S;
      } else if IsUpper(c) {
        var R := SplitParts(s[1..], [c]);
        SplitStarts(s[1..], [c]);
        SplitHead(s[1..], [c]);
        assert Seps(s) == [""] + S;
        assert R[0][..1] == [c];
      } else {
        SplitStarts(s[1..], cur + [c]);
        assert Seps(s) == S;
      }
    }
  }

  /** Text without separators or upper-case letters joins the current
      part. */
  lemma {:induction false} SplitPlain(a: string, s: string, cur: string)
    requires forall k :: 0 <= k < |a| ==> a[k] != '-' && a[k] != '_' && !IsUpper(a[k])
    ensures SplitParts(a + s, cur) == SplitParts(s, cur + a)
    decreases |a|
  {
    if a != [] {
      assert (a + s)[0] == a[0] && (a + s)[1..] == a[1..] + s;
      SplitPlain(a[1..], s, cur + [a[0]]);
      assert cur + [a[0]] + a[1..] == cur + a;
    } else {
      assert a + s == s && cur + a == cur;
    }
  }

  /** The parts, lower-cased and stripped, that are longer than two
      characters. */
  function LongParts(parts: seq<string>): (r: seq<string>)
    ensures forall k :: 0 <= k < |r| ==> |r[k]| > 2
  {
    if parts == [] then []
    else
      var p := Strip(Lower(parts[0]));
      (if |p| > 2 then [p] else []) + LongParts(parts[1..])
  }

  /** The parts extract_keywords_from_path takes from a path's name. */
  function NameParts(path: string): seq<string>
  {
    SplitParts(DropDocSuffix(LastSegment(path)), "")
  }

  /** What extract_keywords_from_path returns. */
  function Extracted(path: string): seq<string>
  {
    Dedup(LongParts(NameParts(path)))
  }

  lemma {:induction false} LongPartsStep(parts: seq<string>, i: int)
    requires 0 <= i < |parts|
    ensures var p := Strip(Lower(parts[i]));
      LongParts(parts[i..]) == (if |p| > 2 then [p] else []) + LongParts(parts[i + 1..])
  {
    assert parts[i..][1..] == parts[i + 1..];
  }

  method ExtractKeywordsFromPath(path: string) returns (r: seq<string>)
    ensures r == Extracted(path)
  {
    var parts := NameParts(path);
    var out: seq<string> := [];
    assert parts[0..] == parts;
    for i := 0 to |parts|
      invariant DedupFrom(out, LongParts(parts[i..])) == Extracted(path)
    {
      var part := Strip(Lower(parts[i]));
      LongPartsStep(parts, i);
      if |part| > 2 {
        DedupFromCons(out, part, LongParts(parts[i + 1..]));
        if part !in out {
          out := out + [part];
        }
      } else {
        assert [] + LongParts(parts[i + 1..]) == LongParts(parts[i + 1..]);
      }
    }
    assert parts[|parts|..] == [];
    r := out;
  }

  /** x is what a part becomes when it is kept. */
  predicate LongPartOf(x: string, part: string)
  {
    x == Strip(Lower(part)) && |x| > 2
  }

  lemma {:induction false} LongPartsMembers(parts: seq<string>)
    ensures forall x :: x in LongParts(parts) <==>
      exists k :: 0 <= k < |parts| && LongPartOf(x, parts[k])
  {
    if parts != [] {
      LongPartsMembers(parts[1..]);
      forall x ensures x in LongParts(parts) <==>
        exists k :: 0 <= k < |parts| && LongPartOf(x, parts[k])
      {
        LongPartStep(parts, x);
      }
    }
  }

  /** One step of LongPartsMembers: a word is kept from parts exactly when
      it is kept from the first part or from the rest. */
  lemma {:induction false} LongPartStep(parts: seq<string>, x: string)
    requires parts != []
    requires x in LongParts(parts[1..]) <==> exists k :: 0 <= k < |parts[1..]| && LongPartOf(x, parts[1..][k])
    ensures x in LongParts(parts) <==> exists k :: 0 <= k < |parts| && LongPartOf(x, parts[k])
  {
    var p := Strip(Lower(parts[0]));
    assert x in LongParts(parts) <==> (|p| > 2 && x == p) || x in LongParts(parts[1..]);
    if x in LongParts(parts[1..]) {
      var k :| 0 <= k < |parts[1..]| && LongPartOf(x, parts[1..][k]);
      assert parts[k + 1] == parts[1..][k];
    }
    if exists k :: 0 <= k < |parts| && LongPartOf(x, parts[k]) {
      var k :| 0 <= k < |parts| && LongPartOf(x, parts[k]);
      if k > 0 {
        assert parts[k] == parts[1..][k - 1];
      }
    }
  }

  /** extract_keywords_from_path keeps the distinct parts of the name,
      lower-cased, longer than two characters. */
  lemma {:induction false} ExtractedCorrect(path: string)
    ensures NoDuplicates(Extracted(path))
    ensures forall k :: 0 <= k < |Extracted(path)| ==> |Extracted(path)[k]| > 2
    ensures forall x :: x in Extracted(path) <==>
      exists k :: 0 <= k < |NameParts(path)| && LongPartOf(x, NameParts(path)[k])
  {
    var parts := NameParts(path);
    var long := LongParts(parts);
    var r := Extracted(path);
    assert r == DedupFrom([], long);
    DedupFromCorrect([], long);
    LongPartsMembers(parts);
    forall k | 0 <= k < |r| ensures |r[k]| > 2 {
      assert r[k] in long;
    }
  }

  /** The final segment after a "/". */
  lemma {:induction false} SplitLast(d: string, f: string)
    requires '/' !in f
    ensures LastSegment(d + "/" + f) == f
    decreases |d|
  {
    var s := d + "/" + f;
    var i := FindChar(s, '/', 0);
    assert s[|d|] == '/';
    assert i <= |d|;
    if i == |d| {
      assert s[i + 1..] == f;
      assert s[..i] == d;
      assert FindChar(f, '/', 0) == |f|;
      assert Split(f, '/') == [f];
      assert Split(s, '/') == [d] + [f];
    } else {
      assert s[i + 1..] == d[i + 1..] + "/" + f;
      SplitLast(d[i + 1..], f);
    }
  }

  /** Only the last segment of the path matters. */
  lemma {:induction false} ExtractedFromName(d: string, f: string)
    requires '/' !in f
    ensures Extracted(d + "/" + f) == Extracted(f)
  {
    SplitLast(d, f);
    assert FindChar(f, '/', 0) == |f|;
  }

  /** A name part of lower-case letters that extraction keeps. */
  predicate LetterWord(w: string)
  {
    |w| > 2 && forall k :: 0 <= k < |w| ==> IsLowerChar(w[k])
  }

  /** A page named after two distinct lower-case words joined by "-" gives
      those two words as its keywords, in order. */
  lemma {:induction false} HyphenatedName(d: string, a: string, b: string)
    requires LetterWord(a) && LetterWord(b) && a != b
    ensures Extracted(d + "/" + a + "-" + b + ".mdx") == [a, b]
  {
    var f := a + "-" + b + ".mdx";
    assert d + "/" + a + "-" + b + ".mdx" == d + "/" + f;
    HyphenatedNoSlash(a, b);
    ExtractedFromName(d, f);
    HyphenatedParts(a, b);
    TwoWordsKept(a, b);
    assert Extracted(f) == Dedup(LongParts(NameParts(f)));
  }

  lemma {:induction false} TwoWordsKept(a: string, b: string)
    requires LetterWord(a) && LetterWord(b) && a != b
    ensures Dedup(LongParts([a, b])) == [a, b]
  {
    TwoLong(a, b);
    DedupTwo(a, b);
  }

  lemma {:induction false} TwoLong(a: string, b: string)
    requires LetterWord(a) && LetterWord(b)
    ensures LongParts([a, b]) == [a, b]
  {
    var ps := [a, b];
    assert forall k :: 0 <= k < |ps| ==> LetterWord(ps[k]);
    WordsKept(ps);
  }

  /** Parts that are all lower-case words longer than two letters are all
      kept, unchanged. */
  lemma {:induction false} WordsKept(ps: seq<string>)
    requires forall k :: 0 <= k < |ps| ==> LetterWord(ps[k])
    ensures LongParts(ps) == ps
  {
    if ps != [] {
      var x, rest := ps[0], ps[1..];
      assert ps == [x] + rest;
      assert forall k :: 0 <= k < |rest| ==> LetterWord(rest[k]) by {
        forall k | 0 <= k < |rest| ensures LetterWord(rest[k]) {
          assert rest[k] == ps[k + 1];
        }
      }
      WordsKept(rest);
      WordKeptCons(x, rest);
    }
  }

  lemma {:induction false} WordKeptCons(x: string, rest: seq<string>)
    requires LetterWord(x) && LongParts(rest) == rest
    ensures LongParts([x] + rest) == [x] + rest
  {
    LetterWordKept(x);
    LongPartsCons(x, rest);
  }

  lemma {:induction false} DedupTwo(a: string, b: string)
    requires a != b
    ensures Dedup([a, b]) == [a, b]
  {
    assert [a, b][1..] == [b];
    assert [] + [a] == [a];
    assert DedupFrom([], [a, b]) == DedupFrom([a], [b]);
    assert [b][1..] == [];
    assert DedupFrom([a], [b]) == DedupFrom([a, b], []);
  }

  lemma {:induction false} HyphenatedNoSlash(a: string, b: string)
    requires LetterWord(a) && LetterWord(b)
    ensures '/' !in a + "-" + b + ".mdx"
  {
    var f := a + "-" + b + ".mdx";
    forall k | 0 <= k < |f| ensures f[k] != '/' {
      if k < |a| { assert f[k] == a[k]; }
      else if |a| < k < |a| + 1 + |b| { assert f[k] == b[k - |a| - 1]; }
    }
  }

  lemma {:induction false} HyphenatedParts(a: string, b: string)
    requires LetterWord(a) && LetterWord(b)
    ensures NameParts(a + "-" + b + ".mdx") == [a, b]
  {
    var f := a + "-" + b + ".mdx";
    HyphenatedNoSlash(a, b);
    SplitNoSep(f, '/');
    assert LastSegment(f) == f;
    assert EndsWith(f, ".mdx") && f[..|f| - 4] == a + ("-" + b);
    assert DropDocSuffix(f) == a + ("-" + b);
    SplitPlain(a, "-" + b, "");
    assert "" + a == a;
    assert ("-" + b)[0] == '-' && ("-" + b)[1..] == b;
    assert SplitParts("-" + b, a) == [a] + SplitParts(b, "");
    SplitPlain(b, "", "");
    assert b + "" == b && "" + b == b;
  }

  /** The page basics/building-agents.mdx gives the keywords "building"
      and "agents". */
  lemma {:induction false} BuildingAgents()
    ensures Extracted("basics/building-agents.mdx") == ["building", "agents"]
  {
    assert "basics/building-agents.mdx" == "basics" + "/" + "building" + "-" + "agents" + ".mdx";
    HyphenatedName("basics", "building", "agents");
  }

  lemma {:induction false} LetterWordKept(w: string)
    requires LetterWord(w)
    ensures Strip(Lower(w)) == w
  {
    KeptWord(w);
  }

  lemma {:induction false} LongPartsCons(x: string, rest: seq<string>)
    requires Strip(Lower(x)) == x && |x| > 2
    ensures LongParts([x] + rest) == [x] + LongParts(rest)
  {
    assert ([x] + rest)[0] == x && ([x] + rest)[1..] == rest;
  }

  /** A lower-case word without surrounding whitespace is kept as it is. */
  lemma {:induction false} KeptWord(w: string)
    requires w != [] && IsLowercase(w) && !IsSpace(w[0]) && !IsSpace(w[|w| - 1])
    ensures Strip(Lower(w)) == w
  {
    LowerIdempotent(w);
    StripCharsKeeps(w, Whitespace);
  }

  // ---------------------------------------------------------------------
  // calculate_relevance_score

  /** The occurrences of each keyword in the lower-cased content, added up. */
  function Occurrences(contentLower: string, keywords: seq<string>): nat
  {
    if keywords == [] then 0
    else Occurrences(contentLower, keywords[..|keywords| - 1]) + Count(contentLower, Lower(keywords[|keywords| - 1]))
  }

  method CalculateRelevanceScore(content: string, keywords: seq<string>) returns (score: nat)
    ensures score == Occurrences(Lower(content), keywords)
  {
    if keywords == [] {
      return 0;
    }
    score := 0;
    var contentLower := Lower(content);
    for i := 0 to |keywords|
      invariant score == Occurrences(contentLower, keywords[..i])
    {
      assert keywords[..i + 1][..i] == keywords[..i];
      score := score + Count(contentLower, Lower(keywords[i]));
    }
    assert keywords[..|keywords|] == keywords;
  }

  /** The score is positive exactly when some keyword occurs in the
      content, ignoring case. */
  lemma {:induction false} OccurrencesPositive(contentLower: string, keywords: seq<string>)
    ensures Occurrences(contentLower, keywords) > 0 <==>
      exists k :: 0 <= k < |keywords| && Contains(contentLower, Lower(keywords[k]))
  {
    if keywords != [] {
      var front := keywords[..|keywords| - 1];
      var last := keywords[|keywords| - 1];
      OccurrencesPositive(contentLower, front);
      CountPositiveIffContains(contentLower, Lower(last));
      if exists k :: 0 <= k < |front| && Contains(contentLower, Lower(front[k])) {
        var k :| 0 <= k < |front| && Contains(contentLower, Lower(front[k]));
        assert front[k] == keywords[k];
      }
      if exists k :: 0 <= k < |keywords| && Contains(contentLower, Lower(keywords[k])) {
        var k :| 0 <= k < |keywords| && Contains(contentLower, Lower(keywords[k]));
        if k < |front| {
          assert front[k] == keywords[k];
        }
      }
    }
  }
}
