/** parse_frontmatter (utils/content.py): a YAML header between a leading
    "---" and the first closing line matching the regular expression
    `\n---\s*\n`, searched for after the first three characters. */
module Frontmatter {
  import opened Text
  import opened Outcomes

  /** A value of the parsed header: how str() renders it and whether
      Python counts it as true. */
  datatype YamlValue = YamlValue(text: string, truthy: bool)

  /** A parsed header. */
  type Header = map<string, YamlValue>

  /** yaml.safe_load followed by `or {}`: None when it raises YAMLError,
      Some(map[]) for an empty or false result. Only mapping results are
      representable. */
  type YamlLoader = string -> Option<Header>

  /** End of the run of whitespace that starts at from. */
  function SpaceRunEnd(s: string, from: nat): (r: nat)
    requires from <= |s|
    ensures from <= r <= |s|
    ensures forall k :: from <= k < r ==> IsSpace(s[k])
    ensures r < |s| ==> !IsSpace(s[r])
    decreases |s| - from
  {
    if from < |s| && IsSpace(s[from]) then SpaceRunEnd(s, from + 1) else from
  }

  /** Index of the last newline in s[lo..hi], or -1. */
  function LastNewline(s: string, lo: nat, hi: nat): (r: int)
    requires lo <= hi <= |s|
    ensures r == -1 || (lo <= r < hi && s[r] == '\n')
    ensures r == -1 ==> forall k :: lo <= k < hi ==> s[k] != '\n'
    ensures r != -1 ==> forall k :: r < k < hi ==> s[k] != '\n'
    decreases hi - lo
  {
    if hi == lo then -1
    else if s[hi - 1] == '\n' then hi - 1
    else LastNewline(s, lo, hi - 1)
  }

  /** Where `\n---\s*\n` ends when it matches at i: the greedy `\s*` gives
      back characters until a newline follows, so the match ends just after
      the last newline of the whitespace run. */
  function ClosingAt(s: string, i: nat): (r: Option<nat>)
    ensures r.Some? ==> i + 5 <= r.value <= |s| && s[r.value - 1] == '\n'
  {
    if i + 4 <= |s| && s[i] == '\n' && s[i + 1..i + 4] == "---" then
      var j := SpaceRunEnd(s, i + 4);
      var k := LastNewline(s, i + 4, j);
      if k >= 0 then Some(k + 1) else None
    else None
  }

  /** A closing line found in the header search: its start and end. */
  datatype Closing = Closing(start: nat, end: nat)

  /** re.search: the leftmost position at or after from where the closing
      line matches. */
  function FindClosing(s: string, from: nat): (r: Option<Closing>)
    ensures r.Some? ==> from <= r.value.start && ClosingAt(s, r.value.start) == Some(r.value.end)
    ensures r.Some? ==> forall k :: from <= k < r.value.start ==> ClosingAt(s, k).None?
    ensures r.None? ==> forall k :: from <= k < |s| ==> ClosingAt(s, k).None?
    decreases |s| - from
  {
    if from >= |s| then None
    else match ClosingAt(s, from)
      case Some(e) => Some(Closing(from, e))
      case None => FindClosing(s, from + 1)
  }

  /** How a document splits: no header, or the header text and the body. */
  datatype Division = NoHeader | Header(yamlText: string, body: string)

  function Divide(content: string): (d: Division)
    ensures !StartsWith(content, "---") ==> d == NoHeader
  {
    if !StartsWith(content, "---") then NoHeader
    else match FindClosing(content[3..], 0)
      case None => NoHeader
      case Some(c) => Header(content[3..][..c.start], content[3..][c.end..])
  }

  /** parse_frontmatter: the header (empty when it is missing, unclosed or
      not valid YAML) and the remaining text. */
  function ParseFrontmatter(yaml: YamlLoader, content: string): (Header, string)
  {
    match Divide(content)
    case NoHeader => (map[], content)
    case Header(y, body) => (match yaml(y) case None => map[] case Some(h) => h, body)
  }

  /** Without a closed header the content comes back whole, with an empty
      header. */
  lemma {:induction false} NoHeaderUnchanged(yaml: YamlLoader, content: string)
    requires !StartsWith(content, "---") || FindClosing(content[3..], 0).None?
    ensures ParseFrontmatter(yaml, content) == (map[], content)
  {
  }

  /** The text a closing-line match covers: a newline, "---", and a run of
      whitespace that ends in a newline. */
  lemma {:induction false} ClosingShape(s: string, i: nat, e: nat)
    requires ClosingAt(s, i) == Some(e)
    ensures i + 5 <= e <= |s| && s[i..i + 4] == "\n---" && s[e - 1] == '\n'
    ensures forall k :: i + 4 <= k < e ==> IsSpace(s[k])
  {
    var j := SpaceRunEnd(s, i + 4);
    var nl := LastNewline(s, i + 4, j);
    assert e == nl + 1 && nl < j;
    assert s[i..i + 4] == [s[i]] + s[i + 1..i + 4];
  }

  lemma {:induction false} HeaderText(content: string) returns (w: string)
    requires Divide(content).Header?
    ensures content == "---" + Divide(content).yamlText + "\n---" + w + Divide(content).body
    ensures |w| >= 1 && w[|w| - 1] == '\n' && forall k :: 0 <= k < |w| ==> IsSpace(w[k])
  {
    var rest := content[3..];
    var c := FindClosing(rest, 0).value;
    var e := c.end;
    var i := c.start;
    assert Divide(content) == Header(rest[..i], rest[e..]);
    ClosingShape(rest, i, e);
    w := rest[i + 4..e];
    forall k | 0 <= k < |w| ensures IsSpace(w[k]) {
      assert w[k] == rest[i + 4 + k];
    }
    assert w[|w| - 1] == rest[e - 1];
    FourPieces(content, 3, 3 + i, 3 + i + 4);
    assert content[..3] == "---";
    assert content[3..3 + i] == rest[..i];
    assert content[3 + i..3 + i + 4] == "\n---";
    assert content[3 + i + 4..] == w + rest[e..];
  }

  /** A closed header: the content is "---", the header text, the closing
      line (a newline, "---", whitespace ending in a newline) and the body;
      the header text holds no earlier closing line; the header is what the
      loader gives, or empty when it fails. */
  lemma {:induction false} HeaderShape(yaml: YamlLoader, content: string)
    requires Divide(content).Header?
    ensures var d := Divide(content);
      exists w :: content == "---" + d.yamlText + "\n---" + w + d.body &&
        |w| >= 1 && w[|w| - 1] == '\n' && (forall k :: 0 <= k < |w| ==> IsSpace(w[k]))
    ensures var d := Divide(content);
      forall k :: 0 <= k < |d.yamlText| ==> ClosingAt(content[3..], k).None?
    ensures var d := Divide(content);
      ParseFrontmatter(yaml, content) ==
        (if yaml(d.yamlText).Some? then yaml(d.yamlText).value else map[], d.body)
  {
    var w := HeaderText(content);
  }

  /** Parsing twice is not parsing once: a body that itself starts with a
      closed header loses it on a second pass. */
  lemma {:induction false} NotIdempotent(yaml: YamlLoader, x: string)
    requires x == [] || !IsSpace(x[0])
    ensures var once := ParseFrontmatter(yaml, "---\n---\n" + "---\n---\n" + x).1;
      once == "---\n---\n" + x &&
      ParseFrontmatter(yaml, once).1 == x && once != x
  {
    var block := "---\n---\n";
    assert block[..3] == "---";
    assert (block + x)[..8] == block;
    assert |block + x| > 8 ==> (block + x)[8] == x[0];
    ClosedEmptyHeader(block + x);
    assert (block + x)[8..] == x;
    assert (block + block + x)[..8] == block;
    assert (block + block + x)[8] == '-';
    assert block + block + x == block + (block + x);
    ClosedEmptyHeader(block + block + x);
    assert (block + block + x)[8..] == block + x;
    assert |block + x| > |x|;
  }

  /** "---\n---\n" + x has an empty header and body x. */
  lemma {:induction false} ClosedEmptyHeader(s: string)
    requires |s| >= 8 && s[..8] == "---\n---\n"
    requires |s| == 8 || !IsSpace(s[8])
    ensures Divide(s) == Header("", s[8..])
  {
    var rest := s[3..];
    assert s[3] == '\n' && s[4] == '-' && s[5] == '-' && s[6] == '-' && s[7] == '\n' by {
      assert forall k :: 0 <= k < 8 ==> s[..8][k] == s[k];
    }
    assert rest[1..4] == [s[4], s[5], s[6]];
    assert rest[0] == '\n' && rest[1..4] == "---" && rest[4] == '\n';
    assert SpaceRunEnd(rest, 4) >= 5;
    var j := SpaceRunEnd(rest, 4);
    assert ClosingAt(rest, 0).Some?;
    assert j == 5 by {
      if |rest| > 5 { assert rest[5] == s[8]; }
    }
    assert LastNewline(rest, 4, 5) == 4;
    assert rest[5..] == s[8..];
  }

  /** The text parse_frontmatter returns after the header; it does not
      depend on what the YAML loader does. */
  function Body(content: string): string
  {
    match Divide(content)
    case NoHeader => content
    case Header(_, b) => b
  }

  lemma {:induction false} BodyOfParse(yaml: YamlLoader, content: string)
    ensures ParseFrontmatter(yaml, content).1 == Body(content)
  {
  }
}
