/** The three regular expressions the agent's parameter extraction searches with
    (`re.search(..., re.IGNORECASE)`), written out as explicit searches:

      read   `(?:read|show|display)\s+(.+?)(?:\s|$)`         group 1
      shell  `(?:run|execute)\s+(.+)`                          group 1
      write  `(?:create|write)\s+(.+?)\s+(?:with|containing)\s+(.+)`  groups 1 and 2

    `re.search` tries the start positions from left to right and, at each one,
    the alternatives of the backtracking matcher in priority order; `Leftmost`
    is that outer search and each `...GroupAt` function is the outcome of the
    inner matcher at one start position, derived case by case below. `\s` is
    `Text.IsSpace`; `.` is any character but a newline; case-insensitivity is
    ASCII-only. */
module Patterns {
  import opened Wrappers
  import opened Text

  // ---------------------------------------------------------------- the outer search

  /** The first start position in `i..n` at which `at` matches, with its groups. */
  function Leftmost<T>(at: nat -> Option<T>, i: nat, n: nat): (r: Option<(nat, T)>)
    ensures r.Some? ==> i <= r.value.0 <= n && at(r.value.0) == Some(r.value.1)
    ensures r.Some? ==> forall j :: i <= j < r.value.0 ==> at(j).None?
    ensures r.None? ==> forall j :: i <= j <= n ==> at(j).None?
    decreases n + 1 - i
  {
    if i > n then None
    else match at(i)
      case Some(g) => Some((i, g))
      case None => Leftmost(at, i + 1, n)
  }

  /** A pattern that matches at the start is reported there. */
  lemma LeftmostAtStart<T>(at: nat -> Option<T>, n: nat, g: T)
    requires at(0) == Some(g)
    ensures Leftmost(at, 0, n) == Some((0, g))
  {
  }

  // ---------------------------------------------------------------- building blocks

  /** `kw` (lower case) occurs at `i`, compared case-insensitively. */
  predicate KeywordAt(s: string, i: nat, kw: string) {
    i + |kw| <= |s| && Lower(s[i..i + |kw|]) == kw
  }

  /** The end of the first alternative of `kws` that matches at `i`. */
  function KeywordEnd(s: string, i: nat, kws: seq<string>): (r: Option<nat>)
    ensures r.Some? ==> r.value <= |s|
    decreases |kws|
  {
    if |kws| == 0 then None
    else if KeywordAt(s, i, kws[0]) then Some(i + |kws[0]|)
    else KeywordEnd(s, i, kws[1..])
  }

  /** The alternation matches where one of its words does, ending after the first such word. */
  lemma {:induction false} KeywordEndMeaning(s: string, i: nat, kws: seq<string>)
    ensures var r := KeywordEnd(s, i, kws);
            && (r.Some? ==> exists j :: 0 <= j < |kws| && KeywordAt(s, i, kws[j]) && r.value == i + |kws[j]|
                              && forall l :: 0 <= l < j ==> !KeywordAt(s, i, kws[l]))
            && (r.None? ==> forall j :: 0 <= j < |kws| ==> !KeywordAt(s, i, kws[j]))
    decreases |kws|
  {
    if |kws| > 0 && !KeywordAt(s, i, kws[0]) {
      KeywordEndMeaning(s, i, kws[1..]);
      assert forall j :: 1 <= j < |kws| ==> kws[j] == kws[1..][j - 1];
      var r := KeywordEnd(s, i, kws);
      if r.Some? {
        var j :| 0 <= j < |kws[1..]| && KeywordAt(s, i, kws[1..][j]) && r.value == i + |kws[1..][j]|
                 && forall l :: 0 <= l < j ==> !KeywordAt(s, i, kws[1..][l]);
        assert KeywordAt(s, i, kws[j + 1]) && r.value == i + |kws[j + 1]|;
        assert forall l :: 0 <= l < j + 1 ==> !KeywordAt(s, i, kws[l]);
      }
    }
  }

  /** When the alternatives start with different letters, the one that occurs is the one tried. */
  lemma {:induction false} KeywordByFirstLetter(s: string, i: nat, kws: seq<string>, j: nat)
    requires j < |kws| && KeywordAt(s, i, kws[j])
    requires forall l :: 0 <= l < |kws| ==> |kws[l]| > 0
    requires forall l :: 0 <= l < j ==> kws[l][0] != kws[j][0]
    ensures KeywordEnd(s, i, kws) == Some(i + |kws[j]|)
    decreases j
  {
    if j > 0 {
      assert LowerChar(s[i]) == kws[j][0] by { assert Lower(s[i..i + |kws[j]|])[0] == LowerChar(s[i]); }
      assert !KeywordAt(s, i, kws[0]);
      assert forall l :: 0 <= l < |kws| - 1 ==> kws[1..][l] == kws[l + 1];
      KeywordByFirstLetter(s, i, kws[1..], j - 1);
    }
  }

  /** The length of the longest run of whitespace starting at `k` (what a greedy `\s+` takes first). */
  function SpaceRun(s: string, k: nat): (w: nat)
    requires k <= |s|
    ensures k + w <= |s|
    ensures forall j {:trigger IsSpace(s[j])} :: k <= j < k + w ==> IsSpace(s[j])
    ensures k + w == |s| || !IsSpace(s[k + w])
    decreases |s| - k
  {
    if k < |s| && IsSpace(s[k]) then 1 + SpaceRun(s, k + 1) else 0
  }

  /** A whitespace run of length `n` followed by the end or by something else is what `\s+` takes. */
  lemma SpaceRunExact(s: string, k: nat, n: nat)
    requires k + n <= |s| && forall j :: k <= j < k + n ==> IsSpace(s[j])
    requires k + n == |s| || !IsSpace(s[k + n])
    ensures SpaceRun(s, k) == n
  {
  }

  /** The first newline at or after `p`, or the end (where a greedy `.+` stops). */
  function LineEnd(s: string, p: nat): (e: nat)
    requires p <= |s|
    ensures p <= e <= |s|
    ensures forall j :: p <= j < e ==> s[j] != '\n'
    ensures e == |s| || s[e] == '\n'
    decreases |s| - p
  {
    if p < |s| && s[p] != '\n' then LineEnd(s, p + 1) else p
  }

  /** With no newline from `f` on, a greedy `.+` from `f` takes the rest of the text. */
  lemma LineEndExact(s: string, f: nat)
    requires f <= |s| && forall j :: f <= j < |s| ==> s[j] != '\n'
    ensures LineEnd(s, f) == |s|
    decreases |s| - f
  {
    if f < |s| {
      LineEndExact(s, f + 1);
    }
  }

  /** When a whitespace run `s[k..k+w]` reaches the end of the text, the matcher gives
      back characters of `\s+`: the largest `m` with `1 <= m <= top` such that `s[k+m]`
      is not a newline (so that `.` can match it). */
  function GiveBack(s: string, k: nat, top: nat): (r: Option<nat>)
    requires k + top <= |s|
    ensures r.Some? ==> 1 <= r.value <= top && k + r.value < |s| && s[k + r.value] != '\n'
    ensures r.Some? ==> forall q :: k + r.value < q <= k + top && q < |s| ==> s[q] == '\n'
    ensures r.None? ==> forall q :: k + 1 <= q <= k + top && q < |s| ==> s[q] == '\n'
    decreases top
  {
    if top == 0 then None
    else if k + top < |s| && s[k + top] != '\n' then Some(top)
    else GiveBack(s, k, top - 1)
  }

  /** No character of `t` is whitespace. */
  predicate NoSpace(t: string) {
    forall j :: 0 <= j < |t| ==> !IsSpace(t[j])
  }

  // ---------------------------------------------------------------- the read pattern

  const ReadVerbs: seq<string> := ["read", "show", "display"]

  /** Group 1 of `(?:read|show|display)\s+(.+?)(?:\s|$)` when matching starts at `i`.
      With the whole whitespace run taken, the lazy group is the next word. When the run
      reaches the end, giving back one whitespace character lets the group be that
      character and `$` match after it. */
  function ReadGroupAt(s: string, i: nat): Option<string> {
    match KeywordEnd(s, i, ReadVerbs)
    case None => None
    case Some(k) =>
      var w := SpaceRun(s, k);
      if w == 0 then None
      else if k + w < |s| then Some(s[k + w..WordEnd(s, k + w)])
      else match GiveBack(s, k, w - 1)
        case None => None
        case Some(m) => Some(s[k + m..k + m + 1])
  }

  /** The read pattern tried at each start position. */
  function ReadAt(s: string): nat -> Option<string> {
    (j: nat) => ReadGroupAt(s, j)
  }

  /** `re.search` with the read pattern: group 1 of the leftmost match. */
  function ReadSearch(s: string): Option<string> {
    match Leftmost(ReadAt(s), 0, |s|)
    case None => None
    case Some(hit) => Some(hit.1)
  }

  /** A text that opens with a read verb, whitespace and then something else yields the
      word that follows the whitespace. */
  lemma ReadSearchAtStart(s: string, kw: string)
    requires kw in ReadVerbs && KeywordAt(s, 0, kw)
    requires |kw| < |s| && IsSpace(s[|kw|])
    requires |kw| + SpaceRun(s, |kw|) < |s|
    ensures ReadSearch(s) == Some(s[|kw| + SpaceRun(s, |kw|)..WordEnd(s, |kw| + SpaceRun(s, |kw|))])
  {
    KeywordByFirstLetter(s, 0, ReadVerbs, if kw == "read" then 0 else if kw == "show" then 1 else 2);
    ReadGroupAtWord(s, |kw|);
    LeftmostAtStart(ReadAt(s), |s|, s[|kw| + SpaceRun(s, |kw|)..WordEnd(s, |kw| + SpaceRun(s, |kw|))]);
  }

  /** After a read verb ending at `k`, whitespace and something else, the group is the next word. */
  lemma ReadGroupAtWord(s: string, k: nat)
    requires KeywordEnd(s, 0, ReadVerbs) == Some(k)
    requires k < |s| && IsSpace(s[k]) && k + SpaceRun(s, k) < |s|
    ensures ReadGroupAt(s, 0) == Some(s[k + SpaceRun(s, k)..WordEnd(s, k + SpaceRun(s, k))])
  {
  }

  // ---------------------------------------------------------------- the shell pattern

  const ShellVerbs: seq<string> := ["run", "execute"]

  /** `\s+(.+)` from `k`: the rest of the line after the whitespace run, or, when the run
      reaches the end, the rest after the whitespace the matcher gives back. */
  function SpaceThenLine(s: string, k: nat): Option<string>
    requires k <= |s|
  {
    var w := SpaceRun(s, k);
    if w == 0 then None
    else if k + w < |s| then Some(s[k + w..LineEnd(s, k + w)])
    else match GiveBack(s, k, w - 1)
      case None => None
      case Some(m) => Some(s[k + m..LineEnd(s, k + m)])
  }

  /** A whitespace run from `e` up to `f`, where the rest of the text is one line: `\s+(.+)`
      takes that rest. */
  lemma SpaceThenLineAt(s: string, e: nat, f: nat)
    requires e < f < |s| && SpaceRun(s, e) == f - e && LineEnd(s, f) == |s|
    ensures SpaceThenLine(s, e) == Some(s[f..])
  {
    assert s[f..LineEnd(s, f)] == s[f..];
  }

  /** Group 1 of `(?:run|execute)\s+(.+)` when matching starts at `i`. */
  function ShellGroupAt(s: string, i: nat): Option<string> {
    match KeywordEnd(s, i, ShellVerbs)
    case None => None
    case Some(k) => SpaceThenLine(s, k)
  }

  /** The shell pattern tried at each start position. */
  function ShellAt(s: string): nat -> Option<string> {
    (j: nat) => ShellGroupAt(s, j)
  }

  /** `re.search` with the shell pattern: group 1 of the leftmost match. */
  function ShellSearch(s: string): Option<string> {
    match Leftmost(ShellAt(s), 0, |s|)
    case None => None
    case Some(hit) => Some(hit.1)
  }

  /** A text that opens with a shell verb, whitespace and then something else yields the
      rest of that first line. */
  lemma ShellSearchAtStart(s: string, kw: string)
    requires kw in ShellVerbs && KeywordAt(s, 0, kw)
    requires |kw| < |s| && IsSpace(s[|kw|])
    requires |kw| + SpaceRun(s, |kw|) < |s|
    ensures ShellSearch(s) == Some(s[|kw| + SpaceRun(s, |kw|)..LineEnd(s, |kw| + SpaceRun(s, |kw|))])
  {
    var k := KeywordEnd(s, 0, ShellVerbs);
    assert k == Some(|kw|) by {
      if kw == "execute" {
        assert !KeywordAt(s, 0, "run") by { assert Lower(s[0..7])[0] == 'e'; assert Lower(s[0..7])[..3] == Lower(s[0..3]); }
      }
    }
    LeftmostAtStart(ShellAt(s), |s|, s[|kw| + SpaceRun(s, |kw|)..LineEnd(s, |kw| + SpaceRun(s, |kw|))]);
  }

  // ---------------------------------------------------------------- the write pattern

  const WriteVerbs: seq<string> := ["create", "write"]
  const ContentWords: seq<string> := ["with", "containing"]

  /** `\s+(?:with|containing)\s+(.+)` from `p`: group 2, if this continuation matches.
      Only the whole whitespace run can precede the keyword, whose first letter is no
      whitespace; the final `\s+(.+)` is the shell pattern's. */
  function ContentTail(s: string, p: nat): Option<string>
    requires p <= |s|
  {
    var w2 := SpaceRun(s, p);
    if w2 == 0 then None
    else match KeywordEnd(s, p + w2, ContentWords)
      case None => None
      case Some(k3) => SpaceThenLine(s, k3)
  }

  /** `ContentTail` as the continuation tried after the lazy group (nothing past the end). */
  function ContentAt(s: string): nat -> Option<string> {
    (q: nat) => if q <= |s| then ContentTail(s, q) else None
  }

  /** The lazy group 1 `s[st..p]`, lengthened one character at a time (never over a
      newline) until the continuation `tail` matches after it. */
  function LazyPath(s: string, st: nat, p: nat, tail: nat -> Option<string>): Option<(string, string)>
    requires st < p
    decreases |s| + 1 - p
  {
    if p > |s| || s[p - 1] == '\n' then None
    else match tail(p)
      case Some(content) => Some((s[st..p], content))
      case None => LazyPath(s, st, p + 1, tail)
  }

  /** The greedy first `\s+` after the verb tries its longest run first, then gives back
      one character at a time. */
  function FirstGap(s: string, k: nat, m: nat): Option<(string, string)>
    requires k + m <= |s|
    decreases m
  {
    if m == 0 then None
    else match LazyPath(s, k + m, k + m + 1, ContentAt(s))
      case Some(g) => Some(g)
      case None => FirstGap(s, k, m - 1)
  }

  /** Groups 1 and 2 of the write pattern when matching starts at `i`. */
  function WriteGroupsAt(s: string, i: nat): Option<(string, string)> {
    match KeywordEnd(s, i, WriteVerbs)
    case None => None
    case Some(k) => FirstGap(s, k, SpaceRun(s, k))
  }

  /** The write pattern tried at each start position. */
  function WriteAt(s: string): nat -> Option<(string, string)> {
    (j: nat) => WriteGroupsAt(s, j)
  }

  /** `re.search` with the write pattern: groups 1 and 2 of the leftmost match. */
  function WriteSearch(s: string): Option<(string, string)> {
    match Leftmost(WriteAt(s), 0, |s|)
    case None => None
    case Some(hit) => Some(hit.1)
  }

  /** "create P with C" at the start of the text: a write verb, whitespace up to `b`, a path
      `s[b..c]` without whitespace, whitespace up to `d`, a content keyword, whitespace up
      to `f` and the rest of a single line starting with something other than whitespace.
      The groups are exactly the path and that rest. */
  lemma WriteSearchAtStart(s: string, kw: string, b: nat, c: nat, d: nat, ck: string, f: nat)
    requires kw in WriteVerbs && KeywordAt(s, 0, kw)
    requires ck in ContentWords && |kw| < b < c < d && d + |ck| < f < |s|
    requires forall j :: |kw| <= j < b ==> IsSpace(s[j])
    requires forall j :: b <= j < c ==> !IsSpace(s[j])
    requires forall j :: c <= j < d ==> IsSpace(s[j])
    requires KeywordAt(s, d, ck)
    requires forall j :: d + |ck| <= j < f ==> IsSpace(s[j])
    requires !IsSpace(s[f]) && forall j :: f <= j < |s| ==> s[j] != '\n'
    ensures WriteSearch(s) == Some((s[b..c], s[f..]))
  {
    KeywordByFirstLetter(s, 0, WriteVerbs, if kw == "create" then 0 else 1);
    SpaceRunExact(s, |kw|, b - |kw|);
    ContentTailAt(s, c, d, ck, f);
    assert NoSpace(s[b..c]);
    LazyPathStopsAt(s, b, c, s[f..]);
    WriteGroupsAtStart(s, |kw|, b - |kw|, (s[b..c], s[f..]));
  }

  /** A path without whitespace from `b` to `c` followed by a matching tail: the lazy group
      skips every shorter path, since the tail needs whitespace first, and stops at `c`. */
  lemma LazyPathStopsAt(s: string, b: nat, c: nat, content: string)
    requires b < c <= |s| && NoSpace(s[b..c]) && ContentTail(s, c) == Some(content)
    ensures LazyPath(s, b, b + 1, ContentAt(s)) == Some((s[b..c], content))
  {
    forall q | b + 1 <= q < c
      ensures ContentAt(s)(q).None?
    {
      assert s[b..c][q - b] == s[q];
      ContentTailNeedsSpace(s, q);
    }
    LazyPathReaches(s, b, b + 1, c, ContentAt(s));
    assert s[b..c][c - 1 - b] == s[c - 1];
  }

  /** A write verb ending at `k` and a whitespace run of length `m` of which the lazy group
      takes none back: the groups are what the lazy group finds after the run. */
  lemma WriteGroupsAtStart(s: string, k: nat, m: nat, g: (string, string))
    requires 0 < m && k + m <= |s| && KeywordEnd(s, 0, WriteVerbs) == Some(k) && SpaceRun(s, k) == m
    requires LazyPath(s, k + m, k + m + 1, ContentAt(s)) == Some(g)
    ensures WriteSearch(s) == Some(g)
  {
    assert FirstGap(s, k, m) == Some(g);
    assert WriteGroupsAt(s, 0) == Some(g);
    LeftmostAtStart(WriteAt(s), |s|, g);
  }

  /** While the lazy group runs over characters that are no whitespace and the continuation
      does not match, the group grows up to `c` unchanged. */
  lemma {:induction false} LazyPathReaches(s: string, st: nat, p: nat, c: nat, tail: nat -> Option<string>)
    requires st < p <= c <= |s| && NoSpace(s[st..c])
    requires forall q :: p <= q < c ==> tail(q).None?
    ensures LazyPath(s, st, p, tail) == LazyPath(s, st, c, tail)
    decreases c - p
  {
    if p < c {
      assert s[st..c][p - 1 - st] == s[p - 1];
      LazyPathReaches(s, st, p + 1, c, tail);
    }
  }

  /** The continuation starts with `\s+`, so it cannot match before a character that is no whitespace. */
  lemma ContentTailNeedsSpace(s: string, p: nat)
    requires p < |s| && !IsSpace(s[p])
    ensures ContentTail(s, p) == None
  {
    assert SpaceRun(s, p) == 0;
  }

  /** Whitespace, a content keyword, whitespace and the rest of a single line: group 2 is that rest. */
  lemma ContentTailAt(s: string, c: nat, d: nat, ck: string, f: nat)
    requires ck in ContentWords && c < d && d + |ck| < f < |s|
    requires forall j :: c <= j < d ==> IsSpace(s[j])
    requires KeywordAt(s, d, ck)
    requires forall j :: d + |ck| <= j < f ==> IsSpace(s[j])
    requires !IsSpace(s[f]) && forall j :: f <= j < |s| ==> s[j] != '\n'
    ensures ContentTail(s, c) == Some(s[f..])
  {
    var e := d + |ck|;
    SpaceRunExact(s, c, d - c);
    KeywordByFirstLetter(s, d, ContentWords, if ck == "with" then 0 else 1);
    assert KeywordEnd(s, c + SpaceRun(s, c), ContentWords) == Some(e);
    SpaceRunExact(s, e, f - e);
    LineEndExact(s, f);
    SpaceThenLineAt(s, e, f);
    ContentTailFrom(s, c, e, Some(s[f..]));
  }

  /** The whole whitespace run from `c`, then a content keyword ending at `e`: the
      continuation matches as the final `\s+(.+)` from `e` does. */
  lemma ContentTailFrom(s: string, c: nat, e: nat, r: Option<string>)
    requires c < |s| && SpaceRun(s, c) > 0
    requires KeywordEnd(s, c + SpaceRun(s, c), ContentWords) == Some(e)
    requires SpaceThenLine(s, e) == r
    ensures ContentTail(s, c) == r
  {
  }
}
