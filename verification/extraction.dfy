/**
 * Locating the JSON object in a model reply (server/llmOrchestrator.ts and
 * the debate summary in server/routers.ts share the same two patterns).
 *
 * The first pattern is a fenced block: three backticks, an optional `json`
 * tag, whitespace, then a group from `{` to `}`, whitespace and three
 * backticks. The second is a bare group from `{` to `}`. Both groups use a
 * greedy `[\s\S]*`, and the regex engine reports the leftmost match. The
 * first pattern that matches supplies its group; when neither matches the
 * whole reply is handed to the decoder.
 */
module Extraction {
  import opened Wrappers
  import opened JsonValue

  /** The `\s` class of JavaScript regular expressions (also what `String.prototype.trim` strips). */
  predicate IsSpace(c: char) {
    || c == '\t' || c == '\n' || c == '\U{000B}' || c == '\U{000C}' || c == '\r' || c == ' '
    || c == '\U{00A0}' || c == '\U{1680}' || ('\U{2000}' <= c <= '\U{200A}')
    || c == '\U{2028}' || c == '\U{2029}' || c == '\U{202F}' || c == '\U{205F}'
    || c == '\U{3000}' || c == '\U{FEFF}'
  }

  const Fence: string := "```"

  /** The literal `lit` occurs in `s` starting at index i. */
  predicate At(s: string, i: nat, lit: string) {
    i + |lit| <= |s| && s[i..i + |lit|] == lit
  }

  /** The end of the run of whitespace starting at i (greedy `\s*`). */
  function SkipSpace(s: string, i: nat): (j: nat)
    requires i <= |s|
    ensures i <= j <= |s|
    ensures forall k :: i <= k < j ==> IsSpace(s[k])
    ensures j == |s| || !IsSpace(s[j])
    decreases |s| - i
  {
    if i == |s| || !IsSpace(s[i]) then i else SkipSpace(s, i + 1)
  }

  /**
   * Where the group's `{` must stand after a fence at i: past the `json`
   * tag when present and past the whitespace. (When the tag is present the
   * tagless alternative puts `j` where `{` is needed, so it never matches.)
   */
  function OpenAfterFence(s: string, i: nat): nat
    requires At(s, i, Fence)
  {
    var j := i + |Fence|;
    SkipSpace(s, if At(s, j, "json") then j + 4 else j)
  }

  /** A `}` at k that whitespace and a closing fence follow. */
  predicate CloseAt(s: string, k: nat) {
    k < |s| && s[k] == '}' && At(s, SkipSpace(s, k + 1), Fence)
  }

  /** The fenced pattern matches from index i with its group ending at the brace k. */
  predicate FenceMatch(s: string, i: nat, k: nat) {
    && At(s, i, Fence)
    && OpenAfterFence(s, i) < k
    && CloseAt(s, k)
    && s[OpenAfterFence(s, i)] == '{'
  }

  /** The match the engine reports: the leftmost start, and for it the greedy (last) close. */
  ghost predicate FencedGroup(s: string, i: nat, k: nat) {
    && FenceMatch(s, i, k)
    && (forall i': nat, k': nat :: i' < i ==> !FenceMatch(s, i', k'))
    && (forall k': nat :: k < k' ==> !FenceMatch(s, i, k'))
  }

  /** The last close below hi that lies after the opening brace o. */
  function LastClose(s: string, o: nat, hi: nat): (r: Option<nat>)
    requires hi <= |s|
    ensures r.Some? ==> o < r.value < hi && CloseAt(s, r.value)
    ensures r.Some? ==> forall k :: r.value < k < hi ==> !CloseAt(s, k)
    ensures r.None? ==> forall k :: o < k < hi ==> !CloseAt(s, k)
    decreases hi
  {
    if hi <= o + 1 then None
    else if CloseAt(s, hi - 1) then Some(hi - 1)
    else LastClose(s, o, hi - 1)
  }

  /** The greedy group end of a fenced match starting at i, if any. */
  function MatchAt(s: string, i: nat): (r: Option<nat>)
    ensures r.Some? ==> FenceMatch(s, i, r.value)
    ensures r.Some? ==> forall k: nat :: r.value < k ==> !FenceMatch(s, i, k)
    ensures r.None? ==> forall k: nat :: !FenceMatch(s, i, k)
  {
    if At(s, i, Fence) && OpenAfterFence(s, i) < |s| && s[OpenAfterFence(s, i)] == '{' then
      LastClose(s, OpenAfterFence(s, i), |s|)
    else
      None
  }

  /** The leftmost start at or after i where the fenced pattern matches. */
  function FirstFenceFrom(s: string, i: nat): (r: Option<(nat, nat)>)
    ensures r.Some? ==> i <= r.value.0 && MatchAt(s, r.value.0) == Some(r.value.1)
    ensures r.Some? ==> forall j: nat, k: nat :: i <= j < r.value.0 ==> !FenceMatch(s, j, k)
    ensures r.None? ==> forall j: nat, k: nat :: i <= j ==> !FenceMatch(s, j, k)
    decreases |s| - i
  {
    if i >= |s| then None
    else match MatchAt(s, i)
      case Some(k) => Some((i, k))
      case None => FirstFenceFrom(s, i + 1)
  }

  /** The fenced match of the whole reply, as (start of the fence, closing brace). */
  function FencedSpan(s: string): (r: Option<(nat, nat)>)
    ensures r.Some? ==> FencedGroup(s, r.value.0, r.value.1)
    ensures r.None? <==> forall i: nat, k: nat :: !FenceMatch(s, i, k)
  {
    FirstFenceFrom(s, 0)
  }

  /** The first index at or after i holding c. */
  function FirstIndexFrom(s: string, c: char, i: nat): (r: Option<nat>)
    ensures r.Some? ==> i <= r.value < |s| && s[r.value] == c
    ensures r.Some? ==> forall j :: i <= j < r.value ==> s[j] != c
    ensures r.None? ==> forall j :: i <= j < |s| ==> s[j] != c
    decreases |s| - i
  {
    if i >= |s| then None
    else if s[i] == c then Some(i)
    else FirstIndexFrom(s, c, i + 1)
  }

  /** The last index below hi holding c. */
  function LastIndexBelow(s: string, c: char, hi: nat): (r: Option<nat>)
    requires hi <= |s|
    ensures r.Some? ==> r.value < hi && s[r.value] == c
    ensures r.Some? ==> forall j :: r.value < j < hi ==> s[j] != c
    ensures r.None? ==> forall j :: 0 <= j < hi ==> s[j] != c
    decreases hi
  {
    if hi == 0 then None
    else if s[hi - 1] == c then Some(hi - 1)
    else LastIndexBelow(s, c, hi - 1)
  }

  /**
   * The bare pattern's match as (first `{`, last `}`). It matches exactly
   * when some `}` follows the first `{`: the leftmost start is the first
   * `{`, and the greedy body runs to the last `}` of the reply.
   */
  function BareSpan(s: string): (r: Option<(nat, nat)>)
    ensures r.Some? ==> r.value.0 < r.value.1 < |s|
    ensures r.Some? ==> s[r.value.0] == '{' && forall j :: 0 <= j < r.value.0 ==> s[j] != '{'
    ensures r.Some? ==> s[r.value.1] == '}' && forall j :: r.value.1 < j < |s| ==> s[j] != '}'
    ensures r.None? <==> forall f, l :: 0 <= f < l < |s| && s[f] == '{' ==> s[l] != '}'
  {
    match FirstIndexFrom(s, '{', 0)
    case None => None
    case Some(f) =>
      match LastIndexBelow(s, '}', |s|)
      case None => None
      case Some(l) => if f < l then Some((f, l)) else None
  }

  /** The text handed to the decoder: the fenced group, else the bare group, else the whole reply. */
  function Candidate(s: string): (r: string)
    ensures |r| <= |s|
  {
    match FencedSpan(s)
    case Some((i, k)) => s[OpenAfterFence(s, i)..k + 1]
    case None =>
      match BareSpan(s)
      case Some((f, l)) => s[f..l + 1]
      case None => s
  }

  /**
   * The candidate is the reply itself or a slice of it from a `{` to a
   * later `}`; a reply with no `}` after a `{` goes to the decoder whole.
   */
  lemma CandidateShape(s: string)
    ensures Candidate(s) == s || exists o, k :: 0 <= o < k < |s| && s[o] == '{' && s[k] == '}' && Candidate(s) == s[o..k + 1]
    ensures (forall f, l :: 0 <= f < l < |s| && s[f] == '{' ==> s[l] != '}') ==> Candidate(s) == s
  {
    if FencedSpan(s).Some? {
      FencedCandidate(s);
    } else {
      BareCandidate(s);
    }
  }

  lemma FencedCandidate(s: string)
    requires FencedSpan(s).Some?
    ensures exists o, k :: 0 <= o < k < |s| && s[o] == '{' && s[k] == '}' && Candidate(s) == s[o..k + 1]
  {
    var (i, k) := FencedSpan(s).value;
    var o := OpenAfterFence(s, i);
    assert FenceMatch(s, i, k);
    assert Candidate(s) == s[o..k + 1];
  }

  lemma BareCandidate(s: string)
    requires FencedSpan(s).None?
    ensures Candidate(s) == s || exists o, k :: 0 <= o < k < |s| && s[o] == '{' && s[k] == '}' && Candidate(s) == s[o..k + 1]
  {
  }

  /** With no fenced match, the candidate is exactly the first-`{`-to-last-`}` span, or the whole text. */
  lemma BareBraceRule(s: string, f: nat, l: nat)
    requires FencedSpan(s).None?
    requires f < |s| && s[f] == '{' && forall j :: 0 <= j < f ==> s[j] != '{'
    requires l < |s| && s[l] == '}' && forall j :: l < j < |s| ==> s[j] != '}'
    ensures f < l ==> Candidate(s) == s[f..l + 1]
    ensures l < f ==> Candidate(s) == s
  {
    match BareSpan(s)
    case Some((f', l')) =>
      assert f' == f && l' == l;
    case None =>
      assert !(f < l);
  }

  /** There is at most one reported fenced match. */
  lemma FencedGroupUnique(s: string, i: nat, k: nat, i': nat, k': nat)
    requires FencedGroup(s, i, k) && FencedGroup(s, i', k')
    ensures i == i' && k == k'
  {
  }

  /** No fenced match can start before n when no backtick occurs before n. */
  lemma NoFenceBefore(s: string, n: nat)
    requires n <= |s|
    requires forall c :: 0 <= c < n ==> s[c] != '`'
    ensures forall i: nat, k: nat :: i < n ==> !FenceMatch(s, i, k)
  {
    forall i: nat, k: nat | i < n
      ensures !FenceMatch(s, i, k)
    {
      if i + 3 <= |s| {
        assert s[i..i + 3][0] == s[i];
      }
    }
  }

  /** No close can stand at or after m when no `}` occurs there. */
  lemma NoCloseFrom(s: string, m: nat)
    requires forall c :: m <= c < |s| ==> s[c] != '}'
    ensures forall k: nat :: m <= k ==> !CloseAt(s, k)
  {
  }

  /** The pieces of a fenced reply, located by index. */
  lemma FencedLayout(p: string, j: string, q: string, s: string)
    requires s == p + Fence + "json\n" + j + "\n" + Fence + q
    ensures |s| == |p| + 9 + |j| + 3 + |q|
    ensures s[..|p|] == p
    ensures s[|p|..|p| + 3] == Fence
    ensures s[|p| + 3..|p| + 7] == "json"
    ensures s[|p| + 7] == '\n'
    ensures s[|p| + 8..|p| + 8 + |j|] == j
    ensures s[|p| + 8 + |j|] == '\n'
    ensures s[|p| + 9 + |j|..|p| + 12 + |j|] == Fence
    ensures s[|p| + 12 + |j|..] == q
  {
  }

  /**
   * The layout of a fenced reply, by index: a fence at n with the `json`
   * tag and a newline, a group of m characters from `{` to `}`, a newline
   * and a closing fence; no backtick before n and no `}` after the group.
   */
  ghost predicate FencedShape(s: string, n: nat, m: nat) {
    && 2 <= m && n + 12 + m <= |s|
    && At(s, n, Fence) && At(s, n + 3, "json") && s[n + 7] == '\n'
    && s[n + 8] == '{' && s[n + 7 + m] == '}' && s[n + 8 + m] == '\n'
    && At(s, n + 9 + m, Fence)
    && (forall c :: 0 <= c < n ==> s[c] != '`')
    && (forall c :: n + 8 + m <= c < |s| ==> s[c] != '}')
  }

  /** A reply laid out as FencedShape has the fence at n as its reported match, with the group from n + 8. */
  lemma ShapeSpan(s: string, n: nat, m: nat)
    requires FencedShape(s, n, m)
    ensures FencedSpan(s) == Some((n, n + 7 + m))
    ensures OpenAfterFence(s, n) == n + 8
  {
    var k := n + 7 + m;
    assert SkipSpace(s, n + 7) == n + 8 by {
      assert IsSpace(s[n + 7]);
    }
    assert s[k + 2] == '`' by { assert s[k + 2] == s[k + 2..k + 5][0]; }
    assert SkipSpace(s, k + 1) == k + 2 by {
      assert IsSpace(s[k + 1]);
    }
    assert FenceMatch(s, n, k);
    NoFenceBefore(s, n);
    NoCloseFrom(s, k + 1);
    ReportedMatch(s, n, k);
  }

  /** A match with none starting before it and no close after its brace is the one reported. */
  lemma ReportedMatch(s: string, i: nat, k: nat)
    requires FenceMatch(s, i, k)
    requires forall i': nat, k': nat :: i' < i ==> !FenceMatch(s, i', k')
    requires forall k': nat :: k < k' ==> !CloseAt(s, k')
    ensures FencedSpan(s) == Some((i, k))
  {
    assert FencedGroup(s, i, k);
    var (i', k') := FencedSpan(s).value;
    FencedGroupUnique(s, i, k, i', k');
  }

  /** A reply built as prose, a `json` block around `j`, and trailing text is laid out as FencedShape. */
  lemma FencedReplyShape(p: string, j: string, q: string, s: string)
    requires s == p + Fence + "json\n" + j + "\n" + Fence + q
    requires forall c :: 0 <= c < |p| ==> p[c] != '`'
    requires forall c :: 0 <= c < |q| ==> q[c] != '}'
    requires 2 <= |j| && j[0] == '{' && j[|j| - 1] == '}'
    ensures FencedShape(s, |p|, |j|)
  {
    FencedLayout(p, j, q, s);
    var n := |p|;
    var k := n + 7 + |j|;
    assert s[n + 8] == '{' by { assert s[n + 8] == s[n + 8..n + 8 + |j|][0]; }
    assert s[k] == '}' by { assert s[k] == s[n + 8..n + 8 + |j|][|j| - 1]; }
    assert forall c :: 0 <= c < n ==> s[c] != '`' by {
      forall c | 0 <= c < n ensures s[c] != '`' { assert s[c] == s[..n][c]; }
    }
    assert forall c :: k + 1 <= c < |s| ==> s[c] != '}' by {
      forall c | k + 1 <= c < |s| ensures s[c] != '}' {
        if c == k + 1 {
        } else if c < k + 5 {
          assert s[c] == s[k + 2..k + 5][c - (k + 2)];
        } else {
          assert s[c] == s[k + 5..][c - (k + 5)];
        }
      }
    }
  }

  /**
   * A JSON object `j` fenced as a `json` block is recovered exactly, whatever
   * prose precedes it (even prose with braces, which the bare pattern would
   * have picked up) as long as that prose has no backtick, and whatever
   * follows it as long as no `}` does.
   */
  lemma {:induction false} FencedRoundTrip(p: string, j: string, q: string)
    requires forall c :: 0 <= c < |p| ==> p[c] != '`'
    requires forall c :: 0 <= c < |q| ==> q[c] != '}'
    requires 2 <= |j| && j[0] == '{' && j[|j| - 1] == '}'
    ensures Candidate(p + Fence + "json\n" + j + "\n" + Fence + q) == j
  {
    var s := p + Fence + "json\n" + j + "\n" + Fence + q;
    FencedReplyShape(p, j, q, s);
    ShapeSpan(s, |p|, |j|);
    FencedLayout(p, j, q, s);
    assert Candidate(s) == s[|p| + 8..|p| + 8 + |j|];
  }

  /** A bare JSON object between prose with no braces and no backticks is recovered exactly. */
  lemma {:induction false} BareRoundTrip(p: string, j: string, q: string)
    requires forall c :: 0 <= c < |p| ==> p[c] != '`' && p[c] != '{'
    requires forall c :: 0 <= c < |j| ==> j[c] != '`'
    requires forall c :: 0 <= c < |q| ==> q[c] != '`' && q[c] != '}'
    requires 2 <= |j| && j[0] == '{' && j[|j| - 1] == '}'
    ensures Candidate(p + j + q) == j
  {
    var s := p + j + q;
    assert forall c :: 0 <= c < |s| ==> s[c] != '`' by {
      forall c | 0 <= c < |s| ensures s[c] != '`' {
        if c < |p| {
          assert s[c] == p[c];
        } else if c < |p| + |j| {
          assert s[c] == j[c - |p|];
        } else {
          assert s[c] == q[c - |p| - |j|];
        }
      }
    }
    NoFenceBefore(s, |s|);
    assert forall i: nat, k: nat :: !FenceMatch(s, i, k);
    assert FencedSpan(s).None?;
    var f := |p|;
    var l := |p| + |j| - 1;
    assert s[f] == '{';
    assert s[l] == '}';
    assert forall c :: 0 <= c < f ==> s[c] != '{' by {
      forall c | 0 <= c < f ensures s[c] != '{' { assert s[c] == p[c]; }
    }
    assert forall c :: l < c < |s| ==> s[c] != '}' by {
      forall c | l < c < |s| ensures s[c] != '}' { assert s[c] == q[c - |p| - |j|]; }
    }
    BareBraceRule(s, f, l);
    assert s[f..l + 1] == j;
  }
}
