/**
 * The continuation-link matcher: the anchored pattern `\A<(.+)>;(.+)\z`
 * that GetRepositoryTags compiles once and applies to the first `Link`
 * header value. It is an ad-hoc approximation of the `<URI-Reference>;
 * params` link value of section 3 of RFC 8288: it rejects whitespace before
 * the `;`, and because its first group is greedy it runs to the last `>;`,
 * so it also accepts values that are not one link value, such as several
 * links joined by commas on one header line.
 */
module LinkHeader {
  import opened Wrappers

  /** The two capture groups: match[1], the URI reference, and match[2], the link parameters. */
  datatype LinkMatch = LinkMatch(target: string, params: string)

  /** `.` in the pattern matches every character but a newline. */
  predicate NoNewline(s: string) { forall i :: 0 <= i < |s| ==> s[i] != '\n' }

  /** The matcher's scan for a newline, character by character. */
  function NewlineFree(s: string): (r: bool)
    ensures r <==> NoNewline(s)
  {
    if s == [] then true
    else if s[0] == '\n' then false
    else
      assert forall i :: 0 < i < |s| ==> s[i] == s[1..][i - 1];
      NewlineFree(s[1..])
  }

  /** The pattern matches the whole of s with these two captures. */
  predicate Matches(s: string, target: string, params: string)
  {
    && |target| >= 1 && |params| >= 1
    && NoNewline(target) && NoNewline(params)
    && s == "<" + target + ">;" + params
  }

  /** Position k holds a `>;` that leaves a non-empty first group before it and a non-empty second group after it. */
  predicate SplitsAt(s: string, k: int)
  {
    2 <= k < |s| - 2 && s[k] == '>' && s[k + 1] == ';'
  }

  /** The right-most split position at or below k. */
  function LastSplit(s: string, k: int): (j: Option<int>)
    requires k < |s| - 2
    ensures j.Some? ==> 2 <= j.value <= k
    decreases k
  {
    if k < 2 then None
    else if s[k] == '>' && s[k + 1] == ';' then Some(k)
    else LastSplit(s, k - 1)
  }

  /** LastSplit finds a split at or below k with none between it and k, and finds none only when there is none. */
  lemma {:induction false} LastSplitFinds(s: string, k: int)
    requires k < |s| - 2
    ensures LastSplit(s, k).Some? ==> LastSplit(s, k).value <= k && SplitsAt(s, LastSplit(s, k).value)
    ensures LastSplit(s, k).Some? ==> forall i :: LastSplit(s, k).value < i <= k ==> !SplitsAt(s, i)
    ensures LastSplit(s, k).None? ==> forall i :: i <= k ==> !SplitsAt(s, i)
    decreases k
  {
    if k >= 2 && !(s[k] == '>' && s[k + 1] == ';') {
      LastSplitFinds(s, k - 1);
    }
  }

  /**
   * `FindStringSubmatch` with the pattern above: the first group is greedy,
   * so it ends at the right-most `>;` that still leaves a second group.
   */
  function MatchLink(s: string): Option<LinkMatch>
  {
    if |s| < 5 || s[0] != '<' || !NewlineFree(s) then None
    else
      match LastSplit(s, |s| - 3)
      case None => None
      case Some(k) => Some(LinkMatch(s[1..k], s[k + 2..]))
  }

  /** What the matcher finds is a match. */
  lemma MatchLinkSound(s: string)
    requires MatchLink(s).Some?
    ensures Matches(s, MatchLink(s).value.target, MatchLink(s).value.params)
  {
    LastSplitFinds(s, |s| - 3);
    SplitMatches(s, LastSplit(s, |s| - 3).value);
  }

  /** A split position in a newline-free string that opens with `<` is a match. */
  lemma SplitMatches(s: string, k: int)
    requires |s| >= 1 && s[0] == '<' && NoNewline(s) && SplitsAt(s, k)
    ensures Matches(s, s[1..k], s[k + 2..])
  {
    assert s == [s[0]] + s[1..k] + [s[k], s[k + 1]] + s[k + 2..];
  }

  /** Every match comes from a split position, and the captures are the slices around it. */
  lemma MatchSplits(s: string, target: string, params: string)
    requires Matches(s, target, params)
    ensures |s| >= 5 && s[0] == '<' && NoNewline(s)
    ensures SplitsAt(s, |target| + 1)
    ensures target == s[1..|target| + 1] && params == s[|target| + 3..]
  {
    var n := |target|;
    forall i | 0 <= i < |s| ensures s[i] != '\n' {
      if 1 <= i <= n {
        assert s[i] == target[i - 1];
      } else if n + 3 <= i {
        assert s[i] == params[i - n - 3];
      }
    }
  }

  /**
   * The matcher finds a match whenever there is one, and its first group is
   * the longest possible: with the second group determined by the first,
   * that makes the match unique.
   */
  lemma MatchLinkComplete(s: string, target: string, params: string)
    requires Matches(s, target, params)
    ensures MatchLink(s).Some?
    ensures |target| <= |MatchLink(s).value.target|
  {
    MatchSplits(s, target, params);
    LastSplitFinds(s, |s| - 3);
  }

  /** The first group ends at the last `>;` that leaves a second group: a match whose second group holds no such `>;` is the one found. */
  lemma MatchLinkGreedy(s: string, target: string, params: string)
    requires Matches(s, target, params)
    requires forall j :: 0 <= j < |params| - 2 ==> !(params[j] == '>' && params[j + 1] == ';')
    ensures MatchLink(s) == Some(LinkMatch(target, params))
  {
    MatchLinkComplete(s, target, params);
    MatchLinkSound(s);
    LastSplitFinds(s, |s| - 3);
    var m := MatchLink(s).value;
    MatchSplits(s, m.target, m.params);
    MatchSplits(s, target, params);
  }

  /** No match means no way to read s as `<X>;Y`. */
  lemma NoMatchMeansMalformed(s: string)
    requires MatchLink(s).None?
    ensures forall target, params :: !Matches(s, target, params)
  {
    forall target, params | Matches(s, target, params) ensures false {
      MatchLinkComplete(s, target, params);
    }
  }
}
