/**
 * Concrete registries: two linked pages, a malformed `Link` value, and a
 * linked URL with no query; and one header line holding two links.
 */
module Scenarios {
  import opened Wrappers
  import opened LinkHeader
  import opened DockerImage

  const FirstPage := "/v2/r/tags/list"
  const NextQuery := "next=2"
  /** `/v2/r/tags/list?next=2` */
  const SecondPage := FirstPage + "?" + NextQuery
  const RelNext := " rel=\"next\""
  /** `</v2/r/tags/list?next=2>; rel="next"` */
  const NextLink := "<" + SecondPage + ">;" + RelNext

  /** The greedy first group of a typical `Link` value is the bracketed URI reference. */
  lemma NextLinkMatch()
    ensures MatchLink(NextLink) == Some(LinkMatch(SecondPage, RelNext))
  {
    MatchLinkGreedy(NextLink, SecondPage, RelNext);
  }

  /**
   * Page one lists a and b and links to page two, which lists c and has no
   * `Link` header: the result is a, b, c from exactly two requests, the
   * second one for the linked path.
   */
  lemma TwoPages(fetch: Client, parse: UrlParser, fuel: nat)
    requires fetch(FirstPage) == HttpResponse(200, map["Link" := [NextLink]], Decoded(Some(["a", "b"])))
    requires fetch(SecondPage) == HttpResponse(200, map[], Decoded(Some(["c"])))
    requires parse(SecondPage) == ParsedUrl(FirstPage, NextQuery)
    requires fuel >= 2
    ensures Paginate(fetch, parse, FirstPage, [], fuel) == Run(Listed(["a", "b", "c"]), [FirstPage, SecondPage])
  {
    assert PageStep(fetch, parse, FirstPage) == Next(["a", "b"], SecondPage) by {
      NextLinkMatch();
    }
    assert PageStep(fetch, parse, SecondPage) == Last(["c"]);
    PaginateContinues(fetch, parse, FirstPage, [], fuel);
    PaginateEnds(fetch, parse, SecondPage, ["a", "b"], fuel - 1);
    assert ["a", "b"] + ["c"] == ["a", "b", "c"];
    assert [FirstPage] + [SecondPage] == [FirstPage, SecondPage];
  }

  /** A `Link` value that is not `<X>;Y` fails the listing, and the tags of that page are not returned. */
  lemma MalformedLink(fetch: Client, parse: UrlParser, fuel: nat)
    requires fetch(FirstPage) == HttpResponse(200, map["Link" := ["malformed-value"]], Decoded(Some(["a"])))
    requires fuel >= 1
    ensures Paginate(fetch, parse, FirstPage, [], fuel) == Run(Failed(UnparsableLink), [FirstPage])
  {
  }

  /** `</v2/r/tags/list>; rel="next"` */
  const PlainLink := "<" + FirstPage + ">;" + RelNext

  /** The `?` is kept when the linked URL has no query. */
  lemma EmptyQueryKeepsMarker(parse: UrlParser)
    requires parse(FirstPage) == ParsedUrl(FirstPage, "")
    ensures NextPath(PlainLink, parse) == Some(FirstPage + "?")
  {
    MatchLinkGreedy(PlainLink, FirstPage, RelNext);
    assert FirstPage + "?" + "" == FirstPage + "?";
  }

  const JoinedTarget := "a>; rel=next, <b"
  const PrevParams := " rel=prev"
  /** `<a>; rel=next, <b>; rel=prev`: two links joined by a comma on one header line. */
  const JoinedLinks := "<" + JoinedTarget + ">;" + PrevParams

  /**
   * Two comma-joined links are taken as one match: the greedy first group
   * runs from the first link's URI to the end of the second's, so the URI
   * handed to `url.Parse` is `a>; rel=next, <b`.
   */
  lemma JoinedLinksMatchAsOne()
    ensures MatchLink(JoinedLinks) == Some(LinkMatch(JoinedTarget, PrevParams))
  {
    MatchLinkGreedy(JoinedLinks, JoinedTarget, PrevParams);
  }
}
