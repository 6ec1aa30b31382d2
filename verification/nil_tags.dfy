/**
 * The loop tests the page's tags for nil instead of its error. A page whose
 * body decodes but has no `Tags` value therefore ends the whole listing with
 * no tags and no error, dropping every page gathered before it. Here: that
 * behaviour shown on a two-page registry, and the loop as it reads when the
 * error is tested instead, with the listing proved complete.
 */
module NilTags {
  import opened Wrappers
  import opened LinkHeader
  import opened DockerImage
  import opened Pagination

  const Start := "/t"
  /** `/t?n` */
  const Linked := Start + "?" + "n"
  /** `</t?n>;r` */
  const LinkToNext := "<" + Linked + ">;" + "r"

  /** The first page of the registry below lists a and continues at `/t?n`. */
  lemma LinkedFirstPage(fetch: Client, parse: UrlParser)
    requires fetch(Start) == HttpResponse(200, map["Link" := [LinkToNext]], Decoded(Some(["a"])))
    requires parse(Linked) == ParsedUrl(Start, "n")
    ensures PageStep(fetch, parse, Start) == Next(["a"], Linked)
  {
    MatchLinkGreedy(LinkToNext, Linked, "r");
  }

  /** Page one lists a and links on; page two decodes but has no `Tags`: the call returns an empty list and no error. */
  lemma NilTagsPageDropsEarlierPages(fetch: Client, parse: UrlParser)
    requires fetch(Start) == HttpResponse(200, map["Link" := [LinkToNext]], Decoded(Some(["a"])))
    requires parse(Linked) == ParsedUrl(Start, "n")
    requires fetch(Linked) == HttpResponse(200, map[], Decoded(None))
    ensures Paginate(fetch, parse, Start, [], 2) == Run(Listed([]), [Start, Linked])
    ensures BodyTags(fetch, [Start, Linked]) == ["a"]
  {
    LinkedFirstPage(fetch, parse);
    assert PageStep(fetch, parse, Linked) == Abort(None);
    PaginateContinues(fetch, parse, Start, [], 2);
    PaginateEnds(fetch, parse, Linked, ["a"], 1);
    assert [Start] + [Linked] == [Start, Linked];
    assert [Start, Linked][1..] == [Linked];
    assert BodyTags(fetch, [Linked]) == [] by {
      assert [Linked][1..] == [];
    }
  }

  /** A decoded body without `Tags` read as an empty page, as `append` treats a nil slice. */
  function NilAsEmpty(resp: Response): (r: Response)
    ensures PageTags(r) == PageTags(resp)
    ensures Succeeded(r) ==> r.body.tags.Some?
    ensures Succeeded(r) == Succeeded(resp)
  {
    if resp.HttpResponse? && resp.body == Decoded(None) then resp.(body := Decoded(Some([]))) else resp
  }

  function Checked(fetch: Client): Client
  {
    path => NilAsEmpty(fetch(path))
  }

  /** GetRepositoryTags with `if err != nil { return nil, err }` in place of the nil-tags test. */
  function ListTagsChecked(fetch: Client, parse: UrlParser, tagsPath: string, fuel: nat): Run
  {
    Paginate(Checked(fetch), parse, tagsPath, [], fuel)
  }

  lemma {:induction false} BodyTagsChecked(fetch: Client, paths: seq<string>)
    ensures BodyTags(Checked(fetch), paths) == BodyTags(fetch, paths)
    decreases |paths|
  {
    if paths != [] {
      BodyTagsChecked(fetch, paths[1..]);
    }
  }

  /** With the error tested, every listing returned is the tags of every page fetched, in fetch order. */
  lemma CheckedListingIsComplete(fetch: Client, parse: UrlParser, tagsPath: string, fuel: nat)
    ensures var run := ListTagsChecked(fetch, parse, tagsPath, fuel);
      run.outcome.Listed? ==> run.outcome.tags == BodyTags(fetch, run.requested)
  {
    ListingIsFetchedTags(Checked(fetch), parse, tagsPath, fuel);
    BodyTagsChecked(fetch, ListTagsChecked(fetch, parse, tagsPath, fuel).requested);
  }
}
