/**
 * What GetRepositoryTags promises over a whole run: the pages it fetches
 * form a chain of continuation links, a successful listing is the
 * concatenation of their tags in fetch order, and any failure on the way
 * discards what was gathered.
 *
 * The run-level lemmas are stated over the loop body's decision at each
 * page (PageStep); the corollaries after them spell that decision out in
 * terms of the responses.
 */
module Pagination {
  import opened Wrappers
  import opened LinkHeader
  import opened DockerImage

  /** The tags a step appends to the result. */
  function Gathered(s: Step): seq<string>
  {
    match s
    case Next(tags, _) => tags
    case Last(tags) => tags
    case Abort(_) => []
  }

  /** The tags the pages at these paths append, concatenated in order, duplicates kept. */
  function FetchedTags(fetch: Client, parse: UrlParser, paths: seq<string>): seq<string>
  {
    if paths == [] then [] else Gathered(PageStep(fetch, parse, paths[0])) + FetchedTags(fetch, parse, paths[1..])
  }

  /** Each page but the last continues, at the next path. */
  ghost predicate Chain(fetch: Client, parse: UrlParser, paths: seq<string>)
  {
    && |paths| >= 1
    && forall i {:trigger PageStep(fetch, parse, paths[i])} :: 0 <= i < |paths| - 1 ==>
         PageStep(fetch, parse, paths[i]).Next? && PageStep(fetch, parse, paths[i]).path == paths[i + 1]
  }

  /** A chain without its first page is still a chain, and its first page links to the second. */
  lemma ChainTail(fetch: Client, parse: UrlParser, paths: seq<string>)
    requires Chain(fetch, parse, paths) && |paths| >= 2
    ensures Chain(fetch, parse, paths[1..])
    ensures PageStep(fetch, parse, paths[0]).Next? && PageStep(fetch, parse, paths[0]).path == paths[1]
  {
    var tail := paths[1..];
    forall i | 0 <= i < |tail| - 1
      ensures PageStep(fetch, parse, tail[i]).Next? && PageStep(fetch, parse, tail[i]).path == tail[i + 1]
    {
      assert tail[i] == paths[i + 1] && tail[i + 1] == paths[i + 2];
    }
  }

  /** A page that links to the start of a chain extends it. */
  lemma ChainCons(fetch: Client, parse: UrlParser, path: string, paths: seq<string>)
    requires Chain(fetch, parse, paths)
    requires PageStep(fetch, parse, path).Next? && PageStep(fetch, parse, path).path == paths[0]
    ensures Chain(fetch, parse, [path] + paths)
  {
    var ps := [path] + paths;
    forall i | 0 <= i < |ps| - 1
      ensures PageStep(fetch, parse, ps[i]).Next? && PageStep(fetch, parse, ps[i]).path == ps[i + 1]
    {
      if i > 0 {
        assert ps[i] == paths[i - 1] && ps[i + 1] == paths[i];
      }
    }
  }

  /** One continuing page in front of a run along the rest of a chain. */
  lemma ChainStep(fetch: Client, parse: UrlParser, paths: seq<string>, acc: seq<string>, fuel: nat, last: Step)
    requires |paths| >= 2 && fuel > 0 && !last.Next?
    requires PageStep(fetch, parse, paths[0]).Next? && PageStep(fetch, parse, paths[0]).path == paths[1]
    requires var tags := Gathered(PageStep(fetch, parse, paths[0]));
      Paginate(fetch, parse, paths[1], acc + tags, fuel - 1)
      == Run(Finish(last, (acc + tags) + FetchedTags(fetch, parse, paths[1..])), paths[1..])
    ensures Paginate(fetch, parse, paths[0], acc, fuel) == Run(Finish(last, acc + FetchedTags(fetch, parse, paths)), paths)
  {
    var tags := Gathered(PageStep(fetch, parse, paths[0]));
    PaginateContinues(fetch, parse, paths[0], acc, fuel);
    assert (acc + tags) + FetchedTags(fetch, parse, paths[1..]) == acc + (tags + FetchedTags(fetch, parse, paths[1..]));
    assert [paths[0]] + paths[1..] == paths;
  }

  /** Following a chain to its last page fetches exactly the chain's paths and ends as that page dictates. */
  lemma {:induction false} RunAlongChain(fetch: Client, parse: UrlParser, paths: seq<string>, acc: seq<string>, fuel: nat)
    requires Chain(fetch, parse, paths) && |paths| <= fuel
    requires !PageStep(fetch, parse, paths[|paths| - 1]).Next?
    ensures Paginate(fetch, parse, paths[0], acc, fuel)
            == Run(Finish(PageStep(fetch, parse, paths[|paths| - 1]), acc + FetchedTags(fetch, parse, paths)), paths)
    decreases |paths|
  {
    var last := PageStep(fetch, parse, paths[|paths| - 1]);
    if |paths| == 1 {
      assert FetchedTags(fetch, parse, paths) == Gathered(last);
      assert paths == [paths[0]];
      PaginateEnds(fetch, parse, paths[0], acc, fuel);
    } else {
      var tags := Gathered(PageStep(fetch, parse, paths[0]));
      ChainTail(fetch, parse, paths);
      RunAlongChain(fetch, parse, paths[1..], acc + tags, fuel - 1);
      assert paths[1..][|paths| - 2] == paths[|paths| - 1];
      ChainStep(fetch, parse, paths, acc, fuel, last);
    }
  }

  /** Conversely, every finished run is a chain from its start to a page that does not continue. */
  lemma {:induction false} RequestedFormChain(fetch: Client, parse: UrlParser, path: string, acc: seq<string>, fuel: nat)
    requires Paginate(fetch, parse, path, acc, fuel).outcome != OutOfFuel
    ensures var ps := Paginate(fetch, parse, path, acc, fuel).requested;
      Chain(fetch, parse, ps) && ps[0] == path && !PageStep(fetch, parse, ps[|ps| - 1]).Next?
    decreases fuel
  {
    if PageStep(fetch, parse, path).Next? {
      PaginateContinues(fetch, parse, path, acc, fuel);
      RequestedFormChain(fetch, parse, PageStep(fetch, parse, path).path, acc + PageStep(fetch, parse, path).tags, fuel - 1);
      var rest := Paginate(fetch, parse, PageStep(fetch, parse, path).path, acc + PageStep(fetch, parse, path).tags, fuel - 1).requested;
      ChainCons(fetch, parse, path, rest);
      assert ([path] + rest)[|rest|] == rest[|rest| - 1];
    }
  }

  /**
   * Every listing a run returns is the tags of all the pages it fetched, in
   * fetch order, when its last page stopped the run, or empty when its last
   * page aborted without an error; every page before the last continued.
   */
  lemma ListingIsGathered(fetch: Client, parse: UrlParser, tagsPath: string, fuel: nat)
    ensures var run := Paginate(fetch, parse, tagsPath, [], fuel);
      run.outcome.Listed? ==>
        && Chain(fetch, parse, run.requested)
        && (PageStep(fetch, parse, run.requested[|run.requested| - 1]).Last? ==> run.outcome.tags == FetchedTags(fetch, parse, run.requested))
        && (PageStep(fetch, parse, run.requested[|run.requested| - 1]).Last? || PageStep(fetch, parse, run.requested[|run.requested| - 1]) == Abort(None))
        && (PageStep(fetch, parse, run.requested[|run.requested| - 1]) == Abort(None) ==> run.outcome.tags == [])
  {
    var run := Paginate(fetch, parse, tagsPath, [], fuel);
    if run.outcome.Listed? {
      var ps := run.requested;
      RequestedFormChain(fetch, parse, tagsPath, [], fuel);
      var last := PageStep(fetch, parse, ps[|ps| - 1]);
      RunAlongChain(fetch, parse, ps, [], fuel);
      assert [] + FetchedTags(fetch, parse, ps) == FetchedTags(fetch, parse, ps);
      assert run.outcome == Finish(last, FetchedTags(fetch, parse, ps));
    }
  }

  /** Fuel only cuts runs off: a run that finished ends the same with any larger allowance. */
  lemma {:induction false} FuelIrrelevant(fetch: Client, parse: UrlParser, path: string, acc: seq<string>, fuel: nat, more: nat)
    requires fuel <= more
    requires Paginate(fetch, parse, path, acc, fuel).outcome != OutOfFuel
    ensures Paginate(fetch, parse, path, acc, more) == Paginate(fetch, parse, path, acc, fuel)
    decreases fuel
  {
    if PageStep(fetch, parse, path).Next? {
      FuelIrrelevant(fetch, parse, PageStep(fetch, parse, path).path, acc + PageStep(fetch, parse, path).tags, fuel - 1, more - 1);
    }
  }

  // The real page request and link matcher.

  /** The tags a response carries: the decoded `Tags` of a 200, nothing otherwise. */
  function PageTags(resp: Response): seq<string>
  {
    if Succeeded(resp) && resp.body.tags.Some? then resp.body.tags.value else []
  }

  /** The tags of the responses at these paths, concatenated in order, duplicates kept. */
  function BodyTags(fetch: Client, paths: seq<string>): seq<string>
  {
    if paths == [] then [] else PageTags(fetch(paths[0])) + BodyTags(fetch, paths[1..])
  }

  /** A page that continues or stops the run appends exactly the tags of its body. */
  lemma GatheredIsPageTags(fetch: Client, parse: UrlParser, path: string)
    requires !PageStep(fetch, parse, path).Abort?
    ensures Gathered(PageStep(fetch, parse, path)) == PageTags(fetch(path))
  {
    AdvanceCases(MakeRepositoryTagsRequest(fetch, path), parse);
  }

  lemma {:induction false} FetchedTagsAreBodyTags(fetch: Client, parse: UrlParser, paths: seq<string>)
    requires forall i :: 0 <= i < |paths| ==> !PageStep(fetch, parse, paths[i]).Abort?
    ensures FetchedTags(fetch, parse, paths) == BodyTags(fetch, paths)
    decreases |paths|
  {
    if paths != [] {
      GatheredIsPageTags(fetch, parse, paths[0]);
      assert forall i :: 0 <= i < |paths| - 1 ==> paths[1..][i] == paths[i + 1];
      FetchedTagsAreBodyTags(fetch, parse, paths[1..]);
    }
  }

  /** k linked pages: exactly k fetches, their tags in order. */
  lemma ListsEveryPage(fetch: Client, parse: UrlParser, paths: seq<string>, fuel: nat)
    requires Chain(fetch, parse, paths) && |paths| <= fuel
    requires Succeeded(fetch(paths[|paths| - 1])) && fetch(paths[|paths| - 1]).body.tags.Some?
    requires LinkValues(fetch(paths[|paths| - 1]).header) == []
    ensures Paginate(fetch, parse, paths[0], [], fuel) == Run(Listed(BodyTags(fetch, paths)), paths)
  {
    AdvanceCases(MakeRepositoryTagsRequest(fetch, paths[|paths| - 1]), parse);
    RunAlongChain(fetch, parse, paths, [], fuel);
    forall i | 0 <= i < |paths|
      ensures !PageStep(fetch, parse, paths[i]).Abort?
    {
    }
    FetchedTagsAreBodyTags(fetch, parse, paths);
  }

  /** A failed page request ends the run with that request's error, whatever was gathered. */
  lemma FetchErrorIsFatal(fetch: Client, parse: UrlParser, paths: seq<string>, fuel: nat)
    requires Chain(fetch, parse, paths) && |paths| <= fuel
    requires MakeRepositoryTagsRequest(fetch, paths[|paths| - 1]).PageFailed?
    ensures Paginate(fetch, parse, paths[0], [], fuel)
            == Run(Failed(MakeRepositoryTagsRequest(fetch, paths[|paths| - 1]).err), paths)
  {
    AdvanceCases(MakeRepositoryTagsRequest(fetch, paths[|paths| - 1]), parse);
    RunAlongChain(fetch, parse, paths, [], fuel);
  }

  /** A status other than 200 on any page ends the run with that status, whatever was gathered. */
  lemma StatusErrorIsFatal(fetch: Client, parse: UrlParser, paths: seq<string>, fuel: nat)
    requires Chain(fetch, parse, paths) && |paths| <= fuel
    requires fetch(paths[|paths| - 1]).HttpResponse? && fetch(paths[|paths| - 1]).status != StatusOK
    ensures Paginate(fetch, parse, paths[0], [], fuel)
            == Run(Failed(InvalidStatus(fetch(paths[|paths| - 1]).status)), paths)
  {
    FetchErrorIsFatal(fetch, parse, paths, fuel);
  }

  /** A first `Link` value that is not `<X>;Y` ends the run with the link error, whatever was gathered. */
  lemma MalformedLinkIsFatal(fetch: Client, parse: UrlParser, paths: seq<string>, fuel: nat)
    requires Chain(fetch, parse, paths) && |paths| <= fuel
    requires Succeeded(fetch(paths[|paths| - 1])) && fetch(paths[|paths| - 1]).body.tags.Some?
    requires LinkValues(fetch(paths[|paths| - 1]).header) != []
    requires MatchLink(LinkValues(fetch(paths[|paths| - 1]).header)[0]).None?
    ensures Paginate(fetch, parse, paths[0], [], fuel) == Run(Failed(UnparsableLink), paths)
  {
    LinkFailuresAreFatal(MakeRepositoryTagsRequest(fetch, paths[|paths| - 1]), parse);
    RunAlongChain(fetch, parse, paths, [], fuel);
  }

  /** A matched link whose URI reference does not parse ends the run with the parser's error, whatever was gathered. */
  lemma UnparsableUrlIsFatal(fetch: Client, parse: UrlParser, paths: seq<string>, fuel: nat)
    requires Chain(fetch, parse, paths) && |paths| <= fuel
    requires Succeeded(fetch(paths[|paths| - 1])) && fetch(paths[|paths| - 1]).body.tags.Some?
    requires LinkValues(fetch(paths[|paths| - 1]).header) != []
    requires MatchLink(LinkValues(fetch(paths[|paths| - 1]).header)[0]).Some?
    requires parse(MatchLink(LinkValues(fetch(paths[|paths| - 1]).header)[0]).value.target).UrlFailure?
    ensures Paginate(fetch, parse, paths[0], [], fuel)
            == Run(Failed(UrlParseError(parse(MatchLink(LinkValues(fetch(paths[|paths| - 1]).header)[0]).value.target).detail)), paths)
  {
    LinkFailuresAreFatal(MakeRepositoryTagsRequest(fetch, paths[|paths| - 1]), parse);
    RunAlongChain(fetch, parse, paths, [], fuel);
  }

  /**
   * A page whose body decodes without a `Tags` value ends the run with an
   * empty listing and no error, whatever was gathered before it.
   */
  lemma NilTagsEndsWithEmptyListing(fetch: Client, parse: UrlParser, paths: seq<string>, fuel: nat)
    requires Chain(fetch, parse, paths) && |paths| <= fuel
    requires Succeeded(fetch(paths[|paths| - 1])) && fetch(paths[|paths| - 1]).body.tags.None?
    ensures Paginate(fetch, parse, paths[0], [], fuel) == Run(Listed([]), paths)
  {
    AdvanceCases(MakeRepositoryTagsRequest(fetch, paths[|paths| - 1]), parse);
    RunAlongChain(fetch, parse, paths, [], fuel);
  }

  /** Every page of a chain but the last was a 200 whose body decoded and carried a `Link` value. */
  lemma ChainPagesLinked(fetch: Client, parse: UrlParser, paths: seq<string>)
    requires Chain(fetch, parse, paths)
    ensures forall i :: 0 <= i < |paths| - 1 ==>
              Succeeded(fetch(paths[i])) && LinkValues(fetch(paths[i]).header) != []
  {
    forall i | 0 <= i < |paths| - 1
      ensures Succeeded(fetch(paths[i])) && LinkValues(fetch(paths[i]).header) != []
    {
      assert PageStep(fetch, parse, paths[i]).Next?;
      AdvanceCases(MakeRepositoryTagsRequest(fetch, paths[i]), parse);
    }
  }

  /** A page ends a listing either by having no `Link` value or by having no `Tags`; either way it was a 200 that decoded. */
  lemma ListingEndCases(fetch: Client, parse: UrlParser, path: string)
    requires PageStep(fetch, parse, path).Last? || PageStep(fetch, parse, path) == Abort(None)
    ensures Succeeded(fetch(path))
    ensures fetch(path).body.tags.None? <==> PageStep(fetch, parse, path) == Abort(None)
    ensures PageStep(fetch, parse, path).Last? ==> LinkValues(fetch(path).header) == []
  {
    AdvanceCases(MakeRepositoryTagsRequest(fetch, path), parse);
  }

  /**
   * Every listing GetRepositoryTags returns either holds the tags of all the
   * pages it fetched, in fetch order, and ends at the first page without
   * `Link` values, or is empty because the last page fetched had no `Tags`
   * value; every page before the last had a `Link` value.
   */
  lemma ListingIsFetchedTags(fetch: Client, parse: UrlParser, tagsPath: string, fuel: nat)
    ensures var run := Paginate(fetch, parse, tagsPath, [], fuel);
      run.outcome.Listed? ==>
        var last := run.requested[|run.requested| - 1];
        && Succeeded(fetch(last))
        && (forall i :: 0 <= i < |run.requested| - 1 ==>
              Succeeded(fetch(run.requested[i])) && LinkValues(fetch(run.requested[i]).header) != [])
        && (if fetch(last).body.tags.None? then run.outcome.tags == []
            else run.outcome.tags == BodyTags(fetch, run.requested) && LinkValues(fetch(last).header) == [])
  {
    var run := Paginate(fetch, parse, tagsPath, [], fuel);
    if run.outcome.Listed? {
      var ps := run.requested;
      ListingIsGathered(fetch, parse, tagsPath, fuel);
      ChainPagesLinked(fetch, parse, ps);
      ListingEndCases(fetch, parse, ps[|ps| - 1]);
      if PageStep(fetch, parse, ps[|ps| - 1]).Last? {
        forall i | 0 <= i < |ps|
          ensures !PageStep(fetch, parse, ps[i]).Abort?
        {
        }
        FetchedTagsAreBodyTags(fetch, parse, ps);
      }
    }
  }

  /** Only the first `Link` value is read: values after it never change a page's step. */
  lemma OnlyFirstLinkConsulted(tags: Option<seq<string>>, links: seq<string>, others: seq<string>, parse: UrlParser)
    requires links != []
    ensures Advance(Page(tags, links), parse) == Advance(Page(tags, [links[0]] + others), parse)
  {
  }
}
