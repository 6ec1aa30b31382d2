/**
 * Listing every tag of a registry repository: one page request
 * (MakeRepositoryTagsRequest) and the loop that follows `Link`
 * continuation headers from page to page (GetRepositoryTags).
 *
 * The HTTP transport and `url.Parse` are not part of the model: they are
 * passed in as functions, and a response is what the transport and the JSON
 * decoder would have produced for it.
 */
module DockerImage {
  import opened Wrappers
  import opened Decimal
  import opened LinkHeader

  /** The outcome of decoding a 200 response body into `struct { Tags []string }`. */
  datatype Body =
    | Undecodable(detail: string)
      /** None: the body decoded but had no `Tags` value (a nil slice). */
    | Decoded(tags: Option<seq<string>>)

  /** What one `GET path` through the transport yields. */
  datatype Response =
    | TransportFailure(detail: string)
    | HttpResponse(status: int, header: map<string, seq<string>>, body: Body)

  datatype Error =
    | TransportError(detail: string)
    | InvalidStatus(code: int)
    | DecodeError(detail: string)
    | UnparsableLink
    | UrlParseError(detail: string)

  /** The two fields of `url.Parse`'s result that the loop reads. */
  datatype Url = UrlFailure(detail: string) | ParsedUrl(path: string, rawQuery: string)

  /** The transport: `makeRequest(ctx, "GET", path, nil, nil)`. */
  type Client = string -> Response

  /** `url.Parse`. */
  type UrlParser = string -> Url

  const StatusOK := 200
  const StatusPrefix := "Invalid status code returned when fetching tags list "
  const LinkErrorText := "Could not parse link header in response when fetching tags list"

  /** The text of each error, as `Error()` would give it. */
  function Message(e: Error): string
  {
    match e
    case TransportError(d) => d
    case InvalidStatus(code) => StatusPrefix + FormatInt(code)
    case DecodeError(d) => d
    case UnparsableLink => LinkErrorText
    case UrlParseError(d) => d
  }

  /** The status error's text names the status code: the code can be read back from it. */
  lemma StatusMessageNamesCode(code: int)
    ensures Message(InvalidStatus(code))[..|StatusPrefix|] == StatusPrefix
    ensures ParseInt(Message(InvalidStatus(code))[|StatusPrefix|..]) == Some(code)
  {
    assert Message(InvalidStatus(code))[|StatusPrefix|..] == FormatInt(code);
    FormatIntRoundTrip(code);
  }

  /** One page, as MakeRepositoryTagsRequest returns it: an error, or the decoded tags (possibly nil) and the raw `Link` values. */
  datatype PageResult =
    | PageFailed(err: Error)
    | Page(tags: Option<seq<string>>, links: seq<string>)

  /** `res.Header["Link"]`: every value in header order; nil (empty) when absent. */
  function LinkValues(header: map<string, seq<string>>): seq<string>
  {
    if "Link" in header then header["Link"] else []
  }

  /** True of a response that is a 200 whose body decoded. */
  predicate Succeeded(resp: Response)
  {
    resp.HttpResponse? && resp.status == StatusOK && resp.body.Decoded?
  }

  /** One request for one page of the tag list. */
  function MakeRepositoryTagsRequest(fetch: Client, path: string): (r: PageResult)
    ensures r.Page? <==> Succeeded(fetch(path))
    ensures r.Page? ==> r.tags == fetch(path).body.tags && r.links == LinkValues(fetch(path).header)
    ensures fetch(path).TransportFailure? ==> r == PageFailed(TransportError(fetch(path).detail))
    ensures fetch(path).HttpResponse? && fetch(path).status != StatusOK ==>
              r == PageFailed(InvalidStatus(fetch(path).status))
    ensures fetch(path).HttpResponse? && fetch(path).status == StatusOK && fetch(path).body.Undecodable? ==>
              r == PageFailed(DecodeError(fetch(path).body.detail))
  {
    match fetch(path)
    case TransportFailure(e) => PageFailed(TransportError(e))
    case HttpResponse(status, header, body) =>
      if status != StatusOK then PageFailed(InvalidStatus(status))
      else
        match body
        case Undecodable(e) => PageFailed(DecodeError(e))
        case Decoded(tags) => Page(tags, LinkValues(header))
  }

  /** What one turn of the loop does with a page. */
  datatype Step =
      /** Append these tags and continue at this path. */
    | Next(tags: seq<string>, path: string)
      /** Append these tags and stop. */
    | Last(tags: seq<string>)
      /** Return nil and this error (nil when the page's tags were nil without an error). */
    | Abort(err: Option<Error>)

  /** The next request path the continuation link names: match[1] parsed, then `Path + "?" + RawQuery`. */
  function NextPath(link: string, parse: UrlParser): (r: Option<string>)
  {
    match MatchLink(link)
    case None => None
    case Some(m) =>
      match parse(m.target)
      case UrlFailure(_) => None
      case ParsedUrl(p, q) => Some(p + "?" + q)
  }

  /** One turn of the loop's body, given the page the turn fetched. */
  function Advance(page: PageResult, parse: UrlParser): Step
  {
    match page
    case PageFailed(e) => Abort(Some(e))
    case Page(None, _) => Abort(None)
    case Page(Some(tags), links) =>
      if |links| < 1 then Last(tags)
      else
        match MatchLink(links[0])
        case None => Abort(Some(UnparsableLink))
        case Some(m) =>
          match parse(m.target)
          case UrlFailure(e) => Abort(Some(UrlParseError(e)))
          case ParsedUrl(p, q) => Next(tags, p + "?" + q)
  }

  /**
   * A failed page aborts with its error, a page without tags aborts with no
   * error, and a page with tags stops exactly when it has no `Link` value and
   * continues exactly when its first one names a next path.
   */
  lemma AdvanceCases(page: PageResult, parse: UrlParser)
    ensures page.PageFailed? ==> Advance(page, parse) == Abort(Some(page.err))
    ensures page.Page? && page.tags.None? ==> Advance(page, parse) == Abort(None)
    ensures Advance(page, parse).Next? || Advance(page, parse).Last? ==>
              page.Page? && page.tags == Some(Advance(page, parse).tags)
    ensures Advance(page, parse).Last? <==> page.Page? && page.tags.Some? && page.links == []
    ensures Advance(page, parse).Next? <==>
              page.Page? && page.tags.Some? && page.links != [] && NextPath(page.links[0], parse).Some?
    ensures Advance(page, parse).Next? ==> Advance(page, parse).path == NextPath(page.links[0], parse).value
  {
  }

  /** A first `Link` value that does not match fails the page with the link error, one whose URI reference does not parse with the parser's error. */
  lemma LinkFailuresAreFatal(page: PageResult, parse: UrlParser)
    requires page.Page? && page.tags.Some? && page.links != []
    ensures MatchLink(page.links[0]).None? ==> Advance(page, parse) == Abort(Some(UnparsableLink))
    ensures MatchLink(page.links[0]).Some? && parse(MatchLink(page.links[0]).value.target).UrlFailure? ==>
              Advance(page, parse) == Abort(Some(UrlParseError(parse(MatchLink(page.links[0]).value.target).detail)))
  {
  }

  /** What GetRepositoryTags returns; OutOfFuel is the model's own cut-off. */
  datatype Outcome = Listed(tags: seq<string>) | Failed(err: Error) | OutOfFuel

  /** An outcome together with the paths requested, in request order. */
  datatype Run = Run(outcome: Outcome, requested: seq<string>)

  function Prepend(paths: seq<string>, run: Run): Run
  {
    Run(run.outcome, paths + run.requested)
  }

  /** The loop body's decision for the page at `path`. */
  function PageStep(fetch: Client, parse: UrlParser, path: string): Step
  {
    Advance(MakeRepositoryTagsRequest(fetch, path), parse)
  }

  /**
   * The loop of GetRepositoryTags from `path` on, with `acc` the tags
   * gathered so far and at most `fuel` more requests.
   */
  function Paginate(fetch: Client, parse: UrlParser, path: string, acc: seq<string>, fuel: nat): (run: Run)
    ensures |run.requested| <= fuel
    ensures run.outcome == OutOfFuel ==> |run.requested| == fuel
    ensures fuel > 0 ==> |run.requested| >= 1 && run.requested[0] == path
    decreases fuel
  {
    if fuel == 0 then Run(OutOfFuel, [])
    else
      match PageStep(fetch, parse, path)
      case Next(tags, next) => Prepend([path], Paginate(fetch, parse, next, acc + tags, fuel - 1))
      case Last(tags) => Run(Listed(acc + tags), [path])
      case Abort(None) => Run(Listed([]), [path])
      case Abort(Some(e)) => Run(Failed(e), [path])
  }

  /** A page that continues costs one request and hands its tags on to the run at the next path. */
  lemma PaginateContinues(fetch: Client, parse: UrlParser, path: string, acc: seq<string>, fuel: nat)
    requires fuel > 0 && PageStep(fetch, parse, path).Next?
    ensures Paginate(fetch, parse, path, acc, fuel)
            == Prepend([path], Paginate(fetch, parse, PageStep(fetch, parse, path).path, acc + PageStep(fetch, parse, path).tags, fuel - 1))
  {
  }

  /** How a run ends at a page that does not continue, given all tags gathered up to and including it. */
  function Finish(last: Step, gathered: seq<string>): Outcome
    requires !last.Next?
  {
    match last
    case Last(_) => Listed(gathered)
    case Abort(None) => Listed([])
    case Abort(Some(e)) => Failed(e)
  }

  /** A page that does not continue costs one request and ends the run as the page dictates. */
  lemma PaginateEnds(fetch: Client, parse: UrlParser, path: string, acc: seq<string>, fuel: nat)
    requires fuel > 0 && !PageStep(fetch, parse, path).Next?
    ensures Paginate(fetch, parse, path, acc, fuel)
            == Run(Finish(PageStep(fetch, parse, path), if PageStep(fetch, parse, path).Last? then acc + PageStep(fetch, parse, path).tags else acc), [path])
  {
  }

  /** One continuing turn of the loop, seen from the whole run: the page's path joins those requested. */
  lemma ContinueTurn(fetch: Client, parse: UrlParser, before: seq<string>, path: string, acc: seq<string>, fuel: nat,
                     tags: seq<string>, next: string)
    requires fuel > 0 && PageStep(fetch, parse, path) == Next(tags, next)
    ensures Prepend(before, Paginate(fetch, parse, path, acc, fuel))
            == Prepend(before + [path], Paginate(fetch, parse, next, acc + tags, fuel - 1))
  {
    var onward := Paginate(fetch, parse, next, acc + tags, fuel - 1);
    PaginateContinues(fetch, parse, path, acc, fuel);
    assert before + ([path] + onward.requested) == (before + [path]) + onward.requested;
  }

  /**
   * Every tag of the repository whose tag-list endpoint is `tagsPath`,
   * gathered page by page; `requested` records the paths fetched.
   */
  method GetRepositoryTags(fetch: Client, parse: UrlParser, tagsPath: string, fuel: nat)
    returns (outcome: Outcome, ghost requested: seq<string>)
    ensures outcome == Paginate(fetch, parse, tagsPath, [], fuel).outcome
    ensures requested == Paginate(fetch, parse, tagsPath, [], fuel).requested
  {
    ghost var whole := Paginate(fetch, parse, tagsPath, [], fuel);
    var result: seq<string> := [];
    var done := false;
    var path := tagsPath;
    var fetches: nat := 0;
    requested := [];
    assert whole == Prepend(requested, Paginate(fetch, parse, path, result, fuel - fetches)) by {
      assert [] + whole.requested == whole.requested;
    }
    while !done
      invariant fetches <= fuel && |requested| == fetches
      invariant !done ==> whole == Prepend(requested, Paginate(fetch, parse, path, result, fuel - fetches))
      invariant done ==> whole == Run(Listed(result), requested)
      decreases fuel - fetches, !done
    {
      if fetches == fuel {
        return OutOfFuel, requested;
      }
      ghost var before, here, gathered, left := requested, path, result, fuel - fetches;
      var page := MakeRepositoryTagsRequest(fetch, path);
      ghost var step := PageStep(fetch, parse, path);
      assert step == Advance(page, parse);
      requested := requested + [path];
      fetches := fetches + 1;
      match page
      case PageFailed(err) =>
        return Failed(err), requested;
      case Page(None, _) =>
        // the tags are nil but the error is nil too
        return Listed([]), requested;
      case Page(Some(tags), linkValue) =>
        result := result + tags;
        if |linkValue| < 1 {
          done := true;
        } else {
          var m := MatchLink(linkValue[0]);
          if m.Some? {
            var u := parse(m.value.target);
            if u.UrlFailure? {
              return Failed(UrlParseError(u.detail)), requested;
            }
            path := u.path + "?" + u.rawQuery;
            assert step == Next(tags, path);
            ContinueTurn(fetch, parse, before, here, gathered, left, tags, path);
          } else {
            return Failed(UnparsableLink), requested;
          }
        }
    }
    return Listed(result), requested;
  }
}
