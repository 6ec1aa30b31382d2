# Repository tag listing, modelled in Dafny

This project models how the Docker transport of the containers/image library
lists every tag of a registry repository. The registry API returns the tag
list a page at a time.

- `MakeRepositoryTagsRequest` fetches one page. It rejects any status but
  200 and decodes a `{"Tags": [...]}` body. It returns the tags together
  with the raw `Link` header values.
- `GetRepositoryTags` loops over the pages. It appends each page's tags. It
  stops at the first page without a `Link` value. Otherwise it matches the
  first `Link` value against `\A<(.+)>;(.+)\z`, parses the bracketed URI
  reference and requests `Path + "?" + RawQuery` next. Every failure
  discards the tags gathered so far.

Files:

- `wrappers.dfy`: the `Option` type.
- `decimal.dfy`: the `%d` rendering of the status code, and a parser that
  reads it back.
- `link_header.dfy`: the anchored continuation-link pattern, written out by
  hand with its greedy first group. The pattern is an ad-hoc approximation
  of the `<URI-Reference>; params` link value of section 3 of RFC 8288. It
  rejects whitespace before the `;`. Its greedy first group runs to the
  last `>;`, so it also accepts values that are not one link value, such as
  two links joined by a comma on one header line.
- `docker_image.dfy`: the two functions, as follows.
  - The single-page request is a function over an abstract response.
  - One turn of the loop is a function (`Advance`, applied to the page at
    a path by `PageStep`), and a whole run is a function (`Paginate`).
  - The loop itself is the method `GetRepositoryTags`, proved equal to
    `Paginate`.
- `pagination.dfy`: what a whole run promises.
  - The fetched pages form a chain of continuation links.
  - A listing is the in-order concatenation of their tags.
  - Each kind of failure is fatal wherever it occurs.
  - Fuel only cuts runs off.
- `scenarios.dfy`: two concrete registries (two linked pages; a malformed
  `Link` value), the empty-query case, and two links joined on one header
  line.
- `nil_tags.dfy`: the nil-tags behaviour of line 82, shown on a concrete
  registry, and the loop with the error tested instead, proved complete.

The HTTP transport is a parameter `fetch: Client`, a function from request
path to response. `url.Parse` is a parameter `parse: UrlParser`. A response
holds one of:

- a transport failure;
- a status code, the header map and the outcome of decoding the body. That
  outcome is undecodable, decoded with no `Tags` (a nil slice), or decoded
  with a tag sequence.

The method also returns, as a ghost out-parameter, the paths it requested
in order. Its loop is bounded by a `fuel` count of requests.

The model follows the code in three places where the error handling is
easy to misread:

- The status error text is exactly `Invalid status code returned when
  fetching tags list ` followed by the decimal code.
- A body decode failure is returned as the decoder reported it, not wrapped.
- A page whose body decodes without `Tags` ends the call with no tags and
  no error (see Findings).

## Model

| member | source | states |
|---|---|---|
| DockerImage.MakeRepositoryTagsRequest | docker/docker_image.go:45-69 | the page succeeds exactly when the transport answered, the status is 200 and the body decoded; it then carries the body's `Tags` (nil kept as nil) and the `Link` values verbatim in header order; a transport failure becomes that error, any other status an error carrying that status, an undecodable body that decode error |
| DockerImage.Message | docker/docker_image.go:59-103 | the text of each error: the status error is line 59's fixed prefix followed by `%d` of the code, the link error is line 103's fixed text, and the others are passed through; `StatusMessageNamesCode` proves the code reads back from the status text |
| DockerImage.StatusMessageNamesCode | docker/docker_image.go:57-60 | the status error's text is the fixed prefix followed by text from which the status code is read back exactly, negative codes included |
| Decimal.FormatInt | docker/docker_image.go:59 | the `%d` rendering: a `-` for negatives, then the decimal digits without leading zeros; `FormatIntRoundTrip` proves every integer is recovered from it |
| Decimal.FormatIntRoundTrip | docker/docker_image.go:59 | `%d` rendering is inverted by the decimal parser: every integer is recovered from its rendering |
| Decimal.DigitsRoundTrip | docker/docker_image.go:59 | the digits of a natural number read back as that number |
| DockerImage.Advance | docker/docker_image.go:81-105 | one turn of the loop on the page it fetched, with `NextPath` for lines 94-100 (match, `url.Parse`, `Path + "?" + RawQuery`); `AdvanceCases` states the abort, stop and continue cases in both directions, and `OnlyFirstLinkConsulted` that only `linkValue[0]` is read |
| DockerImage.AdvanceCases | docker/docker_image.go:81-105 | one loop turn: a failed page aborts with its error; a page with nil tags aborts with no error; a page with tags stops exactly when it has no `Link` value and continues exactly when its first `Link` value yields a next path, to exactly that path, appending exactly the page's tags |
| DockerImage.Paginate | docker/docker_image.go:80-107 | a run makes at most `fuel` requests, exactly `fuel` when it is cut off, and when it makes any its first request is the start path |
| DockerImage.GetRepositoryTags | docker/docker_image.go:72-110 | the loop returns exactly the outcome and request sequence of `Paginate` from the tags path with nothing gathered |
| LinkHeader.MatchLink | docker/docker_image.go:76-94 | `FindStringSubmatch` with `\A<(.+)>;(.+)\z`: a leading `<`, no newline, and group 1 ending at the right-most `>;` found by `LastSplit`; `MatchLinkSound`, `MatchLinkComplete` and `MatchLinkGreedy` prove it returns a match exactly when one exists, and the greedy one |
| LinkHeader.LastSplitFinds | docker/docker_image.go:76 | the split search returns the right-most `>;` at or below its bound that leaves both groups non-empty, and returns none only when there is none |
| LinkHeader.NewlineFree | docker/docker_image.go:76 | the matcher's scan rejects a value exactly when some character of it is a newline, which `.` does not match |
| LinkHeader.MatchLinkSound | docker/docker_image.go:76 | what the matcher returns is a match: the value is `<` + group 1 + `>;` + group 2, both groups non-empty and free of newlines |
| LinkHeader.MatchLinkComplete | docker/docker_image.go:76 | whenever the value can be read as `<X>;Y`, the matcher finds a match, and its group 1 is at least as long as that X (greedy) |
| LinkHeader.MatchLinkGreedy | docker/docker_image.go:76 | a match whose group 2 holds no `>;` that leaves a later character is exactly the match returned |
| LinkHeader.NoMatchMeansMalformed | docker/docker_image.go:94-103 | when the matcher finds nothing, no reading of the value as `<X>;Y` exists |
| Pagination.RunAlongChain | docker/docker_image.go:80-107 | following a chain of continuing pages to one that does not continue requests exactly the chain's paths and ends as that last page dictates, with the chain's tags appended in order |
| Pagination.RequestedFormChain | docker/docker_image.go:80-107 | conversely, the paths of every finished run form such a chain from the start path |
| Pagination.ListingIsGathered | docker/docker_image.go:86-109 | every listing of a run ends at a page that stopped it, with the tags of every page fetched in order, or at a page that aborted without error, with no tags |
| Pagination.FuelIrrelevant | docker/docker_image.go:80 | a run that finished ends identically under any larger request allowance |
| Pagination.GatheredIsPageTags | docker/docker_image.go:86 | a page that continues or stops a run appends exactly its body's tags |
| Pagination.FetchedTagsAreBodyTags | docker/docker_image.go:86 | along pages that do not abort, the tags appended are the concatenation of the bodies' tags |
| Pagination.ListsEveryPage | docker/docker_image.go:86-90 | k linked pages ending at one with tags and no `Link` value give exactly k requests and their tags concatenated in fetch order, duplicates kept |
| Pagination.FetchErrorIsFatal | docker/docker_image.go:81-84 | a page request that fails on any page of a chain ends the run with that error, whatever was gathered before |
| Pagination.StatusErrorIsFatal | docker/docker_image.go:57-60 | a non-200 status on any page of a chain ends the run with an error carrying that status |
| Pagination.MalformedLinkIsFatal | docker/docker_image.go:102-104 | a first `Link` value that does not match, on any page of a chain, ends the run with the link error |
| Pagination.UnparsableUrlIsFatal | docker/docker_image.go:96-98 | a continuation URI reference that does not parse, on any page of a chain, ends the run with the parser's error |
| Pagination.NilTagsEndsWithEmptyListing | docker/docker_image.go:82-84 | a page that decodes without `Tags`, on any page of a chain, ends the run with an empty listing and no error |
| Pagination.ChainPagesLinked | docker/docker_image.go:88-100 | every page of a chain but the last was a 200 that decoded and carried a `Link` value |
| Pagination.ListingEndCases | docker/docker_image.go:82-90 | a page that ends a listing was a 200 that decoded; it had nil tags exactly when it aborted, and no `Link` value when it stopped |
| Pagination.ListingIsFetchedTags | docker/docker_image.go:80-109 | every listing the loop returns follows pages that were all 200s, all but the last with a `Link` value; it is empty if the last had nil tags, and is otherwise every fetched page's tags in order, the last page having no `Link` value |
| Pagination.OnlyFirstLinkConsulted | docker/docker_image.go:94 | `Link` values after the first never change what a page does |
| Scenarios.NextLinkMatch | docker/docker_image.go:94-96 | the value `</v2/r/tags/list?next=2>; rel="next"` matches with group 1 the bracketed path and group 2 ` rel="next"` |
| Scenarios.TwoPages | docker/docker_image.go:80-109 | page one lists a, b and links to page two, which lists c with no `Link`: the listing is a, b, c from two requests, the second for the linked path |
| Scenarios.MalformedLink | docker/docker_image.go:102-104 | a page listing a with `Link: malformed-value` fails the listing with the link error after one request |
| Scenarios.EmptyQueryKeepsMarker | docker/docker_image.go:100 | the next path keeps the `?` when the linked URL has no query |
| Scenarios.JoinedLinksMatchAsOne | docker/docker_image.go:76 | the value `<a>; rel=next, <b>; rel=prev` matches as a single link: group 1 is `a>; rel=next, <b` and group 2 is ` rel=prev` |
| NilTags.NilTagsPageDropsEarlierPages | docker/docker_image.go:82-84 | page one lists a and links on, page two decodes without `Tags`: the call returns an empty listing and no error although a was fetched |
| NilTags.NilAsEmpty | docker/docker_image.go:82-86 | reading a missing `Tags` as an empty list changes neither a response's success nor its tags, and every successful response then has tags |
| NilTags.BodyTagsChecked | docker/docker_image.go:86 | the tags of any path sequence are the same under that reading |
| NilTags.ListTagsChecked | docker/docker_image.go:80-107 | the loop with `if err != nil { return nil, err }` in place of line 82's nil-tags test, a missing `Tags` read as an empty page; `CheckedListingIsComplete` proves every listing it returns holds every fetched page's tags in order |
| NilTags.CheckedListingIsComplete | docker/docker_image.go:82-84 | with the error tested instead of the tags, every listing returned holds the tags of every page fetched, in fetch order |

## Left out

- `newImage`, `SourceRefFullName` and the `Image` struct (docker/docker_image.go:17-42) only connect other components. `newImageSource` and `image.FromSource` are not part of this model.
- The HTTP transport (`makeRequest`), `context.TODO()` and `defer res.Body.Close()` are I/O and resource handling. A response is an abstract value, and body release is not modelled.
- JSON decoding is not modelled. A body is abstracted to undecodable, decoded without `Tags`, or decoded with a tag sequence.
- `url.Parse` is a parameter. Only its error, `Path` and `RawQuery` are used, and RFC 3986 parsing is not modelled.
- Only the one anchored pattern is modelled, not a general regular-expression engine.
- `tagsPath` and `reference.Path` are defined elsewhere. The start path is an input.
- DockerImage.GetRepositoryTags: the Go loop is unbounded and can run forever on a registry whose links cycle. The model stops after `fuel` requests with `OutOfFuel`, an outcome the Go code does not have. `Pagination.FuelIrrelevant` shows the bound never changes a run that finished.
- Nil and empty slices are both the empty sequence in results and `Link` lists. A body's nil `Tags` is kept distinct from an empty list, because the loop branches on it.
- The stack trace that `errors.Errorf` attaches is not modelled, only the message text.

## Findings

| source | as written | input that shows it | evidently intended | confidence | as-written member | corrected member |
|---|---|---|---|---|---|---|
| docker/docker_image.go:82-84 | the loop tests `tags == nil` rather than `err != nil`, so a page that decodes with no `Tags` field returns `nil, nil` | page `/t` returns 200 with `{"Tags":["a"]}` and `Link: </t?n>;r`, and `url.Parse("/t?n")` gives path `/t` and query `n`; page `/t?n` returns 200 with `{}`. The call returns no tags and no error, and `a` is lost | stop on errors only, and treat a missing `Tags` as an empty page, so the listing holds every fetched page's tags | medium, not executed | NilTags.NilTagsPageDropsEarlierPages | NilTags.CheckedListingIsComplete |
