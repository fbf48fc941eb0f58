# Link previews for go-neb's music service, modelled in Dafny

The music service of go-neb watches chat messages for URLs and answers each
one with up to two Matrix messages: the page's preview image, re-hosted in
the homeserver's media store, and a notice that links the page's title and
description. Everything goes through `fetchURL`, a cached lookup with these steps:

1. Look the exact URL string up in an in-memory cache. On a hit, return the
   stored record.
2. On a miss, parse the URL and build a GET request. The request gets a
   desktop Chrome User-Agent unless the host is `spotify.com`, `youtube.com`,
   `youtu.be` or a subdomain of one of them.
3. Send the request. Require status 200. Read at most 5 MiB of the body.
4. Extract the Open Graph tags. If there is an `og:image`, upload it through
   the Matrix client.
5. If `og:title` is empty, fall back to the first `<title>` element of the
   document. If `og:url` is empty, fall back to the requested URL.
6. Only when every step has succeeded, store the record in the cache.

The two expansion callbacks then turn the lookup's result into an `m.image`
message or an `m.notice`.

Modules:

- `Base`: bytes, `Option`, `Result`, `strings.HasSuffix`, and the fields of
  a Go `url.URL` together with its zero value.
- `Decimal`: how `%d` writes the status code.
- `HtmlTitle`: `isTitleElement`, `traverse` (a recursive function over a
  tree of nodes) and `getHtmlTitle`. The nil dereference at line 56 is an
  explicit `NilDereference` result.
- `UserAgent`: the `Request` object and `SetUseragent`. `SetUseragent`
  loops over the host list and updates the request's header in place.
- `Fetch`: the record types, the cache, web and Matrix-client objects,
  `Lookup` (the whole lookup written as a function), and `FetchUrl`. That
  method performs the steps imperatively, with early returns. It is proved
  to return what `Lookup` returns, to leave the cache and the two logs
  (requests sent, images uploaded) exactly as `Lookup` says, and to keep
  the cache invariant.
- `FetchProperties`: what one lookup, or two lookups of the same URL,
  guarantee.
- `Expansions`: the image and text producers, the round trip of the link
  notice, and how the producers relate to the lookup.

The outside world enters as parameters:
- `url.Parse`, the error of `http.NewRequest`, Metabolize and `html.Parse`
  are total functions in `Fetch.Libraries`;
- the web is `Fetch.Web`, which answers each request through a fixed
  function and logs what was sent;
- `client.UploadLink` is `Fetch.MatrixClient`, which answers each upload
  through a fixed function and logs what was uploaded.

A lookup's outcome is `Fetched(record)`, `Failed(error)` or `Panicked`.
`Panicked` is the run-time panic of `traverse` on a `<title>` element that
has no child, for example `<title></title>`.

Behaviour worth noting, which the model keeps as the code has it:
- A body over 5 MiB is cut to its first 5 MiB and the lookup goes on. It is
  not refused as too large (line 134).
- A failed upload aborts the whole lookup (lines 145-148). So does a
  missing `<title>` when `og:title` is empty (lines 152-156). Neither
  degrades into a partial record.
- The text producer is gated on the title (line 209), and on error it
  always posts an error notice (lines 201-206).

Line 134 passes an `io.LimitedReader` by value, where `ioutil.ReadAll` needs
a pointer (`Read` has a pointer receiver). The model reads the body through
the 5 MiB limited reader that this line evidently means.

## Model

| member | source | states |
|---|---|---|
| `HtmlTitle.IsTitleElement` | src/github.com/matrix-org/go-neb/services/music/music.go:50-52 | an element node whose data is "title" (namespace not consulted) |
| `HtmlTitle.Traverse` | src/github.com/matrix-org/go-neb/services/music/music.go:54-67 | the search itself; what it finds is stated by TraverseFindsFirstTitle |
| `HtmlTitle.TraverseFindsFirstTitle` | src/github.com/matrix-org/go-neb/services/music/music.go:54-67 | traverse returns the result for the first title element in depth-first pre-order (its first child's text, or a nil dereference if it has no child). It returns not-found exactly when no node of the tree is a title element. |
| `HtmlTitle.ChildrenFindFirstTitle` | src/github.com/matrix-org/go-neb/services/music/music.go:59-64 | the sibling loop of traverse returns the result for the first title element in the pre-order of all the children taken in order. It comes back empty exactly when none of them holds a title element. |
| `HtmlTitle.GetHtmlTitle` | src/github.com/matrix-org/go-neb/services/music/music.go:69-81 | a parse error is passed on. "Could not parse title." is returned exactly when the document has no title element. Otherwise the result is the first title's first child's text, or the panic if that title has no child. |
| `HtmlTitle.EmptyTitlePanics` | src/github.com/matrix-org/go-neb/services/music/music.go:55-56 | a document whose title element is empty, `<title></title>`, makes getHtmlTitle panic |
| `UserAgent.SetUseragent` | src/github.com/matrix-org/go-neb/services/music/music.go:83-96 | the header is unchanged exactly when the host equals, or ends with "." plus, one of spotify.com, youtube.com, youtu.be. Otherwise User-Agent is set to the fixed Chrome string. Only the header is modified. |
| `UserAgent.AgentHeader` | src/github.com/matrix-org/go-neb/services/music/music.go:83-95 | the header after the host rule: unchanged for a listed host or subdomain, User-Agent set to the Chrome string otherwise |
| `UserAgent.AgentHeaderKeepsOtherKeys` | src/github.com/matrix-org/go-neb/services/music/music.go:94 | the host rule touches no header key other than User-Agent |
| `UserAgent.PortDefeatsDefaultHosts` | src/github.com/matrix-org/go-neb/services/music/music.go:88-91 | a host that carries a numeric port, such as youtube.com:443, never matches the list, because Host keeps the port |
| `UserAgent.SubdomainKeepsDefault` | src/github.com/matrix-org/go-neb/services/music/music.go:88-91 | every subdomain of a listed host keeps the default agent |
| `UserAgent.LookalikeGetsChrome` | src/github.com/matrix-org/go-neb/services/music/music.go:89-94 | notyoutube.com does not match: the suffix must start with a dot. It gets the Chrome agent. |
| `Fetch.ReadBody` | src/github.com/matrix-org/go-neb/services/music/music.go:134-137 | the body read is a prefix of the stream of at most 5 MiB. A stream of 5 MiB or more is truncated, not refused. A shorter stream is read whole, unless the stream reports an error, which is returned. |
| `Fetch.StatusMessage` | src/github.com/matrix-org/go-neb/services/music/music.go:131 | the text "Status code %d is not 200" |
| `Fetch.StatusMessageNamesCode` | src/github.com/matrix-org/go-neb/services/music/music.go:130-132 | the "Status code %d is not 200" text determines the status code |
| `Decimal.IntToDecimalRoundTrip` | src/github.com/matrix-org/go-neb/services/music/music.go:131 | the %d rendering of an integer reads back as that integer |
| `Fetch.Retrieve` | src/github.com/matrix-org/go-neb/services/music/music.go:113-137 | each failing step before extraction ends the retrieval with its own error, tagged with the step: the URL parse, the request build, the send, a status other than 200 (with "Status code N is not 200") and the body read. A body is returned only after exactly one request answered with status 200. |
| `Fetch.UrlCache.constructor` | src/github.com/matrix-org/go-neb/services/music/music.go:168 | a new cache is empty and coherent |
| `Fetch.UrlCache.Get` | src/github.com/matrix-org/go-neb/services/music/music.go:104 | found exactly when the key is stored, and then the stored record |
| `Fetch.UrlCache.Set` | src/github.com/matrix-org/go-neb/services/music/music.go:163 | the key maps to the value and no other key changes; storing a coherent record keeps the cache coherent |
| `Fetch.Web.Do` | src/github.com/matrix-org/go-neb/services/music/music.go:125 | the request is logged as it goes out, and the web's answer to it is returned |
| `Fetch.MatrixClient.UploadLink` | src/github.com/matrix-org/go-neb/services/music/music.go:145 | the image is logged as uploaded, and the client's answer to it is returned |
| `Fetch.Lookup` | src/github.com/matrix-org/go-neb/services/music/music.go:98-165 | one call of fetchURL as a function of the cache and the oracles; its properties are the FetchProperties rows |
| `Fetch.FetchUrl` | src/github.com/matrix-org/go-neb/services/music/music.go:98-165 | the outcome, the new cache contents, the requests appended to the web's log and the images appended to the client's log are exactly those of `Fetch.Lookup` on the old cache. The cache stays coherent. |
| `FetchProperties.HitChangesNothing` | src/github.com/matrix-org/go-neb/services/music/music.go:104-107 | a hit returns the stored record. It sends nothing, uploads nothing and writes nothing. |
| `FetchProperties.FailuresAreNotCached` | src/github.com/matrix-org/go-neb/services/music/music.go:113-157 | a lookup that ends in an error or a panic leaves the cache exactly as it was |
| `FetchProperties.SuccessWritesOneKey` | src/github.com/matrix-org/go-neb/services/music/music.go:163-164 | after a success the URL maps to the returned record. The key set grows by at most that URL, and every other key keeps its record. |
| `FetchProperties.MissSendsOneRequest` | src/github.com/matrix-org/go-neb/services/music/music.go:113-128 | a miss calls httpClient.Do exactly once, with a GET for the URL carrying the header the host rule gives, once the URL parsed and the request was built. If either step failed, it calls Do not at all and fails. |
| `FetchProperties.UploadsExactlyTheImage` | src/github.com/matrix-org/go-neb/services/music/music.go:144-150 | on a miss the client is asked to upload exactly once, and exactly the extracted image, when extraction succeeded and the image is not the zero URL. Otherwise it is not asked at all. |
| `FetchProperties.MissRecord` | src/github.com/matrix-org/go-neb/services/music/music.go:139-161 | the record of a successful miss is the extracted tags, with three fields filled in. UploadedUrl is the content URI of the upload, or "" when there is no image. The title is og:title, or the HTML title when og:title is empty. The URL is og:url, or the requested URL when og:url is empty. |
| `FetchProperties.MissFailsWithStepError` | src/github.com/matrix-org/go-neb/services/music/music.go:113-157 | a miss fails with the error of the step that failed: the URL parse, the request build, the send, the status check and the body read through the retrieval's error, and Metabolize with its own error. A panic happens only when og:title is empty and the HTML title lookup dereferences the missing child of a title element. |
| `FetchProperties.FailedUploadAborts` | src/github.com/matrix-org/go-neb/services/music/music.go:144-148 | a failed upload makes the lookup fail with the client's error and leaves the cache unchanged |
| `FetchProperties.NonOkStatusFails` | src/github.com/matrix-org/go-neb/services/music/music.go:130-132 | a status other than 200 fails with "Status code N is not 200". Nothing is uploaded and nothing is cached. |
| `FetchProperties.OversizedBodyIsTruncated` | src/github.com/matrix-org/go-neb/services/music/music.go:134-137 | a 200 response whose body stream has 5 MiB or more goes on with its first 5 MiB |
| `FetchProperties.LookupKeepsCoherent` | src/github.com/matrix-org/go-neb/services/music/music.go:144-163 | the cache stays coherent after a lookup: a record has an uploaded image only if it has an image, and it has a URL unless its key is empty |
| `FetchProperties.SecondLookupHits` | src/github.com/matrix-org/go-neb/services/music/music.go:104-164 | after a success, looking the same URL up again returns the same record. It sends no request, makes no upload and does not change the cache. |
| `FetchProperties.FailuresAreRetried` | src/github.com/matrix-org/go-neb/services/music/music.go:113-157 | a failed lookup leaves no trace: whatever the web and the client answer later, the next lookup of any URL behaves as if the failed one had never happened |
| `FetchProperties.FailureRepeats` | src/github.com/matrix-org/go-neb/services/music/music.go:113-157 | with the same answers from the web and the client, a failed miss is repeated in full, with the same request and the same uploads |
| `FetchProperties.MissSucceedsWhenEveryStepDoes` | src/github.com/matrix-org/go-neb/services/music/music.go:139-165 | a miss whose body read, extraction and upload (if any) succeed returns a record when og:title is non-empty. When og:title is empty, the HTML title decides: a title gives a record, an error fails with that error, a childless title panics. |
| `FetchProperties.UploadThenMissingTitle` | src/github.com/matrix-org/go-neb/services/music/music.go:144-157 | a page with an image and no title at all has its image uploaded, then fails with "Could not parse title." and caches nothing |
| `Expansions.ImageExpansion` | src/github.com/matrix-org/go-neb/services/music/music.go:174-195 | an image message exists exactly when the lookup returned a record with a non-empty UploadedUrl. It is an m.image with an empty body, that URL and size 120×120. |
| `Expansions.TextExpansion` | src/github.com/matrix-org/go-neb/services/music/music.go:199-218 | there is no message exactly when the lookup returned a record with an empty title. An error gives the m.notice "Error fetching: " followed by the error. A record gives the link notice. |
| `Expansions.NoticeBody` | src/github.com/matrix-org/go-neb/services/music/music.go:216 | the link notice `<a href="URL">Title</a><br>Description`; read back by NoticeRoundTrip |
| `Expansions.NoticeRoundTrip` | src/github.com/matrix-org/go-neb/services/music/music.go:214-217 | the link notice gives back the record's URL, title and description, as long as the URL holds no `"` and the title no `<` |
| `Expansions.ImagePreviewNeedsImage` | src/github.com/matrix-org/go-neb/services/music/music.go:181-189 | with a coherent cache, an image message is only produced for a record whose image is not the zero URL. On a miss, that lookup uploaded the image and the message carries the upload's content URI. |
| `Expansions.CallbacksLookUpTwice` | src/github.com/matrix-org/go-neb/services/music/music.go:174-175 | the image callback and the text callback each look the URL up, each with the answers the web and the client give at that time. After a success the second lookup is a hit on the same record, whatever they answer. After a failure the second lookup is a fresh lookup on its own answers, as if the first had not happened. When both lookups get the same answers, a failed miss is repeated in full and the text callback sees the same outcome as the image callback. |
| `Expansions.BadStatusNotice` | src/github.com/matrix-org/go-neb/services/music/music.go:200-206 | a page answered with status 500 yields the notice "Error fetching: Status code 500 is not 200" and no image |

## Left out

- The mutex held across `fetchURL` (lines 99-100): each lookup is modelled as one atomic call.
- The cache's 5-minute expiry and 10-minute janitor (line 168): cached records never expire in this model.
- The HTTP client, its 3-second timeout (line 110) and the network: the web is an oracle from request to response or error. Redirects that `http.Client.Do` follows (each a further GET carrying the same User-Agent) happen inside that oracle; the log records one `Do` call per miss.
- The response's headers and content type are not modelled: nothing in the code reads them.
- The response body is never closed. That leak is not modelled.
- URL detection with `xurls.Strict()` (line 28), and how the framework hands `urlGroups[0]` to the callbacks.
- Metabolize's tag extraction (line 139) is an oracle, including its preference between `og:description` and `description` (line 35) and how it parses numbers.
- `html.Parse` (line 70) is an oracle that yields a node tree. Node namespaces and attributes are dropped because `isTitleElement` ignores them.
- `url.Parse`, `http.NewRequest` and `URL.String()` are oracles. The upload oracle receives the `url.URL` itself rather than its string form.
- Go's canonicalisation of header keys is not modelled: `User-Agent` is already in canonical form.
- `VideoWidth` and `VideoHeight` are unbounded integers, not `int64`: the model does no arithmetic on them.
- `*MetaData` pointer identity: records are values. The code never changes a record after storing it (line 163), so the values behave like the shared pointers.
- Building the gomatrix messages, including the plain-text body that `GetHTMLMessage` derives: a message is modelled by its type and formatted body.
- Logging (lines 177, 182, 210) and the service registration in `init` (lines 223-229).
- How a panic propagates beyond `fetchURL`: the producers take only a returned result.
- Expansions.ImageExpansion: takes the outcome of one lookup; the callback at line 175 makes that lookup itself, so a detected URL is looked up once per callback (the pairing is stated by Expansions.CallbacksLookUpTwice).
- Expansions.CallbacksLookUpTwice: the two lookups are related for any pair of answers from the web and the client, but each lookup's answers are one fixed function per lookup, so a change of answer in the middle of one lookup is not captured.
- Fetch.Web: the web and the Matrix client answer through fixed functions of the request and of the image. Within one `Web` or `MatrixClient` object the same request always gets the same answer, so a transient failure followed by a success needs two objects (as in Expansions.CallbacksLookUpTwice), and timing is not modelled.
- Expansions.TextExpansion: likewise takes the outcome of the callback's own lookup at line 200; for a failing URL that second lookup repeats the fetch and any upload of the first.
- The GitHub realm (`realms/github/github.go`): an OAuth redirect handler that does only I/O (session storage, a token exchange over HTTP, random state). It has no logic of the preview pipeline.
