/** What fetchURL promises, stated over Fetch.Lookup: the behaviour of a
    hit, the fate of the cache after a failure or a success, when the image
    is uploaded, the title and URL fallbacks, and what a second lookup of
    the same URL does. */
module FetchProperties {
  import opened Base
  import opened HtmlTitle
  import opened UserAgent
  import opened Fetch

  /** A hit returns the stored record and sends, uploads and writes nothing. */
  lemma HitChangesNothing(store: map<string, MetaData>, fetchUrl: string, libs: Libraries,
                          respond: SentRequest -> Result<Response, string>, upload: Url -> Result<string, string>)
    requires fetchUrl in store
    ensures Lookup(store, fetchUrl, libs, respond, upload) == Call(Fetched(store[fetchUrl]), store, [], [])
  {
  }

  /** A lookup that does not return a record leaves the cache exactly as it was. */
  lemma FailuresAreNotCached(store: map<string, MetaData>, fetchUrl: string, libs: Libraries,
                             respond: SentRequest -> Result<Response, string>, upload: Url -> Result<string, string>)
    ensures var c := Lookup(store, fetchUrl, libs, respond, upload);
            !c.outcome.Fetched? ==> c.store == store
  {
  }

  /** A successful lookup maps the URL to the returned record and changes no
      other key; on a hit it writes nothing at all. */
  lemma SuccessWritesOneKey(store: map<string, MetaData>, fetchUrl: string, libs: Libraries,
                            respond: SentRequest -> Result<Response, string>, upload: Url -> Result<string, string>)
    ensures var c := Lookup(store, fetchUrl, libs, respond, upload);
            c.outcome.Fetched? ==>
              && fetchUrl in c.store && c.store[fetchUrl] == c.outcome.meta
              && c.store.Keys == store.Keys + {fetchUrl}
              && (forall k :: k in store && k != fetchUrl ==> c.store[k] == store[k])
  {
  }

  /** A miss sends exactly one request, carrying the agent the host rule
      picks, once the URL parsed and the request was built; none otherwise. */
  lemma MissSendsOneRequest(store: map<string, MetaData>, fetchUrl: string, libs: Libraries,
                            respond: SentRequest -> Result<Response, string>, upload: Url -> Result<string, string>)
    requires fetchUrl !in store
    ensures var c := Lookup(store, fetchUrl, libs, respond, upload);
            if libs.parseUrl(fetchUrl).Ok? && libs.newRequestError(fetchUrl).None? then
              c.sent == [SentRequest("GET", fetchUrl, AgentHeader(libs.parseUrl(fetchUrl).value.host, map[]))]
            else c.sent == [] && c.outcome.Failed?
  {
  }

  /** The client is asked to upload exactly when the extracted image is not
      the zero URL, and then exactly that image, once. */
  lemma UploadsExactlyTheImage(store: map<string, MetaData>, fetchUrl: string, libs: Libraries,
                               respond: SentRequest -> Result<Response, string>, upload: Url -> Result<string, string>)
    requires fetchUrl !in store
    ensures var c := Lookup(store, fetchUrl, libs, respond, upload);
            var r := Retrieve(fetchUrl, libs, respond);
            c.uploaded ==
              if r.body.Ok? && libs.metabolize(r.body.value).Ok? && libs.metabolize(r.body.value).value.image != ZeroUrl
              then [libs.metabolize(r.body.value).value.image]
              else []
  {
  }

  /** The record a miss returns: the extracted tags, with the content URI of
      the uploaded image (or ""), the HTML title when og:title was empty, and
      the requested URL when og:url was empty. */
  lemma MissRecord(store: map<string, MetaData>, fetchUrl: string, libs: Libraries,
                   respond: SentRequest -> Result<Response, string>, upload: Url -> Result<string, string>)
    requires fetchUrl !in store
    ensures var c := Lookup(store, fetchUrl, libs, respond, upload);
            var r := Retrieve(fetchUrl, libs, respond);
            c.outcome.Fetched? ==>
              && r.body.Ok? && libs.metabolize(r.body.value).Ok?
              && var tags := libs.metabolize(r.body.value).value;
                 var m := c.outcome.meta;
                 && m.uploadedUrl == (if tags.image != ZeroUrl then upload(tags.image).value else "")
                 && (tags.image != ZeroUrl ==> upload(tags.image).Ok?)
                 && (tags.title != "" ==> m.title == tags.title)
                 && (tags.title == "" ==> GetHtmlTitle(libs.parseHtml(r.body.value)) == Title(m.title))
                 && m.url == (if tags.url != "" then tags.url else fetchUrl)
                 && m.description == tags.description && m.ogType == tags.ogType && m.image == tags.image
                 && m.videoWidth == tags.videoWidth && m.videoHeight == tags.videoHeight
  {
  }

  /** The converse of MissRecord: a miss whose every step succeeds returns a
      record. The HTML title is consulted, and can abort or panic, only when
      og:title is empty. */
  lemma MissSucceedsWhenEveryStepDoes(store: map<string, MetaData>, fetchUrl: string, libs: Libraries,
                                      respond: SentRequest -> Result<Response, string>,
                                      upload: Url -> Result<string, string>)
    requires fetchUrl !in store
    ensures var c := Lookup(store, fetchUrl, libs, respond, upload);
            var r := Retrieve(fetchUrl, libs, respond);
            r.body.Ok? && libs.metabolize(r.body.value).Ok? ==>
              var tags := libs.metabolize(r.body.value).value;
              (tags.image != ZeroUrl ==> upload(tags.image).Ok?) ==>
                && (tags.title != "" ==> c.outcome.Fetched?)
                && (tags.title == "" ==>
                      match GetHtmlTitle(libs.parseHtml(r.body.value))
                      case Title(_) => c.outcome.Fetched?
                      case TitleError(e) => c.outcome == Failed(Error(AtTitle, e))
                      case TitlePanic => c.outcome.Panicked?)
  {
  }

  /** Every failing step of a miss ends it with that step's own error: the
      URL parse, the request build, the send and the body read through the
      retrieval's error, Metabolize with its error. A panic comes only from
      the title fallback, when og:title is empty and the first title element
      has no child. */
  lemma MissFailsWithStepError(store: map<string, MetaData>, fetchUrl: string, libs: Libraries,
                               respond: SentRequest -> Result<Response, string>,
                               upload: Url -> Result<string, string>)
    requires fetchUrl !in store
    ensures var c := Lookup(store, fetchUrl, libs, respond, upload);
            var r := Retrieve(fetchUrl, libs, respond);
            && (libs.parseUrl(fetchUrl).Err? ==> c.outcome == Failed(Error(AtParse, libs.parseUrl(fetchUrl).error)))
            && (libs.parseUrl(fetchUrl).Ok? && libs.newRequestError(fetchUrl).Some? ==>
                  c.outcome == Failed(Error(AtRequest, libs.newRequestError(fetchUrl).value)))
            && (r.body.Err? ==> c.outcome == Failed(r.body.error))
            && (r.body.Ok? && libs.metabolize(r.body.value).Err? ==>
                  c.outcome == Failed(Error(AtExtract, libs.metabolize(r.body.value).error)))
            && (c.outcome.Panicked? ==>
                  && r.body.Ok? && libs.metabolize(r.body.value).Ok?
                  && libs.metabolize(r.body.value).value.title == ""
                  && GetHtmlTitle(libs.parseHtml(r.body.value)) == TitlePanic)
  {
  }

  /** A failed upload ends the lookup with the client's error. */
  lemma FailedUploadAborts(store: map<string, MetaData>, fetchUrl: string, libs: Libraries,
                           respond: SentRequest -> Result<Response, string>, upload: Url -> Result<string, string>)
    requires fetchUrl !in store
    ensures var c := Lookup(store, fetchUrl, libs, respond, upload);
            var r := Retrieve(fetchUrl, libs, respond);
            r.body.Ok? && libs.metabolize(r.body.value).Ok? ==>
              var image := libs.metabolize(r.body.value).value.image;
              image != ZeroUrl && upload(image).Err? ==>
                c.outcome == Failed(Error(AtUpload, upload(image).error)) && c.store == store
  {
  }

  /** A status other than 200 ends the lookup with "Status code N is not 200". */
  lemma NonOkStatusFails(store: map<string, MetaData>, fetchUrl: string, libs: Libraries,
                         respond: SentRequest -> Result<Response, string>, upload: Url -> Result<string, string>,
                         res: Response)
    requires fetchUrl !in store
    requires libs.parseUrl(fetchUrl).Ok? && libs.newRequestError(fetchUrl).None?
    requires respond(SentRequest("GET", fetchUrl, AgentHeader(libs.parseUrl(fetchUrl).value.host, map[]))) == Ok(res)
    requires res.statusCode != 200
    ensures var c := Lookup(store, fetchUrl, libs, respond, upload);
            c.outcome == Failed(Error(AtStatus, StatusMessage(res.statusCode)))
            && c.store == store && c.uploaded == []
  {
  }

  /** A body of 5 MiB or more is not refused: the lookup goes on with its
      first 5 MiB. */
  lemma OversizedBodyIsTruncated(fetchUrl: string, libs: Libraries,
                                 respond: SentRequest -> Result<Response, string>, res: Response)
    requires libs.parseUrl(fetchUrl).Ok? && libs.newRequestError(fetchUrl).None?
    requires respond(SentRequest("GET", fetchUrl, AgentHeader(libs.parseUrl(fetchUrl).value.host, map[]))) == Ok(res)
    requires res.statusCode == 200 && |res.stream| >= MaxBodyBytes
    ensures Retrieve(fetchUrl, libs, respond).body == Ok(res.stream[..MaxBodyBytes])
  {
  }

  /** Every record a lookup leaves in the cache is coherent: an uploaded
      image is never recorded for a page without an image. */
  lemma {:induction false} LookupKeepsCoherent(store: map<string, MetaData>, fetchUrl: string, libs: Libraries,
                                               respond: SentRequest -> Result<Response, string>,
                                               upload: Url -> Result<string, string>)
    requires Coherent(store)
    ensures var c := Lookup(store, fetchUrl, libs, respond, upload);
            Coherent(c.store) && (c.outcome.Fetched? ==> CoherentEntry(fetchUrl, c.outcome.meta))
  {
    var c := Lookup(store, fetchUrl, libs, respond, upload);
    if fetchUrl !in store && c.outcome.Fetched? {
      MissRecord(store, fetchUrl, libs, respond, upload);
    }
  }

  /** After a successful lookup, a second lookup of the same URL is a hit:
      the same record, no request, no upload, no write. */
  lemma SecondLookupHits(store: map<string, MetaData>, fetchUrl: string, libs: Libraries,
                         respond: SentRequest -> Result<Response, string>, upload: Url -> Result<string, string>)
    ensures var c := Lookup(store, fetchUrl, libs, respond, upload);
            c.outcome.Fetched? ==>
              Lookup(c.store, fetchUrl, libs, respond, upload) == Call(c.outcome, c.store, [], [])
  {
  }

  /** A failed lookup leaves no trace: whatever the web and the client
      answer later, the next lookup of any URL behaves as if the failed one
      had never happened, so a failed URL is tried again from scratch. */
  lemma FailuresAreRetried(store: map<string, MetaData>, fetchUrl: string, libs: Libraries,
                           respond: SentRequest -> Result<Response, string>, upload: Url -> Result<string, string>,
                           nextUrl: string, respond2: SentRequest -> Result<Response, string>,
                           upload2: Url -> Result<string, string>)
    ensures var c := Lookup(store, fetchUrl, libs, respond, upload);
            !c.outcome.Fetched? ==>
              Lookup(c.store, nextUrl, libs, respond2, upload2) == Lookup(store, nextUrl, libs, respond2, upload2)
  {
  }

  /** With the same answers from the web and the client, a failed miss is
      repeated in full: the same request is sent and the same uploads made. */
  lemma FailureRepeats(store: map<string, MetaData>, fetchUrl: string, libs: Libraries,
                       respond: SentRequest -> Result<Response, string>, upload: Url -> Result<string, string>)
    requires fetchUrl !in store
    ensures var c := Lookup(store, fetchUrl, libs, respond, upload);
            !c.outcome.Fetched? ==> Lookup(c.store, fetchUrl, libs, respond, upload) == c
  {
  }

  /** The upload happens before the title fallback: a page with an image
      and no title at all uploads the image and still fails, and nothing is
      cached. */
  lemma UploadThenMissingTitle()
    ensures
      var image := ZeroUrl.(scheme := "http", host := "example.com", path := "/a.png");
      var libs := Libraries(
        _ => Ok(ZeroUrl.(scheme := "http", host := "example.com", path := "/a")),
        _ => None,
        _ => Ok(Tags("", "", "", "", image, 0, 0)),
        _ => Ok(Node(DocumentNode, "", [])));
      var c := Lookup(map[], "http://example.com/a", libs,
                      _ => Ok(Response(200, [], None)), _ => Ok("mxc://example.org/abc"));
      && c.outcome == Failed(Error(AtTitle, CouldNotParseTitle))
      && c.uploaded == [image]
      && c.store == map[]
  {
  }
}
