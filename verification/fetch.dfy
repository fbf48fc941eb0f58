/** fetchURL: look the URL up in the preview cache; on a miss fetch the
    page, extract its Open Graph metadata, re-host the preview image, fall
    back to the HTML title and to the requested URL, and cache the record
    only when every step succeeded.

    The outside world enters as oracles: url.Parse, http.NewRequest's error,
    Metabolize and html.Parse as the pure functions of `Libraries`; the web
    as a `Web` object that answers each request and logs it; the Matrix
    client as a `MatrixClient` that answers each upload and logs it. */
module Fetch {
  import opened Base
  import opened Decimal
  import opened HtmlTitle
  import opened UserAgent

  /** The Open Graph tags Metabolize fills in: the tagged fields of MetaData. */
  datatype Tags = Tags(
    title: string,
    description: string,
    ogType: string,
    url: string,
    image: Url,
    videoWidth: int,
    videoHeight: int)

  /** A link preview record. `uploadedUrl` carries no tag: only fetchURL sets it. */
  datatype MetaData = MetaData(
    title: string,
    description: string,
    ogType: string,
    url: string,
    image: Url,
    videoWidth: int,
    videoHeight: int,
    uploadedUrl: string)

  /** The record after Metabolize has filled a fresh, zeroed MetaData. */
  function FromTags(t: Tags): MetaData {
    MetaData(t.title, t.description, t.ogType, t.url, t.image, t.videoWidth, t.videoHeight, "")
  }

  /** The cap of the limited reader the body is read through: 5 MiB. */
  const MaxBodyBytes: nat := 5 * 1024 * 1024

  /** An HTTP response: its status, the bytes its body stream delivers, and
      the error the stream raises after them, if any. */
  datatype Response = Response(statusCode: int, stream: seq<byte>, readError: Option<string>)

  /** ioutil.ReadAll through a reader limited to MaxBodyBytes: a longer body
      is cut to its first MaxBodyBytes bytes and the limited reader stops
      before the stream could report an error. */
  function ReadBody(res: Response): (r: Result<seq<byte>, string>)
    ensures r.Ok? ==> |r.value| <= MaxBodyBytes && r.value <= res.stream
    ensures |res.stream| >= MaxBodyBytes ==> r.Ok? && |r.value| == MaxBodyBytes
    ensures |res.stream| < MaxBodyBytes ==> (r.Err? <==> res.readError.Some?)
    ensures r.Err? ==> res.readError == Some(r.error)
    ensures r.Ok? && |res.stream| < MaxBodyBytes ==> r.value == res.stream
  {
    if |res.stream| >= MaxBodyBytes then Ok(res.stream[..MaxBodyBytes])
    else match res.readError
      case Some(e) => Err(e)
      case None => Ok(res.stream)
  }

  /** The step of fetchURL an error comes from. */
  datatype Stage = AtParse | AtRequest | AtSend | AtStatus | AtRead | AtExtract | AtUpload | AtTitle

  /** An error fetchURL returns; `message` is what err.Error() gives. */
  datatype Error = Error(stage: Stage, message: string)

  /** How a call of fetchURL ends: a record, an error, or a panic out of traverse. */
  datatype Outcome = Fetched(meta: MetaData) | Failed(err: Error) | Panicked

  /** The error text for a status other than 200. */
  function StatusMessage(code: int): string {
    "Status code " + IntToDecimal(code) + " is not 200"
  }

  /** The status error names the status it was raised for. */
  lemma StatusMessageNamesCode(a: int, b: int)
    requires StatusMessage(a) == StatusMessage(b)
    ensures a == b
  {
    var pre := "Status code ";
    var post := " is not 200";
    assert IntToDecimal(a) == StatusMessage(a)[|pre|..|StatusMessage(a)| - |post|];
    assert IntToDecimal(b) == StatusMessage(b)[|pre|..|StatusMessage(b)| - |post|];
    IntToDecimalInjective(a, b);
  }

  /** Foreign library calls, as pure functions of their input. */
  datatype Libraries = Libraries(
    parseUrl: string -> Result<Url, string>,
    newRequestError: string -> Option<string>,
    metabolize: seq<byte> -> Result<Tags, string>,
    parseHtml: seq<byte> -> Result<Node, string>)

  /** The preview cache: exact URL string to record. */
  class UrlCache {
    var entries: map<string, MetaData>

    /** Every cached record has the two properties every record fetchURL stores has. */
    ghost predicate Valid()
      reads this
    {
      Coherent(entries)
    }

    constructor ()
      ensures entries == map[] && Valid()
    {
      entries := map[];
    }

    /** urlCache.Get(key). */
    method Get(key: string) returns (r: Option<MetaData>)
      ensures r.Some? <==> key in entries
      ensures r.Some? ==> r.value == entries[key]
    {
      if key in entries {
        r := Some(entries[key]);
      } else {
        r := None;
      }
    }

    /** urlCache.Set(key, value, ...). */
    method Set(key: string, value: MetaData)
      requires Valid() && CoherentEntry(key, value)
      modifies this
      ensures Valid()
      ensures entries == old(entries)[key := value]
    {
      entries := entries[key := value];
    }
  }

  /** The remote web: answers every request and keeps a log of what was sent. */
  class Web {
    const respond: SentRequest -> Result<Response, string>
    var sent: seq<SentRequest>

    constructor (respond: SentRequest -> Result<Response, string>)
      ensures this.respond == respond && sent == []
    {
      this.respond := respond;
      sent := [];
    }

    /** httpClient.Do(req). */
    method Do(req: Request) returns (r: Result<Response, string>)
      modifies this
      ensures sent == old(sent) + [req.Sent()]
      ensures r == respond(req.Sent())
    {
      sent := sent + [req.Sent()];
      r := respond(req.Sent());
    }
  }

  /** The Matrix client's media upload: answers with a content URI or an
      error, and keeps a log of the images it was asked to fetch. */
  class MatrixClient {
    const respond: Url -> Result<string, string>
    var uploaded: seq<Url>

    constructor (respond: Url -> Result<string, string>)
      ensures this.respond == respond && uploaded == []
    {
      this.respond := respond;
      uploaded := [];
    }

    /** client.UploadLink(image.String()); the result is the ContentURI. */
    method UploadLink(image: Url) returns (r: Result<string, string>)
      modifies this
      ensures uploaded == old(uploaded) + [image]
      ensures r == respond(image)
    {
      uploaded := uploaded + [image];
      r := respond(image);
    }
  }

  /** A record a successful lookup of `key` can produce: an uploaded image
      only where there was an image, and a URL unless the key itself is empty. */
  predicate CoherentEntry(key: string, m: MetaData) {
    (m.uploadedUrl != "" ==> m.image != ZeroUrl) && (m.url != "" || key == "")
  }

  predicate Coherent(store: map<string, MetaData>) {
    forall k :: k in store ==> CoherentEntry(k, store[k])
  }

  // ---------------------------------------------------------------------
  // The lookup as a function of the cache, the URL and the oracles.
  // ---------------------------------------------------------------------

  /** The body a miss reads, and the requests it sends on the way. */
  datatype Retrieval = Retrieval(body: Result<seq<byte>, Error>, sent: seq<SentRequest>)

  /** Parse the URL, build and send the GET, check the status, read the body. */
  function Retrieve(fetchUrl: string, libs: Libraries, respond: SentRequest -> Result<Response, string>): (r: Retrieval)
    ensures libs.parseUrl(fetchUrl).Err? ==> r.body == Err(Error(AtParse, libs.parseUrl(fetchUrl).error))
    ensures libs.parseUrl(fetchUrl).Ok? && libs.newRequestError(fetchUrl).Some? ==>
              r.body == Err(Error(AtRequest, libs.newRequestError(fetchUrl).value))
    ensures r.sent != [] ==> respond(r.sent[0]).Err? ==> r.body == Err(Error(AtSend, respond(r.sent[0]).error))
    ensures r.sent != [] ==> respond(r.sent[0]).Ok? && respond(r.sent[0]).value.statusCode != 200 ==>
              r.body == Err(Error(AtStatus, StatusMessage(respond(r.sent[0]).value.statusCode)))
    ensures r.sent != [] ==> respond(r.sent[0]).Ok? && respond(r.sent[0]).value.statusCode == 200 ==>
              match ReadBody(respond(r.sent[0]).value)
              case Err(e) => r.body == Err(Error(AtRead, e))
              case Ok(body) => r.body == Ok(body)
    ensures r.body.Ok? ==> |r.sent| == 1 && respond(r.sent[0]).Ok? && respond(r.sent[0]).value.statusCode == 200
  {
    match libs.parseUrl(fetchUrl)
    case Err(e) => Retrieval(Err(Error(AtParse, e)), [])
    case Ok(parsed) =>
      match libs.newRequestError(fetchUrl)
      case Some(e) => Retrieval(Err(Error(AtRequest, e)), [])
      case None =>
        var req := SentRequest("GET", fetchUrl, AgentHeader(parsed.host, map[]));
        match respond(req)
        case Err(e) => Retrieval(Err(Error(AtSend, e)), [req])
        case Ok(res) =>
          if res.statusCode != 200 then Retrieval(Err(Error(AtStatus, StatusMessage(res.statusCode))), [req])
          else match ReadBody(res)
            case Err(e) => Retrieval(Err(Error(AtRead, e)), [req])
            case Ok(body) => Retrieval(Ok(body), [req])
  }

  /** The record after the image step, and the images handed to the client. */
  datatype Relocation = Relocation(meta: Result<MetaData, Error>, uploaded: seq<Url>)

  /** Upload the image when there is one; a failed upload is an error. */
  function Relocate(meta: MetaData, upload: Url -> Result<string, string>): Relocation {
    if meta.image == ZeroUrl then Relocation(Ok(meta), [])
    else match upload(meta.image)
      case Err(e) => Relocation(Err(Error(AtUpload, e)), [meta.image])
      case Ok(uri) => Relocation(Ok(meta.(uploadedUrl := uri)), [meta.image])
  }

  /** An empty og:url falls back to the requested URL. */
  function WithUrlFallback(meta: MetaData, fetchUrl: string): MetaData {
    if meta.url == "" then meta.(url := fetchUrl) else meta
  }

  /** An empty og:title falls back to the HTML title, then the URL fallback. */
  function ApplyFallbacks(meta: MetaData, body: seq<byte>, fetchUrl: string, libs: Libraries): Outcome {
    if meta.title == "" then
      match GetHtmlTitle(libs.parseHtml(body))
      case Title(t) => Fetched(WithUrlFallback(meta.(title := t), fetchUrl))
      case TitleError(e) => Failed(Error(AtTitle, e))
      case TitlePanic => Panicked
    else Fetched(WithUrlFallback(meta, fetchUrl))
  }

  /** What one cache miss does, apart from writing the cache. */
  datatype Attempt = Attempt(outcome: Outcome, sent: seq<SentRequest>, uploaded: seq<Url>)

  function Miss(fetchUrl: string, libs: Libraries, respond: SentRequest -> Result<Response, string>,
                upload: Url -> Result<string, string>): Attempt
  {
    var r := Retrieve(fetchUrl, libs, respond);
    match r.body
    case Err(e) => Attempt(Failed(e), r.sent, [])
    case Ok(body) =>
      match libs.metabolize(body)
      case Err(e) => Attempt(Failed(Error(AtExtract, e)), r.sent, [])
      case Ok(tags) =>
        var u := Relocate(FromTags(tags), upload);
        match u.meta
        case Err(e) => Attempt(Failed(e), r.sent, u.uploaded)
        case Ok(meta) => Attempt(ApplyFallbacks(meta, body, fetchUrl, libs), r.sent, u.uploaded)
  }

  /** One call of fetchURL: its outcome, the cache after it, and the
      requests and uploads it made. */
  datatype Call = Call(outcome: Outcome, store: map<string, MetaData>, sent: seq<SentRequest>, uploaded: seq<Url>)

  function Lookup(store: map<string, MetaData>, fetchUrl: string, libs: Libraries,
                  respond: SentRequest -> Result<Response, string>, upload: Url -> Result<string, string>): Call
  {
    if fetchUrl in store then Call(Fetched(store[fetchUrl]), store, [], [])
    else
      var a := Miss(fetchUrl, libs, respond, upload);
      Call(a.outcome, if a.outcome.Fetched? then store[fetchUrl := a.outcome.meta] else store, a.sent, a.uploaded)
  }

  // ---------------------------------------------------------------------
  // fetchURL itself.
  // ---------------------------------------------------------------------

  /** fetchURL(client, lock, urlCache, fetchUrl), one call at a time. */
  method FetchUrl(client: MatrixClient, cache: UrlCache, web: Web, libs: Libraries, fetchUrl: string)
    returns (outcome: Outcome)
    requires cache.Valid()
    modifies client, cache, web
    ensures cache.Valid()
    ensures var c := Lookup(old(cache.entries), fetchUrl, libs, web.respond, client.respond);
            && outcome == c.outcome
            && cache.entries == c.store
            && web.sent == old(web.sent) + c.sent
            && client.uploaded == old(client.uploaded) + c.uploaded
  {
    var cached := cache.Get(fetchUrl);
    if cached.Some? {
      return Fetched(cached.value);
    }

    var parsedUrl := libs.parseUrl(fetchUrl);
    if parsedUrl.Err? {
      return Failed(Error(AtParse, parsedUrl.error));
    }

    var requestError := libs.newRequestError(fetchUrl);
    if requestError.Some? {
      return Failed(Error(AtRequest, requestError.value));
    }
    var req := new Request("GET", fetchUrl);

    SetUseragent(parsedUrl.value, req);

    var res := web.Do(req);
    if res.Err? {
      return Failed(Error(AtSend, res.error));
    }

    if res.value.statusCode != 200 {
      return Failed(Error(AtStatus, StatusMessage(res.value.statusCode)));
    }

    var body := ReadBody(res.value);
    if body.Err? {
      return Failed(Error(AtRead, body.error));
    }

    var tags := libs.metabolize(body.value);
    if tags.Err? {
      return Failed(Error(AtExtract, tags.error));
    }
    var metadata := FromTags(tags.value);

    if metadata.image != ZeroUrl {
      var resUpload := client.UploadLink(metadata.image);
      if resUpload.Err? {
        return Failed(Error(AtUpload, resUpload.error));
      }
      metadata := metadata.(uploadedUrl := resUpload.value);
    }

    if metadata.title == "" {
      var title := GetHtmlTitle(libs.parseHtml(body.value));
      match title
      case TitleError(e) =>
        return Failed(Error(AtTitle, e));
      case TitlePanic =>
        return Panicked;
      case Title(t) =>
        metadata := metadata.(title := t);
    }

    if metadata.url == "" {
      metadata := metadata.(url := fetchUrl);
    }

    cache.Set(fetchUrl, metadata);
    return Fetched(metadata);
  }
}
