/** The two Expand callbacks of Expansions: each takes what fetchURL
    returned for a detected URL and yields at most one Matrix message. */
module Expansions {
  import opened Base
  import opened UserAgent
  import opened Fetch
  import FetchProperties
  import Decimal

  datatype ImageInfo = ImageInfo(height: int, width: int)

  /** gomatrix.ImageMessage. */
  datatype ImageMessage = ImageMessage(msgType: string, body: string, url: string, info: ImageInfo)

  /** gomatrix.GetHTMLMessage(msgType, formattedBody); the plain-text body
      gomatrix derives from it is not part of this model. */
  datatype HtmlMessage = HtmlMessage(msgType: string, formattedBody: string)

  /** Width and height announced for every preview image. */
  const PreviewSize: int := 120

  const ErrorPrefix: string := "Error fetching: "

  /** The pieces of the link notice around its URL, title and description. */
  const LinkOpen: string := "<a href=\""
  const LinkMiddle: string := "\">"
  const LinkClose: string := "</a><br>"

  /** The notice for a fetched record: a link to its URL labelled with its
      title, then a line break and the description. */
  function NoticeBody(m: MetaData): string {
    LinkOpen + m.url + LinkMiddle + m.title + LinkClose + m.description
  }

  /** The image callback: an m.image message pointing at the re-hosted image
      when the lookup returned a record with an uploaded URL; nothing when it
      failed or there is no uploaded image. */
  function ImageExpansion(o: Outcome): (r: Option<ImageMessage>)
    requires !o.Panicked?
    ensures r.Some? <==> o.Fetched? && o.meta.uploadedUrl != ""
    ensures r.Some? ==> r.value.msgType == "m.image" && r.value.body == "" && r.value.url == o.meta.uploadedUrl
    ensures r.Some? ==> r.value.info == ImageInfo(PreviewSize, PreviewSize)
  {
    match o
    case Failed(_) => None
    case Fetched(m) =>
      if m.uploadedUrl == "" then None
      else Some(ImageMessage("m.image", "", m.uploadedUrl, ImageInfo(PreviewSize, PreviewSize)))
  }

  /** The text callback: an m.notice with the error text when the lookup
      failed, nothing when the record has no title, the link notice otherwise. */
  function TextExpansion(o: Outcome): (r: Option<HtmlMessage>)
    requires !o.Panicked?
    ensures r.None? <==> o.Fetched? && o.meta.title == ""
    ensures r.Some? ==> r.value.msgType == "m.notice"
    ensures o.Failed? ==> r.Some? && r.value.formattedBody == ErrorPrefix + o.err.message
    ensures o.Fetched? && r.Some? ==> r.value.formattedBody == NoticeBody(o.meta)
  {
    match o
    case Failed(e) => Some(HtmlMessage("m.notice", ErrorPrefix + e.message))
    case Fetched(m) =>
      if m.title == "" then None
      else Some(HtmlMessage("m.notice", NoticeBody(m)))
  }

  // ---------------------------------------------------------------------
  // Reading a link notice back.
  // ---------------------------------------------------------------------

  /** The longest prefix of s that does not contain c. */
  function TakeUntil(s: string, c: char): (t: string)
    ensures t <= s && c !in t
    ensures |t| < |s| ==> s[|t|] == c
  {
    if s == [] || s[0] == c then [] else [s[0]] + TakeUntil(s[1..], c)
  }

  /** Cutting s + [c] + rest at the first c gives back s and [c] + rest. */
  lemma {:induction false} SplitAtFirst(s: string, c: char, rest: string)
    requires c !in s
    ensures TakeUntil(s + ([c] + rest), c) == s
    ensures (s + ([c] + rest))[|s|..] == [c] + rest
  {
    if s != [] {
      assert (s + ([c] + rest))[1..] == s[1..] + ([c] + rest);
      SplitAtFirst(s[1..], c, rest);
    }
  }

  /** What follows the given prefix, if s starts with it. */
  function AfterPrefix(s: string, prefix: string): (r: Option<string>)
    ensures r.Some? ==> s == prefix + r.value
  {
    if prefix <= s then Some(s[|prefix|..]) else None
  }

  lemma AfterPrefixOf(prefix: string, rest: string)
    ensures AfterPrefix(prefix + rest, prefix) == Some(rest)
  {
    assert (prefix + rest)[|prefix|..] == rest;
  }

  /** The URL, title and description written into a link notice, read back
      by splitting at the first '"' and then at the first '<'. */
  function ParseNotice(body: string): Option<(string, string, string)> {
    match AfterPrefix(body, LinkOpen)
    case None => None
    case Some(afterOpen) => ParseLink(afterOpen)
  }

  /** Reads `url">title</a><br>description`. */
  function ParseLink(s: string): Option<(string, string, string)> {
    var url := TakeUntil(s, '"');
    match AfterPrefix(s[|url|..], LinkMiddle)
    case None => None
    case Some(afterUrl) =>
      match ParseLabel(afterUrl)
      case None => None
      case Some(parts) => Some((url, parts.0, parts.1))
  }

  /** Reads `title</a><br>description`. */
  function ParseLabel(s: string): Option<(string, string)> {
    var title := TakeUntil(s, '<');
    match AfterPrefix(s[|title|..], LinkClose)
    case None => None
    case Some(description) => Some((title, description))
  }

  lemma LabelRoundTrip(title: string, description: string)
    requires '<' !in title
    ensures ParseLabel(title + (LinkClose + description)) == Some((title, description))
  {
    assert LinkClose + description == ['<'] + (LinkClose[1..] + description);
    SplitAtFirst(title, '<', LinkClose[1..] + description);
    AfterPrefixOf(LinkClose, description);
  }

  lemma LinkRoundTrip(url: string, title: string, description: string)
    requires '"' !in url && '<' !in title
    ensures ParseLink(url + (LinkMiddle + (title + (LinkClose + description)))) == Some((url, title, description))
  {
    var afterUrl := title + (LinkClose + description);
    assert LinkMiddle + afterUrl == ['"'] + (LinkMiddle[1..] + afterUrl);
    SplitAtFirst(url, '"', LinkMiddle[1..] + afterUrl);
    AfterPrefixOf(LinkMiddle, afterUrl);
    LabelRoundTrip(title, description);
  }

  /** The link notice carries the record's URL, title and description
      unaltered, so long as the URL holds no '"' and the title no '<'
      (nothing is escaped). */
  lemma NoticeRoundTrip(m: MetaData)
    requires '"' !in m.url && '<' !in m.title
    ensures ParseNotice(NoticeBody(m)) == Some((m.url, m.title, m.description))
  {
    var afterOpen := m.url + (LinkMiddle + (m.title + (LinkClose + m.description)));
    assert NoticeBody(m) == LinkOpen + afterOpen;
    AfterPrefixOf(LinkOpen, afterOpen);
    LinkRoundTrip(m.url, m.title, m.description);
  }

  /** An image preview is only ever shown for a page that had an image:
      given a coherent cache, whatever record a lookup returns, an image
      message for it implies the record's image is not the zero URL, and on
      a miss that this very lookup uploaded it. */
  lemma {:induction false} ImagePreviewNeedsImage(store: map<string, MetaData>, fetchUrl: string, libs: Libraries,
                                                  respond: SentRequest -> Result<Response, string>,
                                                  upload: Url -> Result<string, string>)
    requires Coherent(store)
    ensures var c := Lookup(store, fetchUrl, libs, respond, upload);
            c.outcome.Fetched? && ImageExpansion(c.outcome).Some? ==>
              && c.outcome.meta.image != ZeroUrl
              && (fetchUrl !in store ==> c.uploaded == [c.outcome.meta.image]
                                         && upload(c.outcome.meta.image) == Ok(ImageExpansion(c.outcome).value.url))
  {
    var c := Lookup(store, fetchUrl, libs, respond, upload);
    FetchProperties.LookupKeepsCoherent(store, fetchUrl, libs, respond, upload);
    if fetchUrl !in store && c.outcome.Fetched? {
      FetchProperties.MissRecord(store, fetchUrl, libs, respond, upload);
      FetchProperties.UploadsExactlyTheImage(store, fetchUrl, libs, respond, upload);
    }
  }

  /** Each callback calls fetchURL itself, so a detected URL is looked up
      twice: once for the image, then once for the text, each time with
      whatever the web and the client answer then. After a success the
      second lookup is a hit on the same record, whatever they answer. After
      a failure the second lookup starts from scratch on its own answers, so
      the text callback may see a record where the image callback saw an
      error. Only when both lookups get the same answers does a failed miss
      repeat in full and the text callback see the same outcome. */
  lemma CallbacksLookUpTwice(store: map<string, MetaData>, fetchUrl: string, libs: Libraries,
                             respond: SentRequest -> Result<Response, string>,
                             upload: Url -> Result<string, string>,
                             respond2: SentRequest -> Result<Response, string>,
                             upload2: Url -> Result<string, string>)
    ensures var first := Lookup(store, fetchUrl, libs, respond, upload);
            var second := Lookup(first.store, fetchUrl, libs, respond2, upload2);
            && (first.outcome.Fetched? ==> second == Call(first.outcome, first.store, [], []))
            && (!first.outcome.Fetched? ==> second == Lookup(store, fetchUrl, libs, respond2, upload2))
            && (respond2 == respond && upload2 == upload && !first.outcome.Panicked? ==>
                  TextExpansion(second.outcome) == TextExpansion(first.outcome))
            && (respond2 == respond && upload2 == upload && !first.outcome.Fetched? ==> second == first)
  {
    FetchProperties.FailuresAreRetried(store, fetchUrl, libs, respond, upload, fetchUrl, respond2, upload2);
  }

  lemma Decimal500()
    ensures Decimal.IntToDecimal(500) == "500"
  {
    assert Decimal.NatToDecimal(5) == "5";
    assert Decimal.NatToDecimal(50) == "50";
  }

  lemma StatusNotice500()
    ensures ErrorPrefix + StatusMessage(500) == "Error fetching: Status code 500 is not 200"
  {
    Decimal500();
    assert StatusMessage(500) == "Status code " + "500" + " is not 200";
  }

  /** A page answered with status 500 yields the notice
      "Error fetching: Status code 500 is not 200", and no image. */
  lemma BadStatusNotice(fetchUrl: string, libs: Libraries, respond: SentRequest -> Result<Response, string>,
                        upload: Url -> Result<string, string>)
    requires libs.parseUrl(fetchUrl).Ok? && libs.newRequestError(fetchUrl).None?
    requires forall q :: respond(q) == Ok(Response(500, [], None))
    ensures var c := Lookup(map[], fetchUrl, libs, respond, upload);
            && TextExpansion(c.outcome) == Some(HtmlMessage("m.notice", "Error fetching: Status code 500 is not 200"))
            && ImageExpansion(c.outcome).None?
  {
    FetchProperties.NonOkStatusFails(map[], fetchUrl, libs, respond, upload, Response(500, [], None));
    StatusNotice500();
  }
}
