/**
  The per-recipient context that phishing-simulation templates are rendered against:
  the sender's display name, the phishing, base and tracking URLs derived from one
  templated base URL, the tracking pixel, and the two QR image tags.

  Every foreign call (address parsing, URL parsing and serialising, query decoding
  and encoding, template parsing and execution, QR/PNG generation, base64) is a
  function-valued field of `Env`. They are total functions: calling one twice on the
  same argument gives the same answer, which is what makes the two ignored re-parse
  errors of the assembly unreachable.
*/
module Models {
  import opened Wrappers
  import NetUrl
  import Paths

  newtype byte = x: int | 0 <= x < 256

  /** `mail.Address`. */
  datatype Address = Address(name: string, address: string)

  /** The recipient fields a template may reference. */
  datatype BaseRecipient = BaseRecipient(email: string, firstName: string, lastName: string, position: string)

  /**
    A `TemplateContext`: anything that supplies a sender address and a base URL
    template. `ValidationContext` is the synthetic one used for dry runs; `Campaign`
    stands for the implementers defined elsewhere (campaigns, email requests).
  */
  datatype TemplateContext =
    | ValidationContext(fromAddress: string, baseUrl: string)
    | Campaign(fromAddress: string, baseUrl: string)
  {
    function GetFromAddress(): string {
      fromAddress
    }

    function GetBaseUrl(): string {
      baseUrl
    }
  }

  /** `PhishingTemplateContext`; the embedded recipient is the field `recipient`. */
  datatype PhishingTemplateContext = PhishingTemplateContext(
    from: string,
    url: string,
    tracker: string,
    trackingUrl: string,
    rid: string,
    baseUrl: string,
    qrUrl: string,
    qrUrlCid: string,
    recipient: BaseRecipient)

  /** Go's zero value, returned beside every error. */
  const EmptyContext := PhishingTemplateContext("", "", "", "", "", "", "", "", BaseRecipient("", "", "", ""))

  /** The data object a template is executed against. */
  datatype TemplateData = RecipientData(r: BaseRecipient) | ContextData(ptx: PhishingTemplateContext)

  /** A named `text/template` source. */
  datatype Template = Template(name: string, text: string)

  /** The foreign code the assembly calls, and the recipient query-parameter name it reads. */
  datatype Env = Env(
    parseAddress: string -> Result<Address>,                 // mail.ParseAddress
    url: NetUrl.Package,                                     // net/url
    parseTemplate: Template -> Option<Error>,                // (*Template).Parse: the syntax error, if any
    execute: (Template, TemplateData) -> (string, Option<Error>),  // (*Template).Execute: what it wrote, and its error
    qrPng: string -> Option<seq<byte>>,                      // the styled QR step: PNG bytes, or none on any failure
    base64: seq<byte> -> string,                             // base64.StdEncoding.EncodeToString
    recipientParameter: string)                              // RecipientParameter

  const TrackerPrefix := "<img alt='' style='display: none' src='"
  const TagEnd := "'/>"
  const QrStyle := "display:block;margin:16px auto;border-radius:16px;box-shadow:0 2px 12px #0002;border:4px solid #fff;width:256px;height:256px;background:#fff"
  const QrTagPrefix := "<img alt='' style='" + QrStyle + "' width='256' height='256' src='data:image/png;base64,"
  const CidTag := "<img alt='' style='" + QrStyle + "' width='256' height='256' src='cid:qr.png" + TagEnd

  /**
    `ExecuteTemplate`: parse `text` as a template named "template" and execute it
    against `data`. A syntax error yields empty output; an execution error yields
    whatever was written before it.
  */
  function ExecuteTemplate(env: Env, text: string, data: TemplateData): (string, Option<Error>) {
    var tmpl := Template("template", text);
    match env.parseTemplate(tmpl)
    case Some(e) => ("", Some(e))
    case None => env.execute(tmpl, data)
  }

  function DisplayName(f: Address): string {
    if f.name == "" then f.address else f.name
  }

  function TrackerTag(trackingUrl: string): string {
    TrackerPrefix + trackingUrl + TagEnd
  }

  /** The inline QR tag for `target`, or "" when the QR step fails. */
  function QrTag(env: Env, target: string): string {
    match env.qrPng(target)
    case None => ""
    case Some(png) => QrTagPrefix + env.base64(png) + TagEnd
  }

  /** The base, phishing and tracking URLs, and the query the last two share. */
  datatype DerivedUrls = DerivedUrls(base: NetUrl.UrlParts, phish: NetUrl.UrlParts, tracking: NetUrl.UrlParts, query: NetUrl.Query)

  /** The three URLs derived from the parsed template URL `u`. */
  function DeriveUrls(env: Env, u: NetUrl.UrlParts, rid: string): (d: DerivedUrls)
    // the base URL loses its path and query and keeps everything else
    ensures d.base.path == "" && d.base.rawQuery == ""
    ensures d.base.(path := u.path, rawQuery := u.rawQuery) == u
    // the recipient parameter maps to exactly [rid]; every other key keeps its values
    ensures var original := env.url.parseQuery(u.rawQuery);
      && d.query.Keys == original.Keys + {env.recipientParameter}
      && d.query[env.recipientParameter] == [rid]
      && (forall k | k in original && k != env.recipientParameter :: d.query[k] == original[k])
    // the phishing URL changes only its query, to the encoded one
    ensures d.phish.rawQuery == env.url.encode(d.query)
    ensures d.phish.(rawQuery := u.rawQuery) == u
    // the tracking URL carries the phishing URL's query and joins /track onto the path
    ensures d.tracking.rawQuery == d.phish.rawQuery
    ensures d.tracking.path == Paths.Join(u.path, "/track")
    ensures d.tracking.(path := u.path, rawQuery := u.rawQuery) == u
  {
    var q := env.url.parseQuery(u.rawQuery)[env.recipientParameter := [rid]];
    var encoded := env.url.encode(q);
    DerivedUrls(
      u.(path := "", rawQuery := ""),
      u.(rawQuery := encoded),
      u.(path := Paths.Join(u.path, "/track"), rawQuery := encoded),
      q)
  }

  /** The context for a successfully parsed template URL `u`. */
  function Assemble(env: Env, from: string, u: NetUrl.UrlParts, r: BaseRecipient, rid: string): PhishingTemplateContext {
    var d := DeriveUrls(env, u, rid);
    var url := env.url.format(d.phish);
    var trackingUrl := env.url.format(d.tracking);
    PhishingTemplateContext(
      from := from,
      url := url,
      tracker := TrackerTag(trackingUrl),
      trackingUrl := trackingUrl,
      rid := rid,
      baseUrl := env.url.format(d.base),
      qrUrl := QrTag(env, url),
      qrUrlCid := CidTag,
      recipient := r)
  }

  /** What `NewPhishingTemplateContext` returns, as a value. */
  function ContextFor(env: Env, ctx: TemplateContext, r: BaseRecipient, rid: string): (PhishingTemplateContext, Option<Error>) {
    match env.parseAddress(ctx.GetFromAddress())
    case Err(e) => (EmptyContext, Some(e))
    case Ok(f) =>
      var (templateUrl, terr) := ExecuteTemplate(env, ctx.GetBaseUrl(), RecipientData(r));
      if terr.Some? then (EmptyContext, terr)
      else
        match env.url.parse(templateUrl)
        case Err(e) => (EmptyContext, Some(e))
        case Ok(u) => (Assemble(env, DisplayName(f), u, r, rid), None)
  }

  /**
    The URL part of `NewPhishingTemplateContext` (lines 64-78): the URL records are
    parsed afresh and their fields assigned in place, and the query map is mutated
    by `Set`, as in the source.
  */
  method BuildUrls(env: Env, templateUrl: string, rid: string)
    returns (baseUrl: NetUrl.Url?, phishUrl: NetUrl.Url?, trackingUrl: NetUrl.Url?, err: Option<Error>)
    ensures env.url.parse(templateUrl).Err? ==>
      err == Some(env.url.parse(templateUrl).error) && baseUrl == null && phishUrl == null && trackingUrl == null
    ensures env.url.parse(templateUrl).Ok? ==>
      var d := DeriveUrls(env, env.url.parse(templateUrl).value, rid);
      && err == None && baseUrl != null && phishUrl != null && trackingUrl != null
      && baseUrl.Value() == d.base && phishUrl.Value() == d.phish && trackingUrl.Value() == d.tracking
  {
    var perr;
    baseUrl, perr := NetUrl.Parse(env.url, templateUrl);
    if perr.Some? {
      return null, null, null, perr;
    }
    ghost var u := env.url.parse(templateUrl).value;
    ghost var d := DeriveUrls(env, u, rid);
    baseUrl.path := "";
    baseUrl.rawQuery := "";
    assert baseUrl.Value() == d.base;

    // The errors of the next two parses are ignored. Parsing the same text again
    // succeeds as the first parse did, so neither URL is nil where it is used.
    var ignored;
    phishUrl, ignored := NetUrl.Parse(env.url, templateUrl);
    var q := phishUrl.Query(env.url);
    q.Set(env.recipientParameter, rid);
    assert q.entries == d.query;
    phishUrl.rawQuery := q.Encode(env.url);
    assert phishUrl.Value() == d.phish;

    trackingUrl, ignored := NetUrl.Parse(env.url, templateUrl);
    trackingUrl.path := Paths.Join(trackingUrl.path, "/track");
    trackingUrl.rawQuery := q.Encode(env.url);
    assert trackingUrl.Value() == d.tracking;
    err := None;
  }

  /** `NewPhishingTemplateContext`. */
  method NewPhishingTemplateContext(env: Env, ctx: TemplateContext, r: BaseRecipient, rid: string)
    returns (ptx: PhishingTemplateContext, err: Option<Error>)
    ensures (ptx, err) == ContextFor(env, ctx, r, rid)
  {
    var f := env.parseAddress(ctx.GetFromAddress());
    if f.Err? {
      return EmptyContext, Some(f.error);
    }
    var fn := f.value.name;
    if fn == "" {
      fn := f.value.address;
    }
    var (templateUrl, terr) := ExecuteTemplate(env, ctx.GetBaseUrl(), RecipientData(r));
    if terr.Some? {
      return EmptyContext, terr;
    }

    var baseUrl, phishUrl, trackingUrl, perr := BuildUrls(env, templateUrl, rid);
    if perr.Some? {
      return EmptyContext, perr;
    }

    // A failing QR step leaves the tag empty and is not an error.
    var qrTag := "";
    var png := env.qrPng(phishUrl.String(env.url));
    if png.Some? {
      qrTag := QrTagPrefix + env.base64(png.value) + TagEnd;
    }
    var cidTag := CidTag;

    ptx := PhishingTemplateContext(
      from := fn,
      url := phishUrl.String(env.url),
      tracker := TrackerPrefix + trackingUrl.String(env.url) + TagEnd,
      trackingUrl := trackingUrl.String(env.url),
      rid := rid,
      baseUrl := baseUrl.String(env.url),
      qrUrl := qrTag,
      qrUrlCid := cidTag,
      recipient := r);
    err := None;
  }

  const ValidationSender := "foo@bar.com"
  const ValidationBaseUrl := "http://example.com"
  const ValidationRecipient := BaseRecipient("foo@bar.com", "Foo", "Bar", "Test")
  const ValidationRid := "123456"

  /** The context every dry run renders against, with the error that building it gave. */
  function ValidationContextFor(env: Env): (PhishingTemplateContext, Option<Error>) {
    ContextFor(env, ValidationContext(ValidationSender, ValidationBaseUrl), ValidationRecipient, ValidationRid)
  }

  /**
    `ValidateTemplate`: build the context from the fixed placeholders, then execute
    `text` against it; the first error, or none.
  */
  method ValidateTemplate(env: Env, text: string) returns (err: Option<Error>)
    ensures var (ptx, buildErr) := ValidationContextFor(env);
      && (buildErr.Some? ==> err == buildErr)
      && (buildErr.None? ==> err == ExecuteTemplate(env, text, ContextData(ptx)).1)
    ensures var (ptx, buildErr) := ValidationContextFor(env);
      err.None? <==> buildErr.None? && ExecuteTemplate(env, text, ContextData(ptx)).1.None?
    // a candidate template with a syntax error is reported with exactly that error
    ensures ValidationContextFor(env).1.None? && env.parseTemplate(Template("template", text)).Some? ==>
      err == env.parseTemplate(Template("template", text))
  {
    var vc := ValidationContext(ValidationSender, ValidationBaseUrl);
    var ptx, buildErr := NewPhishingTemplateContext(env, vc, ValidationRecipient, ValidationRid);
    if buildErr.Some? {
      return buildErr;
    }
    var (_, execErr) := ExecuteTemplate(env, text, ContextData(ptx));
    if execErr.Some? {
      return execErr;
    }
    return None;
  }

  // ---------------------------------------------------------------------------
  // Properties of the assembly

  /**
    A base URL template with a syntax error aborts the assembly with that error and
    the empty context (once the sender address has parsed).
  */
  lemma BaseTemplateSyntaxErrorAborts(env: Env, ctx: TemplateContext, r: BaseRecipient, rid: string)
    requires env.parseAddress(ctx.GetFromAddress()).Ok?
    requires env.parseTemplate(Template("template", ctx.GetBaseUrl())).Some?
    ensures ContextFor(env, ctx, r, rid) == (EmptyContext, env.parseTemplate(Template("template", ctx.GetBaseUrl())))
  {
  }

  /**
    The error policy: a sender address that does not parse, a base URL template that
    does not execute, and a rendered URL that does not parse each abort with that
    error (the first one met) and the empty context; nothing else aborts.
  */
  lemma AbortsExactlyOnSenderTemplateOrUrl(env: Env, ctx: TemplateContext, r: BaseRecipient, rid: string)
    ensures var (ptx, err) := ContextFor(env, ctx, r, rid);
      var sender := env.parseAddress(ctx.GetFromAddress());
      var (templateUrl, templateErr) := ExecuteTemplate(env, ctx.GetBaseUrl(), RecipientData(r));
      var parsed := env.url.parse(templateUrl);
      && (sender.Err? ==> err == Some(sender.error))
      && (sender.Ok? && templateErr.Some? ==> err == templateErr)
      && (sender.Ok? && templateErr.None? && parsed.Err? ==> err == Some(parsed.error))
      && (err.None? <==> sender.Ok? && templateErr.None? && parsed.Ok?)
      && (err.Some? ==> ptx == EmptyContext)
  {
    var sender := env.parseAddress(ctx.GetFromAddress());
    if sender.Ok? {
      var (templateUrl, templateErr) := ExecuteTemplate(env, ctx.GetBaseUrl(), RecipientData(r));
      if templateErr.None? {
        match env.url.parse(templateUrl)
        case Ok(u) =>
          assert ContextFor(env, ctx, r, rid).1 == None;
        case Err(e) =>
          assert ContextFor(env, ctx, r, rid) == (EmptyContext, Some(e));
      }
    }
  }

  /**
    On success every field is determined: the sender's display name with the address
    as fallback, the three URLs derived from the parsed template URL, the tracking
    pixel around the tracking URL, the input rid and recipient, and the two QR tags.
  */
  lemma ContextOnSuccess(env: Env, ctx: TemplateContext, r: BaseRecipient, rid: string)
    requires ContextFor(env, ctx, r, rid).1.None?
    ensures var ptx := ContextFor(env, ctx, r, rid).0;
      var sender := env.parseAddress(ctx.GetFromAddress()).value;
      var u := env.url.parse(ExecuteTemplate(env, ctx.GetBaseUrl(), RecipientData(r)).0).value;
      var d := DeriveUrls(env, u, rid);
      && (sender.name != "" ==> ptx.from == sender.name)
      && (sender.name == "" ==> ptx.from == sender.address)
      && ptx.baseUrl == env.url.format(d.base)
      && ptx.url == env.url.format(d.phish)
      && ptx.trackingUrl == env.url.format(d.tracking)
      && ptx.tracker == "<img alt='' style='display: none' src='" + ptx.trackingUrl + "'/>"
      && ptx.rid == rid
      && ptx.recipient == r
      && ptx.qrUrl == QrTag(env, ptx.url)
      && ptx.qrUrlCid == CidTag
  {
  }

  /** The inline QR tag is empty exactly when the QR step fails, and otherwise wraps the base64 PNG. */
  lemma QrTagShape(env: Env, target: string)
    ensures QrTag(env, target) == "" <==> env.qrPng(target).None?
    ensures env.qrPng(target).Some? ==>
      QrTag(env, target) == QrTagPrefix + env.base64(env.qrPng(target).value) + "'/>"
  {
    if env.qrPng(target).Some? {
      assert |QrTag(env, target)| >= |QrTagPrefix| > 0;
    }
  }

  /** The CID tag is the fixed reference to an attachment named qr.png. */
  lemma CidTagReferencesAttachment()
    ensures Paths.EndsWith(CidTag, "src='cid:qr.png'/>")
  {
    var suffix := "src='cid:qr.png'/>";
    assert CidTag[|CidTag| - |suffix|..] == suffix;
  }

  /**
    Whatever the QR step does, it never changes whether the assembly fails, nor any
    field but the inline QR tag.
  */
  lemma QrStepIsIsolated(env: Env, qr: string -> Option<seq<byte>>, ctx: TemplateContext, r: BaseRecipient, rid: string)
    ensures var (ptx, err) := ContextFor(env, ctx, r, rid);
      var (ptx', err') := ContextFor(env.(qrPng := qr), ctx, r, rid);
      err' == err && ptx' == ptx.(qrUrl := ptx'.qrUrl)
  {
  }

  /** When QR generation always fails, the inline tag is empty and everything else is as before. */
  lemma QrFailureIsAbsorbed(env: Env, ctx: TemplateContext, r: BaseRecipient, rid: string)
    ensures var (ptx, err) := ContextFor(env, ctx, r, rid);
      var (ptx', err') := ContextFor(env.(qrPng := (s: string) => None), ctx, r, rid);
      err' == err && ptx' == ptx.(qrUrl := "")
  {
    QrStepIsIsolated(env, (s: string) => None, ctx, r, rid);
  }

  /**
    When decoding undoes encoding, the phishing and the tracking URL both decode to a
    query whose recipient parameter is exactly [rid], and whose other keys are those
    the template URL had, with their values.
  */
  lemma RecipientIdInBothUrls(env: Env, u: NetUrl.UrlParts, rid: string)
    requires NetUrl.QueryRoundTrips(env.url)
    ensures var d := DeriveUrls(env, u, rid);
      var original := env.url.parseQuery(u.rawQuery);
      var phishQuery := env.url.parseQuery(d.phish.rawQuery);
      && phishQuery == env.url.parseQuery(d.tracking.rawQuery)
      && phishQuery.Keys == original.Keys + {env.recipientParameter}
      && phishQuery[env.recipientParameter] == [rid]
      && (forall k | k in original && k != env.recipientParameter :: phishQuery[k] == original[k])
  {
    var d := DeriveUrls(env, u, rid);
    forall k | k in d.query
      ensures d.query[k] != []
    {
      if k != env.recipientParameter {
        assert k in env.url.parseQuery(u.rawQuery);
      }
    }
    assert env.url.parseQuery(env.url.encode(d.query)) == d.query;
  }

  /**
    The tracking path is the template URL's cleaned path followed by /track (so
    /landing gives /landing/track); for the empty or rooted path of any URL with a
    host it ends in /track.
  */
  lemma TrackingPathJoinsTrack(env: Env, u: NetUrl.UrlParts, rid: string)
    ensures var path := DeriveUrls(env, u, rid).tracking.path;
      && (u.path == "" || Paths.Clean(u.path) == "/" ==> path == "/track")
      && (u.path != "" && Paths.Clean(u.path) == "." ==> path == "track")
      && (u.path != "" && Paths.Clean(u.path) != "/" && Paths.Clean(u.path) != "." ==> path == Paths.Clean(u.path) + "/track")
      && (u.path == "" || Paths.IsRooted(u.path) ==> Paths.EndsWith(path, "/track"))
  {
    Paths.JoinTrack(u.path);
    if u.path == "" || Paths.IsRooted(u.path) {
      Paths.RootedTrack(u.path);
    }
  }

  /**
    The assembly sees a template context only through its two getters: contexts
    that agree on them give the same result.
  */
  lemma ContextSeenThroughGetters(env: Env, c1: TemplateContext, c2: TemplateContext, r: BaseRecipient, rid: string)
    requires c1.GetFromAddress() == c2.GetFromAddress() && c1.GetBaseUrl() == c2.GetBaseUrl()
    ensures ContextFor(env, c1, r, rid) == ContextFor(env, c2, r, rid)
  {
  }

  /** The dry run builds the same context as a campaign with the placeholder sender, base URL, recipient and rid. */
  lemma ValidationContextLikeCampaign(env: Env)
    ensures ValidationContextFor(env) ==
      ContextFor(env, Campaign("foo@bar.com", "http://example.com"), BaseRecipient("foo@bar.com", "Foo", "Bar", "Test"), "123456")
  {
    ContextSeenThroughGetters(env, ValidationContext(ValidationSender, ValidationBaseUrl),
      Campaign("foo@bar.com", "http://example.com"), ValidationRecipient, ValidationRid);
  }

  /** The dry run's context carries the placeholder rid and recipient, whatever the foreign code does. */
  lemma ValidationContextPlaceholders(env: Env)
    requires ValidationContextFor(env).1.None?
    ensures ValidationContextFor(env).0.rid == "123456"
    ensures ValidationContextFor(env).0.recipient == BaseRecipient("foo@bar.com", "Foo", "Bar", "Test")
    ensures ValidationContextFor(env).0.qrUrlCid == CidTag
  {
  }
}
