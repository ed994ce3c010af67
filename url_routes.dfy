/**
 * `POST /shorten`: validate the long URL, settle on a short code (a free custom
 * alias, or the first generated code no document has), build the record and save
 * it. The pure function `ShortenOutcome` states the handler's result and the
 * collection afterwards; `LinkStore.Shorten` is the handler written step by step
 * against the collection and is proved to produce exactly that outcome.
 */
module UrlRoutes {
  import opened Options
  import opened ShortUrlModel
  import UrlPattern

  /** The generator is configured with `{ length: 6 }`. */
  const CodeLength := 6

  /** The generator's default alphabet: ASCII letters and digits. */
  predicate IsAlphanumeric(c: char) {
    ('A' <= c <= 'Z') || ('a' <= c <= 'z') || ('0' <= c <= '9')
  }

  /** A code the random generator can draw. */
  type GeneratedCode = s: string | |s| == CodeLength && forall i | 0 <= i < |s| :: IsAlphanumeric(s[i])
    witness "000000"

  const LongUrlRequired := "longUrl is required"
  const InvalidUrlFormat := "Invalid URL format"
  const AliasTaken := "Custom alias already taken"
  const ServerError := "Server error"
  const RateLimitExceeded := "Rate limit exceeded. Try again later."

  /** The three body fields the handler reads; each may be absent. */
  datatype ShortenRequest = ShortenRequest(
    longUrl: Option<string>,
    customAlias: Option<string>,
    topic: Option<string>)

  /** The JSON reply: `{ shortUrl, createdAt }`, or an error status with `{ error }`. */
  datatype Reply =
    | Shortened(shortUrl: string, createdAt: Time)
    | Failed(status: nat, error: string)

  /** A reply together with the collection after the request. */
  datatype Outcome = Outcome(reply: Reply, docs: seq<ShortLink>)

  /** JavaScript truthiness of an optional string: present and not empty. */
  predicate Truthy(v: Option<string>) {
    v.Some? && v.value != ""
  }

  /** `topic || "general"` */
  function TopicOrDefault(topic: Option<string>): string {
    if Truthy(topic) then topic.value else DefaultTopic
  }

  /** `${BASE_URL}/${shortCode}` */
  function ShortUrlFor(baseUrl: string, code: string): string {
    baseUrl + "/" + code
  }

  /** One base URL never gives two codes the same short URL. */
  lemma ShortUrlInjective(baseUrl: string, c1: string, c2: string)
    requires ShortUrlFor(baseUrl, c1) == ShortUrlFor(baseUrl, c2)
    ensures c1 == c2
  {
    var n := |baseUrl| + 1;
    assert ShortUrlFor(baseUrl, c1)[n..] == c1;
    assert ShortUrlFor(baseUrl, c2)[n..] == c2;
  }

  /** Every document's short URL is the base URL joined to its code. */
  predicate DerivedUrls(docs: seq<ShortLink>, baseUrl: string) {
    forall i | 0 <= i < |docs| :: docs[i].shortUrl == ShortUrlFor(baseUrl, docs[i].shortCode)
  }

  /** What holds of a collection written only by this handler with one base URL. */
  predicate StoreInvariant(docs: seq<ShortLink>, baseUrl: string) {
    CollectionValid(docs) && DerivedUrls(docs, baseUrl)
  }

  /** Unique codes give unique short URLs once every short URL is derived from its code. */
  lemma DerivedUrlsAreUnique(docs: seq<ShortLink>, baseUrl: string)
    requires UniqueCodes(docs) && DerivedUrls(docs, baseUrl)
    ensures UniqueShortUrls(docs)
  {
    forall i, j | 0 <= i < j < |docs| ensures docs[i].shortUrl != docs[j].shortUrl {
      if docs[i].shortUrl == docs[j].shortUrl {
        ShortUrlInjective(baseUrl, docs[i].shortCode, docs[j].shortCode);
      }
    }
  }

  /** Some draw is a code no document has, so the generation loop ends within `draws`. */
  predicate SomeFresh(docs: seq<ShortLink>, draws: seq<GeneratedCode>) {
    exists k | 0 <= k < |draws| :: !HasCode(docs, draws[k])
  }

  lemma SomeFreshInTail(docs: seq<ShortLink>, draws: seq<GeneratedCode>)
    requires SomeFresh(docs, draws) && HasCode(docs, draws[0])
    ensures SomeFresh(docs, draws[1..])
  {
  }

  /** The position of the draw the loop stops at: the first one no document has. */
  function FirstFresh(docs: seq<ShortLink>, draws: seq<GeneratedCode>): (k: nat)
    requires SomeFresh(docs, draws)
    ensures k < |draws| && !HasCode(docs, draws[k])
    ensures forall j | 0 <= j < k :: HasCode(docs, draws[j])
    decreases |draws|
  {
    if !HasCode(docs, draws[0]) then 0
    else
      SomeFreshInTail(docs, draws);
      1 + FirstFresh(docs, draws[1..])
  }

  /** The handler reaches the generation loop: valid long URL and no truthy alias. */
  predicate ReachesGenerator(req: ShortenRequest) {
    Truthy(req.longUrl) && UrlPattern.Test(req.longUrl.value) && !Truthy(req.customAlias)
  }

  /** The code the handler settles on once the long URL has passed both checks. */
  function ChosenCode(docs: seq<ShortLink>, req: ShortenRequest, draws: seq<GeneratedCode>): string
    requires ReachesGenerator(req) ==> SomeFresh(docs, draws)
    requires Truthy(req.longUrl) && UrlPattern.Test(req.longUrl.value)
  {
    if Truthy(req.customAlias) then req.customAlias.value else draws[FirstFresh(docs, draws)]
  }

  /**
   * The reply to `POST /shorten` and the collection afterwards, for a request
   * from `userId` at time `now`, where `draws` are the codes the generator would
   * produce and `baseUrl` is the configured base URL.
   */
  function ShortenOutcome(docs: seq<ShortLink>, baseUrl: string, req: ShortenRequest,
                          userId: UserId, draws: seq<GeneratedCode>, now: Time): Outcome
    requires ReachesGenerator(req) ==> SomeFresh(docs, draws)
  {
    if !Truthy(req.longUrl) then Outcome(Failed(400, LongUrlRequired), docs)
    else if !UrlPattern.Test(req.longUrl.value) then Outcome(Failed(400, InvalidUrlFormat), docs)
    else if Truthy(req.customAlias) && FindByCode(docs, req.customAlias.value).Some? then
      Outcome(Failed(400, AliasTaken), docs)
    else
      var code := ChosenCode(docs, req, draws);
      var link := NewLink(req.longUrl.value, ShortUrlFor(baseUrl, code), code,
                          Some(TopicOrDefault(req.topic)), Some(userId), now);
      if SaveCheck(docs, link).Some? then Outcome(Failed(500, ServerError), docs)
      else Outcome(Shortened(link.shortUrl, link.createdAt), docs + [link])
  }

  /** A missing or empty `longUrl` is refused before the collection is consulted. */
  lemma ShortenRejectsMissingLongUrl(docs: seq<ShortLink>, baseUrl: string, req: ShortenRequest,
                                     userId: UserId, draws: seq<GeneratedCode>, now: Time)
    requires !Truthy(req.longUrl)
    ensures ShortenOutcome(docs, baseUrl, req, userId, draws, now) == Outcome(Failed(400, LongUrlRequired), docs)
  {
  }

  /** A `longUrl` the regular expression does not accept is refused and nothing is saved. */
  lemma ShortenRejectsMalformedUrl(docs: seq<ShortLink>, baseUrl: string, req: ShortenRequest,
                                   userId: UserId, draws: seq<GeneratedCode>, now: Time)
    requires ReachesGenerator(req) ==> SomeFresh(docs, draws)
    requires Truthy(req.longUrl) && !UrlPattern.Matches(req.longUrl.value)
    ensures ShortenOutcome(docs, baseUrl, req, userId, draws, now) == Outcome(Failed(400, InvalidUrlFormat), docs)
  {
    UrlPattern.TestIsPattern(req.longUrl.value);
  }

  /** A truthy alias that is already some document's code is refused and nothing is saved. */
  lemma ShortenRejectsTakenAlias(docs: seq<ShortLink>, baseUrl: string, req: ShortenRequest,
                                 userId: UserId, draws: seq<GeneratedCode>, now: Time)
    requires Truthy(req.longUrl) && UrlPattern.Matches(req.longUrl.value)
    requires Truthy(req.customAlias) && HasCode(docs, req.customAlias.value)
    ensures ShortenOutcome(docs, baseUrl, req, userId, draws, now) == Outcome(Failed(400, AliasTaken), docs)
  {
    UrlPattern.TestIsPattern(req.longUrl.value);
  }

  /** Every refusal, the server error included, leaves the collection as it was. */
  lemma ShortenFailureChangesNothing(docs: seq<ShortLink>, baseUrl: string, req: ShortenRequest,
                                     userId: UserId, draws: seq<GeneratedCode>, now: Time)
    requires ReachesGenerator(req) ==> SomeFresh(docs, draws)
    ensures var o := ShortenOutcome(docs, baseUrl, req, userId, draws, now);
      o.reply.Failed? ==> o.docs == docs
  {
  }

  /**
   * A successful request appends exactly one record, after the untouched old ones:
   * the given long URL, a code no document had, the short URL built from the base
   * URL and that code, the topic or "general", the caller as creator, the request
   * time and no visits. The reply carries that record's short URL and creation time.
   */
  lemma ShortenSuccessAppendsOneRecord(docs: seq<ShortLink>, baseUrl: string, req: ShortenRequest,
                                       userId: UserId, draws: seq<GeneratedCode>, now: Time)
    requires ReachesGenerator(req) ==> SomeFresh(docs, draws)
    ensures var o := ShortenOutcome(docs, baseUrl, req, userId, draws, now);
      o.reply.Shortened? ==>
        && |o.docs| == |docs| + 1
        && o.docs[..|docs|] == docs
        && var l := o.docs[|docs|];
           && !HasCode(docs, l.shortCode)
           && l.longUrl == req.longUrl.value
           && l.shortUrl == baseUrl + "/" + l.shortCode
           && (Truthy(req.topic) ==> l.topic == req.topic.value)
           && (!Truthy(req.topic) ==> l.topic == "general")
           && l.createdBy == Some(userId)
           && l.createdAt == now
           && l.analytics == []
           && o.reply == Shortened(l.shortUrl, l.createdAt)
  {
  }

  /**
   * The code of a new record is a truthy custom alias taken verbatim, whatever its
   * length or characters; otherwise it is the first draw no document had, so it
   * has the generator's six alphanumeric characters.
   */
  lemma ShortenCodeChoice(docs: seq<ShortLink>, baseUrl: string, req: ShortenRequest,
                          userId: UserId, draws: seq<GeneratedCode>, now: Time)
    requires ReachesGenerator(req) ==> SomeFresh(docs, draws)
    ensures var o := ShortenOutcome(docs, baseUrl, req, userId, draws, now);
      o.reply.Shortened? ==>
        var code := o.docs[|docs|].shortCode;
        && (Truthy(req.customAlias) ==> code == req.customAlias.value)
        && (!Truthy(req.customAlias) ==>
              exists k | 0 <= k < |draws| ::
                && code == draws[k]
                && !HasCode(docs, code)
                && (forall j | 0 <= j < k :: HasCode(docs, draws[j])))
        && (!Truthy(req.customAlias) ==>
              |code| == CodeLength && forall i | 0 <= i < |code| :: IsAlphanumeric(code[i]))
  {
  }

  /**
   * On a collection the handler has kept, a request with a truthy, well-formed
   * long URL and no taken alias always succeeds: the save never throws, so the
   * server error is unreachable.
   */
  lemma ShortenSucceedsOnValidStore(docs: seq<ShortLink>, baseUrl: string, req: ShortenRequest,
                                    userId: UserId, draws: seq<GeneratedCode>, now: Time)
    requires StoreInvariant(docs, baseUrl)
    requires ReachesGenerator(req) ==> SomeFresh(docs, draws)
    requires Truthy(req.longUrl) && UrlPattern.Matches(req.longUrl.value)
    requires !(Truthy(req.customAlias) && HasCode(docs, req.customAlias.value))
    ensures ShortenOutcome(docs, baseUrl, req, userId, draws, now).reply.Shortened?
  {
    UrlPattern.TestIsPattern(req.longUrl.value);
    var code := ChosenCode(docs, req, draws);
    var url := ShortUrlFor(baseUrl, code);
    assert !HasCode(docs, code);
    if HasShortUrl(docs, url) {
      var i :| 0 <= i < |docs| && docs[i].shortUrl == url;
      ShortUrlInjective(baseUrl, docs[i].shortCode, code);
      assert false;
    }
  }

  /** The handler keeps the collection invariant: codes, and so short URLs, stay unique. */
  lemma ShortenPreservesStoreInvariant(docs: seq<ShortLink>, baseUrl: string, req: ShortenRequest,
                                       userId: UserId, draws: seq<GeneratedCode>, now: Time)
    requires StoreInvariant(docs, baseUrl)
    requires ReachesGenerator(req) ==> SomeFresh(docs, draws)
    ensures StoreInvariant(ShortenOutcome(docs, baseUrl, req, userId, draws, now).docs, baseUrl)
  {
  }

  /**
   * Shortening "https://example.com/page" with no alias and no topic into an empty
   * collection saves the first draw as the code, under topic "general".
   */
  lemma ShortenExamplePage(baseUrl: string, userId: UserId, draws: seq<GeneratedCode>, now: Time)
    requires |draws| > 0
    ensures SomeFresh([], draws)
    ensures var req := ShortenRequest(Some("https://example.com/page"), None, None);
      var o := ShortenOutcome([], baseUrl, req, userId, draws, now);
      && o.reply == Shortened(baseUrl + "/" + draws[0], now)
      && |o.docs| == 1 && o.docs[0].shortCode == draws[0] && |o.docs[0].shortCode| == 6
      && o.docs[0].topic == "general"
  {
    var req := ShortenRequest(Some("https://example.com/page"), None, None);
    UrlPattern.AcceptsExamplePage();
    assert SomeFresh([], draws) by { assert !HasCode([], draws[0]); }
    ShortenSucceedsOnValidStore([], baseUrl, req, userId, draws, now);
    ShortenSuccessAppendsOneRecord([], baseUrl, req, userId, draws, now);
    ShortenCodeChoice([], baseUrl, req, userId, draws, now);
  }

  /** The ShortUrl collection, seen by the handler, with the configured base URL. */
  class LinkStore {
    const baseUrl: string
    var docs: seq<ShortLink>

    ghost predicate Valid()
      reads this
    {
      StoreInvariant(docs, baseUrl)
    }

    constructor (baseUrl: string)
      ensures this.baseUrl == baseUrl && docs == [] && Valid()
    {
      this.baseUrl := baseUrl;
      docs := [];
    }

    /**
     * `do { shortCode = uid.randomUUID(); } while (await ShortUrl.findOne({ shortCode }))`,
     * with `draws` the codes the generator produces in turn.
     */
    method DrawFreshCode(draws: seq<GeneratedCode>) returns (code: GeneratedCode)
      requires SomeFresh(docs, draws)
      ensures !HasCode(docs, code)
      ensures code == draws[FirstFresh(docs, draws)]
    {
      ghost var k := FirstFresh(docs, draws);
      var i := 0;
      code := draws[0];
      while FindByCode(docs, code).Some?
        invariant i <= k
        invariant code == draws[i]
        invariant forall j | 0 <= j < i :: HasCode(docs, draws[j])
        decreases k - i
      {
        i := i + 1;
        code := draws[i];
      }
    }

    /** `save()`: validated against the schema, then refused on a duplicate key. */
    method Save(link: ShortLink) returns (err: Option<SaveError>)
      modifies this
      ensures err == SaveCheck(old(docs), link)
      ensures docs == if err.None? then old(docs) + [link] else old(docs)
    {
      err := SaveCheck(docs, link);
      if err.None? {
        docs := docs + [link];
      }
    }

    /** The `/shorten` handler body, for a request from `userId` at time `now`. */
    method Shorten(req: ShortenRequest, userId: UserId, draws: seq<GeneratedCode>, now: Time)
      returns (reply: Reply)
      requires ReachesGenerator(req) ==> SomeFresh(docs, draws)
      modifies this
      ensures Outcome(reply, docs) == ShortenOutcome(old(docs), baseUrl, req, userId, draws, now)
      ensures old(Valid()) ==> Valid()
    {
      if Valid() {
        ShortenPreservesStoreInvariant(docs, baseUrl, req, userId, draws, now);
      }
      if !Truthy(req.longUrl) {
        return Failed(400, LongUrlRequired);
      }
      var longUrl := req.longUrl.value;
      if !UrlPattern.Test(longUrl) {
        return Failed(400, InvalidUrlFormat);
      }
      var shortCode: string;
      if Truthy(req.customAlias) {
        var existing := FindByCode(docs, req.customAlias.value);
        if existing.Some? {
          return Failed(400, AliasTaken);
        }
        shortCode := req.customAlias.value;
      } else {
        shortCode := DrawFreshCode(draws);
      }
      var shortUrl := ShortUrlFor(baseUrl, shortCode);
      var link := NewLink(longUrl, shortUrl, shortCode, Some(TopicOrDefault(req.topic)), Some(userId), now);
      var err := Save(link);
      if err.Some? {
        return Failed(500, ServerError);
      }
      reply := Shortened(shortUrl, link.createdAt);
    }

    /**
     * The route: the per-user rate limiter runs first and, when it refuses, the
     * handler is not reached and nothing is saved. `limiterAllows` is its verdict.
     */
    method PostShorten(limiterAllows: bool, req: ShortenRequest, userId: UserId,
                       draws: seq<GeneratedCode>, now: Time) returns (reply: Reply)
      requires ReachesGenerator(req) ==> SomeFresh(docs, draws)
      modifies this
      ensures !limiterAllows ==> reply == Failed(429, RateLimitExceeded) && docs == old(docs)
      ensures limiterAllows ==>
        Outcome(reply, docs) == ShortenOutcome(old(docs), baseUrl, req, userId, draws, now)
      ensures old(Valid()) ==> Valid()
    {
      if !limiterAllows {
        return Failed(429, RateLimitExceeded);
      }
      reply := Shorten(req, userId, draws, now);
    }
  }
}
