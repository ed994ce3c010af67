/**
 * The ShortUrl collection: the link record with its embedded visit log, the
 * defaults the schema fills in when a document is built, and what the collection
 * enforces when a document is saved (required fields present, `shortUrl` and
 * `shortCode` each unique across the collection).
 */
module ShortUrlModel {
  import opened Options

  /** Milliseconds since the epoch, as `Date.now` returns them. */
  type Time = nat

  /** The `_id` of a user document, which `createdBy` refers to. */
  type UserId = nat

  const DefaultTopic := "general"

  /** One entry of a link's `analytics` array; every field but the timestamp is optional. */
  datatype Visit = Visit(
    timestamp: Time,
    ipAddress: Option<string>,
    userAgent: Option<string>,
    osType: Option<string>,
    deviceType: Option<string>)

  /** One ShortUrl document. */
  datatype ShortLink = ShortLink(
    longUrl: string,
    shortUrl: string,
    shortCode: string,
    topic: string,
    createdBy: Option<UserId>,
    createdAt: Time,
    analytics: seq<Visit>)

  /**
   * A visit entry built at time `now`; `timestamp` falls back to `now` when it is
   * not supplied.
   */
  function NewVisit(now: Time, timestamp: Option<Time>, ipAddress: Option<string>,
                    userAgent: Option<string>, osType: Option<string>,
                    deviceType: Option<string>): Visit
  {
    Visit(if timestamp.Some? then timestamp.value else now, ipAddress, userAgent, osType, deviceType)
  }

  /**
   * A link document built at time `now` from the fields a caller supplies: a
   * missing `topic` becomes "general", `createdAt` is `now` and the visit log
   * starts empty.
   */
  function NewLink(longUrl: string, shortUrl: string, shortCode: string,
                   topic: Option<string>, createdBy: Option<UserId>, now: Time): ShortLink
  {
    ShortLink(longUrl, shortUrl, shortCode,
              if topic.Some? then topic.value else DefaultTopic,
              createdBy, now, [])
  }

  /** The three `required: true` strings; the required validator refuses an empty string. */
  predicate RequiredPresent(l: ShortLink) {
    l.longUrl != "" && l.shortUrl != "" && l.shortCode != ""
  }

  predicate HasCode(docs: seq<ShortLink>, code: string) {
    exists i | 0 <= i < |docs| :: docs[i].shortCode == code
  }

  predicate HasShortUrl(docs: seq<ShortLink>, url: string) {
    exists i | 0 <= i < |docs| :: docs[i].shortUrl == url
  }

  predicate UniqueCodes(docs: seq<ShortLink>) {
    forall i, j | 0 <= i < j < |docs| :: docs[i].shortCode != docs[j].shortCode
  }

  predicate UniqueShortUrls(docs: seq<ShortLink>) {
    forall i, j | 0 <= i < j < |docs| :: docs[i].shortUrl != docs[j].shortUrl
  }

  /** What the schema guarantees of the whole collection. */
  predicate CollectionValid(docs: seq<ShortLink>) {
    && (forall i | 0 <= i < |docs| :: RequiredPresent(docs[i]))
    && UniqueCodes(docs)
    && UniqueShortUrls(docs)
  }

  /** Why `save()` throws: a failed validator, or a duplicate key on a unique index. */
  datatype SaveError = ValidationFailed | DuplicateKey

  /** What `save()` of `l` into `docs` reports: validators first, then the unique indexes. */
  function SaveCheck(docs: seq<ShortLink>, l: ShortLink): Option<SaveError> {
    if !RequiredPresent(l) then Some(ValidationFailed)
    else if HasCode(docs, l.shortCode) || HasShortUrl(docs, l.shortUrl) then Some(DuplicateKey)
    else None
  }

  /**
   * `findOne({ shortCode: code })`: the position of the first document with that
   * code, or nothing when no document has it.
   */
  function FindByCode(docs: seq<ShortLink>, code: string): (r: Option<nat>)
    ensures r.None? <==> !HasCode(docs, code)
    ensures r.Some? ==> r.value < |docs| && docs[r.value].shortCode == code
    ensures r.Some? ==> forall j | 0 <= j < r.value :: docs[j].shortCode != code
  {
    if docs == [] then None
    else if docs[0].shortCode == code then Some(0)
    else match FindByCode(docs[1..], code)
      case None => None
      case Some(k) => Some(k + 1)
  }

  /**
   * Saving into a valid collection succeeds exactly when the result is still a
   * valid collection, so a successful save never breaks the schema's guarantees
   * and every document that would break them is refused.
   */
  lemma SaveKeepsCollectionValid(docs: seq<ShortLink>, l: ShortLink)
    requires CollectionValid(docs)
    ensures SaveCheck(docs, l).None? <==> CollectionValid(docs + [l])
  {
    var docs' := docs + [l];
    if SaveCheck(docs, l).None? {
      forall i, j | 0 <= i < j < |docs'| ensures docs'[i].shortCode != docs'[j].shortCode {
        if j == |docs| {
          assert docs'[i] == docs[i];
        }
      }
      forall i, j | 0 <= i < j < |docs'| ensures docs'[i].shortUrl != docs'[j].shortUrl {
        if j == |docs| {
          assert docs'[i] == docs[i];
        }
      }
    } else {
      assert docs'[|docs|] == l;
      if !RequiredPresent(l) {
        assert !RequiredPresent(docs'[|docs|]);
      } else if HasCode(docs, l.shortCode) {
        var i :| 0 <= i < |docs| && docs[i].shortCode == l.shortCode;
        assert docs'[i].shortCode == docs'[|docs|].shortCode;
      } else {
        var i :| 0 <= i < |docs| && docs[i].shortUrl == l.shortUrl;
        assert docs'[i].shortUrl == docs'[|docs|].shortUrl;
      }
    }
  }
}
