/**
 * The URL-shape test of the shortening handler, the regular expression
 *
 *     ^(https?:\/\/)?([\da-z.-]+)\.([a-z.]{2,6})([\/\w .-]*)*\/?$
 *
 * (case-sensitive, no flags). `Matches` reads it literally: an optional scheme,
 * a non-empty host run, a literal dot, two to six top-level-domain characters and
 * a tail. The tail `([\/\w .-]*)*\/?` is a star of one character class, because
 * `/` is already in that class. `Test` is the simpler decision procedure the
 * model of the handler uses; `TestIsPattern` proves the two agree on every string.
 */
module UrlPattern {

  const HttpScheme := "http://"
  const HttpsScheme := "https://"

  /** `[\da-z.-]` */
  predicate IsHostChar(c: char) {
    ('0' <= c <= '9') || ('a' <= c <= 'z') || c == '.' || c == '-'
  }

  /** `[a-z.]` */
  predicate IsTldChar(c: char) {
    ('a' <= c <= 'z') || c == '.'
  }

  /** `\w` without the `u` flag: ASCII letters, digits and underscore. */
  predicate IsWordChar(c: char) {
    ('A' <= c <= 'Z') || ('a' <= c <= 'z') || ('0' <= c <= '9') || c == '_'
  }

  /** `[\/\w .-]` */
  predicate IsPathChar(c: char) {
    c == '/' || IsWordChar(c) || c == ' ' || c == '.' || c == '-'
  }

  /** `p` is where the optional `(https?:\/\/)?` group ends in `s`. */
  predicate SchemeEnd(s: string, p: int) {
    p == 0
    || (p == |HttpScheme| && HttpScheme <= s)
    || (p == |HttpsScheme| && HttpsScheme <= s)
  }

  /**
   * One way for `s` to match the whole pattern: the scheme is `s[..p]`, the host
   * `s[p..d]`, the dot `s[d]`, the top-level domain `s[d+1..e]` and the tail `s[e..]`.
   */
  ghost predicate Split(s: string, p: int, d: int, e: int) {
    && 0 <= p < d < e <= |s|
    && SchemeEnd(s, p)
    && (forall i | p <= i < d :: IsHostChar(s[i]))
    && s[d] == '.'
    && d + 1 + 2 <= e <= d + 1 + 6
    && (forall i | d < i < e :: IsTldChar(s[i]))
    && (forall i | e <= i < |s| :: IsPathChar(s[i]))
  }

  /** `urlPattern.test(s)`, read literally. */
  ghost predicate Matches(s: string) {
    exists p, d, e :: Split(s, p, d, e)
  }

  /** Every character from `p` on is a path character. */
  predicate PathFrom(s: string, p: nat) {
    forall i | p <= i < |s| :: IsPathChar(s[i])
  }

  /** `s[p..d]` is a run of host characters. */
  predicate HostRun(s: string, p: nat, d: nat) {
    forall i | p <= i < d && i < |s| :: IsHostChar(s[i])
  }

  /** A dot at `d`, after a non-empty host run from `p`, followed by two domain characters. */
  predicate DotAt(s: string, p: nat, d: nat) {
    p < d && d + 2 < |s| && s[d] == '.' && HostRun(s, p, d) && IsTldChar(s[d + 1]) && IsTldChar(s[d + 2])
  }

  /** Some dot after a non-empty host run starting at `p` is followed by two domain characters. */
  predicate DottedHostFrom(s: string, p: nat) {
    exists d: nat | d < |s| :: DotAt(s, p, d)
  }

  /** The part of the pattern after a scheme that ends at `p`. */
  predicate BodyFrom(s: string, p: nat) {
    PathFrom(s, p) && DottedHostFrom(s, p)
  }

  /**
   * The test the handler applies. Every host and domain character is also a path
   * character, so the tail class covers the whole remainder once a dot with two
   * domain characters has been found; a longer domain changes nothing.
   */
  predicate Test(s: string) {
    || BodyFrom(s, 0)
    || (HttpScheme <= s && BodyFrom(s, |HttpScheme|))
    || (HttpsScheme <= s && BodyFrom(s, |HttpsScheme|))
  }

  lemma SplitGivesBody(s: string, p: int, d: int, e: int)
    requires Split(s, p, d, e)
    ensures BodyFrom(s, p)
  {
    forall i | p <= i < |s| ensures IsPathChar(s[i]) {
      if i < d {
        assert IsHostChar(s[i]);
      } else if d < i < e {
        assert IsTldChar(s[i]);
      }
    }
    assert DotAt(s, p, d);
  }

  lemma BodyGivesSplit(s: string, p: nat) returns (d: int, e: int)
    requires SchemeEnd(s, p)
    requires BodyFrom(s, p)
    ensures Split(s, p, d, e)
  {
    var d': nat :| d' < |s| && DotAt(s, p, d');
    d, e := d', d' + 3;
    assert e <= |s|;
    assert forall i | p <= i < d :: IsHostChar(s[i]);
  }

  /** The handler's test accepts exactly the strings the regular expression accepts. */
  lemma TestIsPattern(s: string)
    ensures Test(s) <==> Matches(s)
  {
    if Test(s) {
      var p: nat := if BodyFrom(s, 0) then 0
        else if HttpScheme <= s && BodyFrom(s, |HttpScheme|) then |HttpScheme|
        else |HttpsScheme|;
      var d, e := BodyGivesSplit(s, p);
    }
    if Matches(s) {
      var p, d, e :| Split(s, p, d, e);
      SplitGivesBody(s, p, d, e);
    }
  }

  /** The example of a valid long URL. */
  lemma AcceptsExamplePage()
    ensures Matches("https://example.com/page")
  {
    assert Split("https://example.com/page", 8, 15, 19);
  }

  /** Where the host starts: after the scheme the string begins with, if any. */
  function HostStart(s: string): nat {
    if HttpsScheme <= s then |HttpsScheme|
    else if HttpScheme <= s then |HttpScheme|
    else 0
  }

  /**
   * In every match the host starts at `HostStart(s)`: a string that begins with a
   * scheme cannot match without it, because `:` is in no class of the pattern.
   */
  lemma SplitStartsAtHost(s: string, p: int, d: int, e: int)
    requires Split(s, p, d, e)
    ensures p == HostStart(s)
    ensures IsHostChar(s[p])
    ensures forall i | p <= i < |s| :: IsPathChar(s[i])
  {
    SplitGivesBody(s, p, d, e);
    SchemeColon(s);
  }

  /** A scheme holds a `:`, which is not a path character, and no string starts with both schemes. */
  lemma SchemeColon(s: string)
    ensures HttpsScheme <= s ==> s[5] == ':' && !IsPathChar(s[5])
    ensures HttpScheme <= s ==> s[4] == ':' && !IsPathChar(s[4])
    ensures !(HttpScheme <= s && HttpsScheme <= s)
  {
    if HttpsScheme <= s {
      assert s[4] == HttpsScheme[4] && s[5] == HttpsScheme[5];
    }
    if HttpScheme <= s {
      assert s[4] == HttpScheme[4];
    }
  }

  /** No `i` flag: a host that begins with an upper-case letter, as in `https://Example.com`, is refused. */
  lemma RefusesUpperCaseHostStart(s: string)
    requires HostStart(s) < |s| && 'A' <= s[HostStart(s)] <= 'Z'
    ensures !Matches(s)
  {
    if Matches(s) {
      var p, d, e :| Split(s, p, d, e);
      SplitStartsAtHost(s, p, d, e);
    }
  }

  /**
   * After the scheme every character is in `[/A-Za-z0-9_ .-]`: a `?`, `=`, `#`,
   * `%`, `&` or `:` there (a query string, a fragment, a port) is refused.
   */
  lemma RefusesNonPathChar(s: string, q: nat)
    requires HostStart(s) <= q < |s| && !IsPathChar(s[q])
    ensures !Matches(s)
  {
    if Matches(s) {
      var p, d, e :| Split(s, p, d, e);
      SplitStartsAtHost(s, p, d, e);
    }
  }

  lemma RefusesExampleWithUpperCase()
    ensures !Matches("https://Example.com")
  {
    RefusesUpperCaseHostStart("https://Example.com");
  }

  lemma RefusesQueryString()
    ensures !Matches("https://example.com/page?id=1")
  {
    RefusesNonPathChar("https://example.com/page?id=1", 24);
  }

  /** Upper case further on can still match: here the domain part is `ex` and `Ample.com` is tail. */
  lemma AcceptsLaterUpperCase()
    ensures Matches("https://www.exAmple.com")
  {
    assert Split("https://www.exAmple.com", 8, 11, 14);
  }
}
