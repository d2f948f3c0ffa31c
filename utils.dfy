/**
 * URL validity and platform detection (`isValidUrl`, `getPlatformFromUrl`).
 *
 * The WHATWG URL parser behind `new URL(url)` is not modelled: it enters as a
 * parameter `parse` that either yields a parsed URL (of which only the
 * hostname is read) or `None` where the constructor throws.
 */
module Utils {
  import opened Wrappers
  import opened Strings

  /** The part of a parsed URL that the classifier reads. */
  datatype Url = Url(hostname: string)

  /** `new URL(s)`: `None` where the constructor throws a TypeError. */
  type UrlParser = string -> Option<Url>

  /** `isValidUrl`: the constructor's exception is caught and reported as `false`. */
  predicate IsValidUrl(parse: UrlParser, url: string): (r: bool)
    ensures r <==> exists u :: parse(url) == Some(u)
  {
    parse(url).Some?
  }

  /** `new URL(url).hostname`, only defined for a URL the constructor accepts. */
  function Hostname(parse: UrlParser, url: string): (h: string)
    requires IsValidUrl(parse, url)
    ensures parse(url) == Some(Url(h))
  {
    parse(url).value.hostname
  }

  /** An ordered table of platforms, each with the domains that identify it. */
  type Registry = seq<(string, seq<string>)>

  /** The `platforms` object, in the insertion order `Object.entries` yields. */
  const Platforms: Registry := [
    ("youtube", ["youtube.com", "youtu.be"]),
    ("facebook", ["facebook.com", "fb.com"]),
    ("instagram", ["instagram.com"]),
    ("tiktok", ["tiktok.com"]),
    ("spotify", ["spotify.com"]),
    ("netflix", ["netflix.com"])
  ]

  const PlatformKeys: set<string> :=
    {"youtube", "facebook", "instagram", "tiktok", "spotify", "netflix"}

  /** Some domain of `entry` occurs anywhere in `host` (substring, not suffix). */
  ghost predicate Claims(entry: (string, seq<string>), host: string) {
    exists d :: d in entry.1 && Infix(d, host)
  }

  /** Entry `k` claims `host` and no earlier entry does. */
  ghost predicate FirstClaim(table: Registry, host: string, k: int) {
    0 <= k < |table| && Claims(table[k], host) &&
    forall j :: 0 <= j < k ==> !Claims(table[j], host)
  }

  /** No entry of the table claims `host`. */
  ghost predicate Unclaimed(table: Registry, host: string) {
    forall j :: 0 <= j < |table| ==> !Claims(table[j], host)
  }

  predicate UniqueNames(table: Registry) {
    forall i, j :: 0 <= i < j < |table| ==> table[i].0 != table[j].0
  }

  /** `domains.some(domain => host.includes(domain))`. */
  function AnyDomainIn(host: string, domains: seq<string>): (r: bool)
    ensures r <==> exists d :: d in domains && Infix(d, host)
  {
    if |domains| == 0 then false
    else Includes(host, domains[0]) || AnyDomainIn(host, domains[1..])
  }

  /** The `for...of` scan: the index of the first entry that claims `host`. */
  function FirstMatch(table: Registry, host: string): (r: Option<nat>)
    ensures r.Some? ==> FirstClaim(table, host, r.value)
    ensures r.None? ==> Unclaimed(table, host)
  {
    if |table| == 0 then None
    else if AnyDomainIn(host, table[0].1) then Some(0)
    else match FirstMatch(table[1..], host)
      case None => None
      case Some(k) => Some(k + 1)
  }

  /** The platform of the first entry that claims `host`, or `null`. */
  function Classify(table: Registry, host: string): (r: Option<string>)
    ensures r.None? <==> Unclaimed(table, host)
    ensures r.Some? ==> exists k :: FirstClaim(table, host, k) && table[k].0 == r.value
  {
    match FirstMatch(table, host)
    case None => None
    case Some(k) => Some(table[k].0)
  }

  /**
   * `getPlatformFromUrl`: `null` for a URL the constructor rejects, otherwise
   * the first platform in table order with a domain inside the lower-cased
   * hostname, or `null` when there is none.
   */
  function GetPlatformFromUrl(parse: UrlParser, url: string): (r: Option<string>)
    ensures !IsValidUrl(parse, url) ==> r.None?
    ensures r.None? || r.value in PlatformKeys
    ensures IsValidUrl(parse, url) ==>
      (r.None? <==> Unclaimed(Platforms, ToLower(Hostname(parse, url))))
  {
    if !IsValidUrl(parse, url) then None
    else Classify(Platforms, ToLower(Hostname(parse, url)))
  }

  /** At most one entry is the first to claim a host. */
  lemma FirstClaimUnique(table: Registry, host: string, i: int, k: int)
    requires FirstClaim(table, host, i) && FirstClaim(table, host, k)
    ensures i == k
  {
  }

  /**
   * With unique platform names, the name returned identifies the entry that
   * matched: that entry claims the host and no earlier one does.
   */
  lemma ClassifyNamesFirstClaim(table: Registry, host: string, k: int)
    requires UniqueNames(table) && 0 <= k < |table|
    requires Classify(table, host) == Some(table[k].0)
    ensures FirstClaim(table, host, k)
  {
  }

  /**
   * Registration order decides overlaps: when entries `i < j` both claim a
   * host, the result is an entry at or before `i`, never entry `j`.
   */
  lemma EarlierEntryWins(table: Registry, host: string, i: int, j: int)
    requires UniqueNames(table)
    requires 0 <= i < j < |table| && Claims(table[i], host) && Claims(table[j], host)
    ensures FirstMatch(table, host).Some? && FirstMatch(table, host).value <= i
    ensures Classify(table, host) != Some(table[j].0)
  {
  }

  /** The six keys are exactly the names of the table's entries. */
  lemma PlatformKeysAreNames()
    ensures PlatformKeys == set k | 0 <= k < |Platforms| :: Platforms[k].0
  {
    var names := set k | 0 <= k < |Platforms| :: Platforms[k].0;
    assert Platforms[0].0 in names && Platforms[1].0 in names && Platforms[2].0 in names;
    assert Platforms[3].0 in names && Platforms[4].0 in names && Platforms[5].0 in names;
    forall n | n in names ensures n in PlatformKeys {
      var k :| 0 <= k < |Platforms| && Platforms[k].0 == n;
      assert k == 0 || k == 1 || k == 2 || k == 3 || k == 4 || k == 5;
    }
  }

  lemma PlatformNamesUnique()
    ensures UniqueNames(Platforms)
  {
  }

  /**
   * Soundness and first match for URLs: a URL classified as the platform of
   * entry `k` is valid, some domain of entry `k` occurs in its lower-cased
   * hostname, and no earlier entry's domain does.
   */
  lemma PlatformSound(parse: UrlParser, url: string, k: int)
    requires 0 <= k < |Platforms|
    requires GetPlatformFromUrl(parse, url) == Some(Platforms[k].0)
    ensures IsValidUrl(parse, url)
    ensures FirstClaim(Platforms, ToLower(Hostname(parse, url)), k)
  {
    PlatformNamesUnique();
    ClassifyNamesFirstClaim(Platforms, ToLower(Hostname(parse, url)), k);
  }

  /**
   * Completeness: a valid URL is left unclassified exactly when no domain of
   * any platform occurs in its lower-cased hostname.
   */
  lemma PlatformComplete(parse: UrlParser, url: string)
    requires IsValidUrl(parse, url)
    ensures GetPlatformFromUrl(parse, url).None? <==>
      forall k, d :: 0 <= k < |Platforms| && d in Platforms[k].1 ==>
        !Infix(d, ToLower(Hostname(parse, url)))
  {
  }

  /** Two valid URLs whose hostnames differ only in letter case classify the same. */
  lemma CaseInsensitive(parse: UrlParser, u1: string, u2: string)
    requires IsValidUrl(parse, u1) && IsValidUrl(parse, u2)
    requires SameIgnoringCase(Hostname(parse, u1), Hostname(parse, u2))
    ensures GetPlatformFromUrl(parse, u1) == GetPlatformFromUrl(parse, u2)
  {
    ToLowerIdentifiesCase(Hostname(parse, u1), Hostname(parse, u2));
  }

  /**
   * Substring, not suffix: whatever surrounds `youtube.com` or `youtu.be` in
   * the lower-cased hostname, the URL classifies as youtube.
   */
  lemma YoutubeAnywhere(parse: UrlParser, url: string, pre: string, dom: string, post: string)
    requires IsValidUrl(parse, url)
    requires dom == "youtube.com" || dom == "youtu.be"
    requires ToLower(Hostname(parse, url)) == pre + dom + post
    ensures GetPlatformFromUrl(parse, url) == Some("youtube")
  {
    InfixOfConcat(pre, dom, post);
    assert dom in Platforms[0].1;
    assert FirstClaim(Platforms, pre + dom + post, 0);
    FirstMatchAt(Platforms, pre + dom + post, 0);
  }

  /** The entry that first claims a host is the one the scan returns. */
  lemma FirstMatchAt(table: Registry, host: string, k: int)
    requires FirstClaim(table, host, k)
    ensures FirstMatch(table, host) == Some(k)
  {
  }

  /**
   * A host that carries both a tiktok and a youtube domain is youtube's, since
   * youtube comes first in the table.
   */
  lemma TiktokInsideYoutubeHost(parse: UrlParser, url: string)
    requires IsValidUrl(parse, url)
    requires ToLower(Hostname(parse, url)) == "www.tiktok.com.youtube.com"
    ensures Claims(Platforms[3], ToLower(Hostname(parse, url)))
    ensures GetPlatformFromUrl(parse, url) == Some("youtube")
  {
    TiktokInsideYoutube("www.tiktok.com.youtube.com");
  }

  lemma TiktokInsideYoutube(host: string)
    requires host == "www.tiktok.com.youtube.com"
    ensures Claims(Platforms[3], host) && Claims(Platforms[0], host)
  {
    TiktokClaims(host);
    YoutubeClaims(host);
  }

  lemma TiktokClaims(host: string)
    requires host == "www.tiktok.com.youtube.com"
    ensures Claims(Platforms[3], host)
  {
    InfixAt(host, 4, "tiktok.com");
    assert "tiktok.com" in Platforms[3].1;
  }

  lemma YoutubeClaims(host: string)
    requires host == "www.tiktok.com.youtube.com"
    ensures Claims(Platforms[0], host)
  {
    InfixAt(host, 15, "youtube.com");
    assert "youtube.com" in Platforms[0].1;
  }

  /** A domain read off at a known offset of the host is an infix of it. */
  lemma InfixAt(host: string, i: nat, dom: string)
    requires i <= |host| && dom <= host[i..]
    ensures Infix(dom, host)
  {
  }

  /** `notyoutube.com` is youtube's too: the match is not anchored at a label. */
  lemma NotYoutubeHost(parse: UrlParser, url: string)
    requires IsValidUrl(parse, url)
    requires ToLower(Hostname(parse, url)) == "notyoutube.com"
    ensures GetPlatformFromUrl(parse, url) == Some("youtube")
  {
    assert "notyoutube.com" == "not" + "youtube.com" + "";
    YoutubeAnywhere(parse, url, "not", "youtube.com", "");
  }

  /** A mobile facebook host classifies as facebook. */
  lemma MobileFacebookHost(parse: UrlParser, url: string)
    requires IsValidUrl(parse, url)
    requires ToLower(Hostname(parse, url)) == "m.facebook.com"
    ensures GetPlatformFromUrl(parse, url) == Some("facebook")
  {
    MobileFacebook("m.facebook.com");
    FirstMatchAt(Platforms, "m.facebook.com", 1);
  }

  lemma MobileFacebook(host: string)
    requires host == "m.facebook.com"
    ensures FirstClaim(Platforms, host, 1)
  {
    AbsentFirstChar("youtube.com", host);
    AbsentFirstChar("youtu.be", host);
    assert !Claims(Platforms[0], host);
    assert host == "m." + "facebook.com" + "";
    InfixOfConcat("m.", "facebook.com", "");
    assert "facebook.com" in Platforms[1].1;
  }

  /** A host that names no listed domain is left unclassified. */
  lemma UnknownHost(parse: UrlParser, url: string)
    requires IsValidUrl(parse, url)
    requires ToLower(Hostname(parse, url)) == "example.org"
    ensures GetPlatformFromUrl(parse, url) == None
  {
    ExampleOrgUnclaimed("example.org");
  }

  lemma ExampleOrgUnclaimed(host: string)
    requires host == "example.org"
    ensures Unclaimed(Platforms, host)
  {
    ExampleOrgUnclaimedFirstHalf(host);
    ExampleOrgUnclaimedSecondHalf(host);
  }

  lemma ExampleOrgUnclaimedFirstHalf(host: string)
    requires host == "example.org"
    ensures !Claims(Platforms[0], host) && !Claims(Platforms[1], host) && !Claims(Platforms[2], host)
  {
    AbsentFirstChar("youtube.com", host);
    AbsentFirstChar("youtu.be", host);
    AbsentFirstChar("facebook.com", host);
    AbsentFirstChar("fb.com", host);
    AbsentFirstChar("instagram.com", host);
  }

  lemma ExampleOrgUnclaimedSecondHalf(host: string)
    requires host == "example.org"
    ensures !Claims(Platforms[3], host) && !Claims(Platforms[4], host) && !Claims(Platforms[5], host)
  {
    AbsentFirstChar("tiktok.com", host);
    AbsentFirstChar("spotify.com", host);
    AbsentFirstChar("netflix.com", host);
  }

}
