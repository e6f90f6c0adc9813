/**
 * Referrer classification and display helpers (frontend/lib/referrerUtils.ts).
 *
 * `new URL(referrer)` is an input: `Some(url)` when the referrer parses, `None` when the
 * constructor would throw. The host name of the page running the code (`window.location.hostname`)
 * is `None` on the server, where `window` is undefined.
 */
module Referrer {
  import opened Wrappers
  import opened Text

  datatype Category = Direct | Search | Social | Email | Referral | Campaign | Internal

  /** What these helpers read of a parsed URL: the host name and the query parameters in order. */
  datatype Url = Url(hostname: string, query: seq<(string, string)>)

  /** Index i holds the first parameter called name. */
  ghost predicate FirstWith(query: seq<(string, string)>, name: string, i: int) {
    0 <= i < |query| && query[i].0 == name && forall j :: 0 <= j < i ==> query[j].0 != name
  }

  /** `url.searchParams.get(name)`: the value of the first parameter with that name, or null. */
  function QueryGet(query: seq<(string, string)>, name: string): (r: Option<string>)
    ensures r.None? <==> forall i :: 0 <= i < |query| ==> query[i].0 != name
    ensures r.Some? ==> exists i :: FirstWith(query, name, i) && query[i].1 == r.value
  {
    if query == [] then None
    else if query[0].0 == name then Some(query[0].1)
    else
      var r := QueryGet(query[1..], name);
      assert r.Some? ==> exists i :: FirstWith(query, name, i) && query[i].1 == r.value by {
        if r.Some? {
          var i :| FirstWith(query[1..], name, i) && query[1..][i].1 == r.value;
          assert query[i + 1] == query[1..][i];
          assert FirstWith(query, name, i + 1) by {
            forall j | 0 <= j < i + 1 ensures query[j].0 != name {
              if j > 0 { assert query[j] == query[1..][j - 1]; }
            }
          }
        }
      }
      r
  }

  /** `ReferrerInfo`: the category, a display source and, once the URL has been read, its domain. */
  datatype Info = Info(category: Category, source: string, domain: Option<string>)

  // ---------------------------------------------------------------------------
  // The patterns

  /**
   * The regular expressions of the pattern lists: a literal (`/google\./`), an alternative of
   * two literals (`/facebook\.|fb\./`), or a literal, any run of characters and another literal
   * (`/yahoo.*mail/`).
   */
  datatype Pattern = Literal(text: string) | Either(left: string, right: string) | Spread(first: string, last: string)

  /** The characters `.` does not match: the ECMAScript line terminators. */
  predicate IsLineTerminator(c: char) {
    c == '\n' || c == '\r' || c == '\U{2028}' || c == '\U{2029}'
  }

  ghost predicate SpreadAt(s: string, first: string, last: string, i: nat, j: nat) {
    && OccursAt(s, first, i) && OccursAt(s, last, j) && i + |first| <= j
    && forall k :: i + |first| <= k < j ==> !IsLineTerminator(s[k])
  }

  /** `pattern.test(s)`. */
  ghost predicate Matches(s: string, p: Pattern) {
    match p
    case Literal(t) => Contains(s, t)
    case Either(a, b) => Contains(s, a) || Contains(s, b)
    case Spread(a, b) => exists i: nat, j: nat :: SpreadAt(s, a, b, i, j)
  }

  /** The first index at or after i of a line terminator in s, or |s|. */
  function LineEnd(s: string, i: nat): (e: nat)
    requires i <= |s|
    ensures i <= e <= |s|
    ensures forall k :: i <= k < e ==> !IsLineTerminator(s[k])
    ensures e < |s| ==> IsLineTerminator(s[e])
    decreases |s| - i
  {
    if i == |s| || IsLineTerminator(s[i]) then i else LineEnd(s, i + 1)
  }

  /** Whether `last` starts somewhere in s[from..to]. */
  function LastWithin(s: string, last: string, lo: nat, hi: nat): (r: bool)
    requires lo <= hi <= |s|
    ensures r <==> (exists j :: lo <= j <= hi && OccursAt(s, last, j))
    decreases hi - lo
  {
    if OccursAt(s, last, lo) then true
    else if lo == hi then false
    else LastWithin(s, last, lo + 1, hi)
  }

  /** Whether some occurrence of `first` at or after i is followed on its line by `last`. */
  function SpreadFrom(s: string, first: string, last: string, i: nat): (r: bool)
    requires i <= |s|
    ensures r <==> exists a: nat, b: nat :: i <= a && SpreadAt(s, first, last, a, b)
    decreases |s| - i
  {
    var here := OccursAt(s, first, i) && LastWithin(s, last, i + |first|, LineEnd(s, i + |first|));
    if here then
      var b :| i + |first| <= b <= LineEnd(s, i + |first|) && OccursAt(s, last, b);
      assert SpreadAt(s, first, last, i, b);
      true
    else if i == |s| then
      assert forall a: nat, b: nat :: i <= a && SpreadAt(s, first, last, a, b) ==> false by {
        forall a: nat, b: nat | i <= a && SpreadAt(s, first, last, a, b) ensures false {
          SpreadNotHere(s, first, last, a, b);
        }
      }
      false
    else
      var r := SpreadFrom(s, first, last, i + 1);
      assert (exists a: nat, b: nat :: i <= a && SpreadAt(s, first, last, a, b)) ==> r by {
        forall a: nat, b: nat | i <= a && SpreadAt(s, first, last, a, b) ensures r {
          if a == i { SpreadNotHere(s, first, last, a, b); }
        }
      }
      r
  }

  /** A spread match at a ends before the next line terminator after `first`. */
  lemma SpreadNotHere(s: string, first: string, last: string, a: nat, b: nat)
    requires SpreadAt(s, first, last, a, b)
    ensures a + |first| <= b <= LineEnd(s, a + |first|)
    ensures LastWithin(s, last, a + |first|, LineEnd(s, a + |first|))
  {
    var e := LineEnd(s, a + |first|);
  }

  /** `pattern.test(s)`, computed. */
  function Test(s: string, p: Pattern): (r: bool)
    ensures r <==> Matches(s, p)
  {
    match p
    case Literal(t) => Contains(s, t)
    case Either(a, b) => Contains(s, a) || Contains(s, b)
    case Spread(a, b) => SpreadFrom(s, a, b, 0)
  }

  const SEARCH_ENGINES: seq<(Pattern, string)> := [
    (Literal("google."), "Google"),
    (Literal("bing."), "Bing"),
    (Literal("yahoo."), "Yahoo"),
    (Literal("duckduckgo."), "DuckDuckGo"),
    (Literal("baidu."), "Baidu"),
    (Literal("yandex."), "Yandex"),
    (Literal("ask."), "Ask"),
    (Literal("ecosia."), "Ecosia")
  ]

  const SOCIAL_MEDIA: seq<(Pattern, string)> := [
    (Either("facebook.", "fb."), "Facebook"),
    (Literal("instagram."), "Instagram"),
    (Either("twitter.", "x."), "Twitter/X"),
    (Literal("linkedin."), "LinkedIn"),
    (Literal("pinterest."), "Pinterest"),
    (Literal("reddit."), "Reddit"),
    (Literal("tiktok."), "TikTok"),
    (Literal("youtube."), "YouTube"),
    (Literal("snapchat."), "Snapchat"),
    (Literal("whatsapp."), "WhatsApp"),
    (Literal("telegram."), "Telegram"),
    (Literal("discord."), "Discord"),
    (Literal("twitch."), "Twitch")
  ]

  const EMAIL_PATTERNS: seq<(Pattern, string)> := [
    (Literal("mail."), "Email"),
    (Literal("gmail."), "Email"),
    (Literal("outlook."), "Email"),
    (Spread("yahoo", "mail"), "Email"),
    (Literal("protonmail."), "Email")
  ]

  /** Every e-mail pattern reports the source "Email". */
  lemma EmailSource(i: nat)
    requires i < |EMAIL_PATTERNS|
    ensures EMAIL_PATTERNS[i].1 == "Email"
  {
  }

  /** The `for...of` loop: the first entry of the table, from index k on, whose pattern s matches. */
  function FirstMatch(s: string, table: seq<(Pattern, string)>, k: nat): (r: Option<nat>)
    requires k <= |table|
    ensures r.Some? ==> k <= r.value < |table| && Matches(s, table[r.value].0)
    ensures r.Some? ==> forall j :: k <= j < r.value ==> !Matches(s, table[j].0)
    ensures r.None? ==> forall j :: k <= j < |table| ==> !Matches(s, table[j].0)
    decreases |table| - k
  {
    if k == |table| then None
    else if Test(s, table[k].0) then Some(k)
    else FirstMatch(s, table, k + 1)
  }

  ghost predicate MatchesAny(s: string, table: seq<(Pattern, string)>) {
    exists i :: 0 <= i < |table| && Matches(s, table[i].0)
  }

  /** The source of the first entry s matches, when it matches one. */
  ghost predicate FirstSource(s: string, table: seq<(Pattern, string)>, source: string) {
    exists i :: 0 <= i < |table| && Matches(s, table[i].0) && table[i].1 == source
      && forall j :: 0 <= j < i ==> !Matches(s, table[j].0)
  }

  // ---------------------------------------------------------------------------
  // categorizeReferrer

  /** `url.hostname.replace('www.', '')`: only the first "www." goes, wherever it is. */
  function Domain(hostname: string): string {
    ReplaceFirst(hostname, "www.", "")
  }

  ghost predicate IsInternal(u: Url, currentHost: Option<string>) {
    currentHost.Some? && Domain(u.hostname) == Domain(currentHost.value)
  }

  /** The steps after the URL has been read, on the lowercased referrer. */
  function Classify(lower: string, u: Url, currentHost: Option<string>): (r: Info)
    ensures r.domain == Some(Domain(u.hostname))
    ensures r.category == Internal <==> IsInternal(u, currentHost)
    ensures r.category == Internal ==> r.source == "Internal"
    ensures r.category == Search <==> !IsInternal(u, currentHost) && MatchesAny(lower, SEARCH_ENGINES)
    ensures r.category == Search ==> FirstSource(lower, SEARCH_ENGINES, r.source)
    ensures r.category == Social <==> (!IsInternal(u, currentHost) && !MatchesAny(lower, SEARCH_ENGINES)
      && MatchesAny(lower, SOCIAL_MEDIA))
    ensures r.category == Social ==> FirstSource(lower, SOCIAL_MEDIA, r.source)
    ensures r.category == Email <==> (!IsInternal(u, currentHost) && !MatchesAny(lower, SEARCH_ENGINES)
      && !MatchesAny(lower, SOCIAL_MEDIA) && MatchesAny(lower, EMAIL_PATTERNS))
    ensures r.category == Email ==> r.source == "Email"
    ensures r.category == Referral <==> (!IsInternal(u, currentHost) && !MatchesAny(lower, SEARCH_ENGINES)
      && !MatchesAny(lower, SOCIAL_MEDIA) && !MatchesAny(lower, EMAIL_PATTERNS))
    ensures r.category == Referral ==> r.source == Domain(u.hostname)
    ensures r.category !in {Direct, Campaign}
  {
    var domain := Domain(u.hostname);
    if currentHost.Some? && domain == Domain(currentHost.value) then Info(Internal, "Internal", Some(domain))
    else External(lower, domain)
  }

  /** The pattern lists tried in order on a referrer from another site. */
  function External(lower: string, domain: string): (r: Info)
    ensures r.domain == Some(domain)
    ensures r.category == Search <==> MatchesAny(lower, SEARCH_ENGINES)
    ensures r.category == Search ==> FirstSource(lower, SEARCH_ENGINES, r.source)
    ensures r.category == Social <==> !MatchesAny(lower, SEARCH_ENGINES) && MatchesAny(lower, SOCIAL_MEDIA)
    ensures r.category == Social ==> FirstSource(lower, SOCIAL_MEDIA, r.source)
    ensures r.category == Email <==> (!MatchesAny(lower, SEARCH_ENGINES) && !MatchesAny(lower, SOCIAL_MEDIA)
      && MatchesAny(lower, EMAIL_PATTERNS))
    ensures r.category == Email ==> r.source == "Email"
    ensures r.category == Referral <==> (!MatchesAny(lower, SEARCH_ENGINES) && !MatchesAny(lower, SOCIAL_MEDIA)
      && !MatchesAny(lower, EMAIL_PATTERNS))
    ensures r.category == Referral ==> r.source == domain
    ensures r.category !in {Direct, Campaign, Internal}
  {
    FirstMatchFacts(lower, SEARCH_ENGINES);
    FirstMatchFacts(lower, SOCIAL_MEDIA);
    FirstMatchFacts(lower, EMAIL_PATTERNS);
    match FirstMatch(lower, SEARCH_ENGINES, 0)
    case Some(i) => Info(Search, SEARCH_ENGINES[i].1, Some(domain))
    case None =>
      match FirstMatch(lower, SOCIAL_MEDIA, 0)
      case Some(i) => Info(Social, SOCIAL_MEDIA[i].1, Some(domain))
      case None =>
        match FirstMatch(lower, EMAIL_PATTERNS, 0)
        case Some(i) =>
          EmailSource(i);
          Info(Email, "Email", Some(domain))
        case None => Info(Referral, domain, Some(domain))
  }

  /** The loop finds an entry exactly when some entry matches, and the one it finds is the first. */
  lemma FirstMatchFacts(s: string, table: seq<(Pattern, string)>)
    ensures FirstMatch(s, table, 0).Some? <==> MatchesAny(s, table)
    ensures FirstMatch(s, table, 0).Some? ==> FirstSource(s, table, table[FirstMatch(s, table, 0).value].1)
  {
    var r := FirstMatch(s, table, 0);
    if r.Some? {
      assert Matches(s, table[r.value].0);
    }
  }

  /**
   * `categorizeReferrer(referrer, utmSource)`: direct without a referrer, the campaign when a UTM
   * source is given, otherwise by the URL. The URL constructor is not guarded, so an unparseable
   * referrer throws.
   */
  function Categorize(referrer: string, utmSource: Option<string>, url: Option<Url>, currentHost: Option<string>): (r: Outcome<Info>)
    ensures referrer == "" ==> r == Returns(Info(Direct, "Direct", None))
    ensures referrer != "" && Truthy(utmSource) ==> r == Returns(Info(Campaign, utmSource.value, None))
    ensures referrer != "" && !Truthy(utmSource) ==> (r.Throws? <==> url.None?)
    ensures referrer != "" && !Truthy(utmSource) && url.Some? ==> r == Returns(Classify(ToLower(referrer), url.value, currentHost))
    ensures r.Returns? && r.value.category == Direct <==> referrer == ""
    ensures r.Returns? && r.value.category == Campaign <==> referrer != "" && Truthy(utmSource)
  {
    if referrer == "" then Returns(Info(Direct, "Direct", None))
    else if Truthy(utmSource) then Returns(Info(Campaign, utmSource.value, None))
    else
      match url
      case None => Throws
      case Some(u) => Returns(Classify(ToLower(referrer), u, currentHost))
  }

  /** Search engines come before e-mail: a Yahoo Mail address counts as a Yahoo search. */
  lemma YahooMailIsSearch(referrer: string, u: Url)
    requires Contains(ToLower(referrer), "yahoo.") && Contains(ToLower(referrer), "mail.")
    requires !Contains(ToLower(referrer), "google.") && !Contains(ToLower(referrer), "bing.")
    ensures Classify(ToLower(referrer), u, None) == Info(Search, "Yahoo", Some(Domain(u.hostname)))
  {
    var lower := ToLower(referrer);
    assert Matches(lower, SEARCH_ENGINES[2].0);
    assert !Matches(lower, SEARCH_ENGINES[0].0) && !Matches(lower, SEARCH_ENGINES[1].0);
  }

  /** Any referrer with an "x." in it and no search engine in it counts as social. */
  lemma XDotIsSocial(referrer: string, u: Url)
    requires Contains(ToLower(referrer), "x.") && !MatchesAny(ToLower(referrer), SEARCH_ENGINES)
    ensures Classify(ToLower(referrer), u, None).category == Social
    ensures Classify(ToLower(referrer), u, None).source in {"Facebook", "Instagram", "Twitter/X"}
  {
    var lower := ToLower(referrer);
    assert Matches(lower, SOCIAL_MEDIA[2].0);
    var s := Classify(lower, u, None).source;
    var i :| 0 <= i < |SOCIAL_MEDIA| && Matches(lower, SOCIAL_MEDIA[i].0) && SOCIAL_MEDIA[i].1 == s
      && forall j :: 0 <= j < i ==> !Matches(lower, SOCIAL_MEDIA[j].0);
    assert i <= 2;
  }

  // ---------------------------------------------------------------------------
  // extractSearchKeywords, extractSocialCampaign, formatReferrer

  /**
   * The query parameter holding the search terms, testing Google, Bing, Yahoo and DuckDuckGo in
   * that order: `p` for Yahoo, `q` for the other three.
   */
  function KeywordParam(referrer: string): (r: Option<string>)
    ensures r.Some? <==> MatchesAny(ToLower(referrer), SEARCH_ENGINES[..4])
    ensures var lower := ToLower(referrer);
      r == Some("p") <==> !Contains(lower, "google.") && !Contains(lower, "bing.") && Contains(lower, "yahoo.")
    ensures var lower := ToLower(referrer);
      r == Some("q") <==> (Contains(lower, "google.") || Contains(lower, "bing.")
        || (!Contains(lower, "yahoo.") && Contains(lower, "duckduckgo.")))
  {
    var lower := ToLower(referrer);
    if Contains(lower, "google.") || Contains(lower, "bing.") then
      assert Matches(lower, SEARCH_ENGINES[..4][0].0) || Matches(lower, SEARCH_ENGINES[..4][1].0);
      Some("q")
    else if Contains(lower, "yahoo.") then
      assert Matches(lower, SEARCH_ENGINES[..4][2].0);
      Some("p")
    else if Contains(lower, "duckduckgo.") then
      assert Matches(lower, SEARCH_ENGINES[..4][3].0);
      Some("q")
    else None
  }

  /**
   * `extractSearchKeywords`: the `q` (Google, Bing, DuckDuckGo) or `p` (Yahoo) parameter, null for
   * an empty or unparseable referrer or any other site.
   */
  function SearchKeywords(referrer: string, url: Option<Url>): (r: Option<string>)
    ensures referrer == "" || url.None? ==> r.None?
    ensures referrer != "" && url.Some? ==>
      r == match KeywordParam(referrer) case Some(p) => QueryGet(url.value.query, p) case None => None
    ensures r.Some? ==> MatchesAny(ToLower(referrer), SEARCH_ENGINES[..4])
  {
    if referrer == "" then None
    else
      match url
      case None => None
      case Some(u) =>
        match KeywordParam(referrer)
        case Some(p) => QueryGet(u.query, p)
        case None => None
  }

  /** `{ platform?, campaignId? }`; the empty object is both absent. */
  datatype SocialCampaign = SocialCampaign(platform: Option<string>, campaignId: Option<string>)

  /** `url.searchParams.get(name) || undefined`. */
  function Param(u: Url, name: string): (r: Option<string>)
    ensures r.Some? ==> r.value != "" && QueryGet(u.query, name) == r
    ensures r.None? ==> !Truthy(QueryGet(u.query, name))
  {
    var v := QueryGet(u.query, name);
    if Truthy(v) then v else None
  }

  /** `extractSocialCampaign`: the ad click identifier of Facebook, Instagram, LinkedIn or Twitter/X. */
  function SocialCampaignOf(referrer: string, url: Option<Url>): (r: SocialCampaign)
    ensures referrer == "" || url.None? ==> r == SocialCampaign(None, None)
    ensures r.campaignId.Some? ==> r.platform.Some? && r.campaignId.value != ""
    ensures r.platform == Some("Instagram") <==> referrer != "" && url.Some? && Contains(ToLower(referrer), "instagram.")
    ensures var lower := ToLower(referrer);
      r.platform == Some("Facebook") <==> (referrer != "" && url.Some?
        && Contains(lower, "facebook.") && !Contains(lower, "instagram."))
    ensures var lower := ToLower(referrer);
      r.platform == Some("LinkedIn") <==> (referrer != "" && url.Some?
        && !Contains(lower, "facebook.") && !Contains(lower, "instagram.") && Contains(lower, "linkedin."))
    ensures var lower := ToLower(referrer);
      r.platform == Some("Twitter/X") <==> (referrer != "" && url.Some?
        && !Contains(lower, "facebook.") && !Contains(lower, "instagram.") && !Contains(lower, "linkedin.")
        && (Contains(lower, "twitter.") || Contains(lower, "x.")))
    ensures r.platform.Some? ==> r.platform.value in {"Instagram", "Facebook", "LinkedIn", "Twitter/X"}
    ensures r.platform == Some("Instagram") || r.platform == Some("Facebook") ==>
      r.campaignId == Param(url.value, "fbclid")
    ensures r.platform == Some("LinkedIn") ==> r.campaignId == Param(url.value, "li_fat_id")
    ensures r.platform == Some("Twitter/X") ==> r.campaignId == Param(url.value, "twclid")
  {
    var lower := ToLower(referrer);
    if referrer == "" then SocialCampaign(None, None)
    else
      match url
      case None => SocialCampaign(None, None)
      case Some(u) =>
        if Contains(lower, "facebook.") || Contains(lower, "instagram.") then
          SocialCampaign(Some(if Contains(lower, "instagram.") then "Instagram" else "Facebook"), Param(u, "fbclid"))
        else if Contains(lower, "linkedin.") then
          SocialCampaign(Some("LinkedIn"), Param(u, "li_fat_id"))
        else if Contains(lower, "twitter.") || Contains(lower, "x.") then
          SocialCampaign(Some("Twitter/X"), Param(u, "twclid"))
        else SocialCampaign(None, None)
  }

  /** `formatReferrer`: "Direct" for nothing, the domain of a URL, otherwise the text itself. */
  function FormatReferrer(referrer: string, url: Option<Url>): (r: string)
    ensures referrer == "" ==> r == "Direct"
    ensures referrer != "" && url.Some? ==> r == Domain(url.value.hostname)
    ensures referrer != "" && url.None? ==> r == referrer
  {
    if referrer == "" then "Direct"
    else
      match url
      case Some(u) => Domain(u.hostname)
      case None => referrer
  }

  /** The display agrees with the domain classification records for every URL the classifier reads. */
  lemma FormatMatchesDomain(referrer: string, utmSource: Option<string>, u: Url, currentHost: Option<string>)
    requires referrer != "" && !Truthy(utmSource)
    ensures Categorize(referrer, utmSource, Some(u), currentHost).value.domain == Some(FormatReferrer(referrer, Some(u)))
  {
  }

  /** Removing "www." removes only the first one, so a host without one is left as it is. */
  lemma DomainKeepsPlainHost(hostname: string)
    requires !Contains(hostname, "www.")
    ensures Domain(hostname) == hostname
  {
  }

  lemma {:induction false} DomainDropsLeadingWww(rest: string)
    ensures Domain("www." + rest) == rest
  {
    assert OccursAt("www." + rest, "www.", 0);
    IndexOfFirst("www." + rest, "www.", 0);
    assert ("www." + rest)[4..] == rest;
  }

  // ---------------------------------------------------------------------------
  // getReferrerColor and getReferrerIcon

  /** `getReferrerColor`: the chart colour of each category. */
  function Color(c: Category): (r: string)
    ensures |r| == 7 && r[0] == '#'
  {
    match c
    case Direct => "#6366f1"
    case Search => "#10b981"
    case Social => "#f59e0b"
    case Email => "#ec4899"
    case Referral => "#8b5cf6"
    case Campaign => "#06b6d4"
    case Internal => "#6b7280"
  }

  /** No two categories share a colour. */
  lemma ColorsDistinct(a: Category, b: Category)
    requires a != b
    ensures Color(a) != Color(b)
  {
    assert Color(a)[1] != Color(b)[1] || Color(a)[2] != Color(b)[2];
  }

  /**
   * `getReferrerIcon` as the file holds it: each emoji's UTF-8 bytes read back as Windows-1254
   * text, so the dashboard shows three or four Turkish and punctuation letters per category.
   * The `|| ...` fallback cannot be taken, since every entry is non-empty.
   */
  function IconAsWritten(c: Category): (r: string)
    ensures 3 <= |r| <= 4 && r[0] == 'ğ' && r[1] == 'Ÿ'
  {
    match c
    case Direct => "ğŸ”—"
    case Search => "ğŸ”"
    case Social => "ğŸ“±"
    case Email => "ğŸ“§"
    case Referral => "ğŸŒ"
    case Campaign => "ğŸ“¢"
    case Internal => "ğŸ "
  }

  /** The emoji each category is meant to show: link, magnifier, phone, e-mail, globe, megaphone, house. */
  function Icon(c: Category): (r: string)
    ensures |r| == 1 && '\U{1F300}' <= r[0] <= '\U{1F5FF}'
  {
    match c
    case Direct => "\U{1F517}"
    case Search => "\U{1F50D}"
    case Social => "\U{1F4F1}"
    case Email => "\U{1F4E7}"
    case Referral => "\U{1F310}"
    case Campaign => "\U{1F4E2}"
    case Internal => "\U{1F3E0}"
  }

  /** The UTF-8 encoding of one character. */
  function Utf8(c: char): (bytes: seq<int>)
    ensures 1 <= |bytes| <= 4
    ensures forall i :: 0 <= i < |bytes| ==> 0 <= bytes[i] < 256
  {
    var n := c as int;
    if n < 0x80 then [n]
    else if n < 0x800 then [0xC0 + n / 64, 0x80 + n % 64]
    else if n < 0x1_0000 then [0xE0 + n / 4096, 0x80 + (n / 64) % 64, 0x80 + n % 64]
    else [0xF0 + n / 0x4_0000, 0x80 + (n / 4096) % 64, 0x80 + (n / 64) % 64, 0x80 + n % 64]
  }

  /** A byte read as Windows-1254 (Turkish); None for the seven bytes the code page leaves undefined. */
  function Cp1254(b: int): (r: Option<char>)
    requires 0 <= b < 256
    ensures b < 0x80 ==> r == Some(b as char)
    ensures r.None? <==> b in {0x81, 0x8D, 0x8E, 0x8F, 0x90, 0x9D, 0x9E}
  {
    if b < 0x80 then Some(b as char)
    else if b < 0xA0 then
      match b
      case 0x80 => Some('€') case 0x82 => Some('‚') case 0x83 => Some('ƒ')
      case 0x84 => Some('„') case 0x85 => Some('…') case 0x86 => Some('†')
      case 0x87 => Some('‡') case 0x88 => Some('ˆ') case 0x89 => Some('‰')
      case 0x8A => Some('Š') case 0x8B => Some('‹') case 0x8C => Some('Œ')
      case 0x91 => Some('‘') case 0x92 => Some('’') case 0x93 => Some('“')
      case 0x94 => Some('”') case 0x95 => Some('•') case 0x96 => Some('–')
      case 0x97 => Some('—') case 0x98 => Some('˜') case 0x99 => Some('™')
      case 0x9A => Some('š') case 0x9B => Some('›') case 0x9C => Some('œ')
      case 0x9F => Some('Ÿ')
      case _ => None
    else if b == 0xD0 then Some('Ğ')
    else if b == 0xDD then Some('İ')
    else if b == 0xDE then Some('Ş')
    else if b == 0xF0 then Some('ğ')
    else if b == 0xFD then Some('ı')
    else if b == 0xFE then Some('ş')
    else Some(b as char)
  }

  /** Bytes read as Windows-1254 text, undefined bytes dropped. */
  function DecodeCp1254(bytes: seq<int>): (r: string)
    requires forall i :: 0 <= i < |bytes| ==> 0 <= bytes[i] < 256
    ensures |r| <= |bytes|
  {
    if bytes == [] then [] else DecodeByte(bytes[0]) + DecodeCp1254(bytes[1..])
  }

  /** Text saved as UTF-8 and reopened as Windows-1254. */
  function Mojibake(s: string): (r: string)
    ensures |r| <= 4 * |s|
  {
    if s == [] then [] else DecodeCp1254(Utf8(s[0])) + Mojibake(s[1..])
  }

  /** ASCII text survives the round trip, so only the emoji were damaged. */
  lemma {:induction false} MojibakeKeepsAscii(s: string)
    requires forall i :: 0 <= i < |s| ==> s[i] < '\U{80}'
    ensures Mojibake(s) == s
  {
    if s != [] {
      MojibakeKeepsAscii(s[1..]);
      assert DecodeCp1254(Utf8(s[0])) == [s[0]];
    }
  }

  /** Each icon as written is exactly the intended emoji, mis-decoded. */
  lemma IconAsWrittenIsMojibake(c: Category)
    ensures IconAsWritten(c) == Mojibake(Icon(c))
  {
    IconMojibake(c);
    match c
    case Direct =>
    case Search =>
    case Social =>
    case Email =>
    case Referral =>
    case Campaign =>
    case Internal =>
  }

  /** Every icon emoji lies in U+1F000..U+1FFFF, so it mis-decodes to "ğŸ" and two more bytes. */
  lemma IconMojibake(c: Category)
    ensures var n := Icon(c)[0] as int;
      Mojibake(Icon(c)) == "ğŸ" + DecodeByte(0x80 + (n / 64) % 64) + DecodeByte(0x80 + n % 64)
  {
    var s := Icon(c);
    assert s == [s[0]];
    MojibakeOne(s[0]);
    var n := s[0] as int;
    var b := Utf8(s[0]);
    assert b == [0xF0, 0x9F, 0x80 + (n / 64) % 64, 0x80 + n % 64] by {
      EmojiBytes(s[0]);
    }
    DecodeEmoji(b);
    assert "ğŸ" + DecodeByte(b[2]) + DecodeByte(b[3]) == "ğŸ" + DecodeByte(0x80 + (n / 64) % 64) + DecodeByte(0x80 + n % 64);
  }

  /** The UTF-8 form of a character from U+1F000 to U+1FFFF. */
  lemma EmojiBytes(ch: char)
    requires '\U{1F000}' <= ch <= '\U{1FFFF}'
    ensures Utf8(ch) == [0xF0, 0x9F, 0x80 + (ch as int / 64) % 64, 0x80 + ch as int % 64]
  {
    var n := ch as int;
    assert n / 0x4_0000 == 0 && (n / 4096) % 64 == 0x1F;
  }

  lemma MojibakeOne(ch: char)
    ensures Mojibake([ch]) == DecodeCp1254(Utf8(ch))
  {
    assert [ch][1..] == [];
  }

  /** A byte read as Windows-1254, as a string of zero or one characters. */
  function DecodeByte(b: int): (r: string)
    requires 0 <= b < 256
    ensures |r| <= 1
  {
    match Cp1254(b)
    case Some(ch) => [ch]
    case None => []
  }

  /** The two lead bytes of a four-byte UTF-8 emoji read as "ğŸ", and the other two each as itself. */
  lemma DecodeEmoji(b: seq<int>)
    requires |b| == 4 && b[0] == 0xF0 && b[1] == 0x9F && 0x80 <= b[2] < 0xC0 && 0x80 <= b[3] < 0xC0
    ensures DecodeCp1254(b) == "ğŸ" + DecodeByte(b[2]) + DecodeByte(b[3])
  {
    var d2, d3 := DecodeByte(b[2]), DecodeByte(b[3]);
    DecodeCons(b[3..]);
    assert b[3..][1..] == [];
    assert DecodeCp1254(b[3..]) == d3;
    DecodeCons(b[2..]);
    assert b[2..][1..] == b[3..];
    DecodeCons(b[1..]);
    assert b[1..][1..] == b[2..];
    DecodeCons(b);
    assert DecodeCp1254(b) == DecodeByte(0xF0) + (DecodeByte(0x9F) + (d2 + d3));
    LeadPair(d2 + d3);
  }

  lemma LeadPair(rest: string)
    ensures DecodeByte(0xF0) + (DecodeByte(0x9F) + rest) == "ğŸ" + rest
  {
    assert DecodeByte(0xF0) == "ğ" && DecodeByte(0x9F) == "Ÿ";
  }

  lemma DecodeCons(b: seq<int>)
    requires b != [] && forall i :: 0 <= i < |b| ==> 0 <= b[i] < 256
    ensures DecodeCp1254(b) == DecodeByte(b[0]) + DecodeCp1254(b[1..])
  {
  }

  /** The as-written link icon is not the link emoji: it is four characters of other text. */
  lemma DirectIconIsNotTheEmoji()
    ensures IconAsWritten(Direct) != Icon(Direct)
    ensures |IconAsWritten(Direct)| == 4
  {
    assert |Icon(Direct)| == 1;
  }

  /** Every category has its own single-character emoji. */
  lemma IconsDistinct(a: Category, b: Category)
    requires a != b
    ensures Icon(a) != Icon(b)
  {
    assert Icon(a)[0] != Icon(b)[0];
  }
}
