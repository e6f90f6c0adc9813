/**
 * The pure parts of IP geolocation (frontend/lib/geolocation.ts): which proxy header names the
 * client, the flag emoji and country name of a country code, and how the two lookup services'
 * replies become a `GeoLocation`. The HTTP requests themselves are inputs: a reply that never
 * arrived, or whose body was not JSON, is `None`.
 */
module Geolocation {
  import opened Wrappers
  import opened Text

  // ---------------------------------------------------------------------------
  // getClientIP

  /** Request headers, by lower-case name; `headers.get(name)` is a lookup. */
  type Headers = map<string, string>

  function Header(h: Headers, name: string): Option<string> {
    if name in h then Some(h[name]) else None
  }

  /** `s.split(',')[0]`: everything before the first comma. */
  function FirstEntry(s: string): (r: string)
    ensures r == s || (exists i :: 0 <= i < |s| && s[i] == ',' && r == s[..i])
    ensures forall i :: 0 <= i < |r| ==> r[i] != ','
    ensures |r| <= |s| && r == s[..|r|]
  {
    match IndexOf(s, ",")
    case None =>
      assert forall i :: 0 <= i < |s| ==> s[i] != ',' by {
        forall i | 0 <= i < |s| ensures s[i] != ',' {
          assert !OccursAt(s, ",", i);
          assert s[i..i + 1] == [s[i]];
        }
      }
      s
    case Some(i) =>
      assert s[i..i + 1] == ",";
      assert forall j :: 0 <= j < i ==> s[j] != ',' by {
        forall j | 0 <= j < i ensures s[j] != ',' {
          assert !OccursAt(s, ",", j);
          assert s[j..j + 1] == [s[j]];
        }
      }
      s[..i]
  }

  /**
   * `getClientIP`: the first non-empty one of `cf-connecting-ip`, `x-forwarded-for` (its first
   * entry, trimmed), `x-real-ip` and `x-client-ip`, or null.
   */
  function ClientIP(h: Headers): (r: Option<string>)
    ensures Truthy(Header(h, "cf-connecting-ip")) ==> r == Header(h, "cf-connecting-ip")
    ensures !Truthy(Header(h, "cf-connecting-ip")) && Truthy(Header(h, "x-forwarded-for")) ==>
      r == Some(Trim(FirstEntry(h["x-forwarded-for"])))
    ensures (!Truthy(Header(h, "cf-connecting-ip")) && !Truthy(Header(h, "x-forwarded-for"))
      && Truthy(Header(h, "x-real-ip"))) ==> r == Header(h, "x-real-ip")
    ensures (!Truthy(Header(h, "cf-connecting-ip")) && !Truthy(Header(h, "x-forwarded-for"))
      && !Truthy(Header(h, "x-real-ip"))) ==> r == (if Truthy(Header(h, "x-client-ip")) then Header(h, "x-client-ip") else None)
  {
    var cf := Header(h, "cf-connecting-ip");
    var xff := Header(h, "x-forwarded-for");
    var realIp := Header(h, "x-real-ip");
    var client := Header(h, "x-client-ip");
    if Truthy(cf) then cf
    else if Truthy(xff) then Some(Trim(FirstEntry(xff.value)))
    else if Truthy(realIp) then realIp
    else if Truthy(client) then client
    else None
  }

  /** The names `getClientIP` consults, in order. */
  const IP_HEADERS: seq<string> := ["cf-connecting-ip", "x-forwarded-for", "x-real-ip", "x-client-ip"]

  /** The result is null exactly when none of the four headers is present and non-empty. */
  lemma ClientIPNone(h: Headers)
    ensures ClientIP(h).None? <==> forall i :: 0 <= i < |IP_HEADERS| ==> !Truthy(Header(h, IP_HEADERS[i]))
  {
    assert IP_HEADERS[0] == "cf-connecting-ip" && IP_HEADERS[1] == "x-forwarded-for";
    assert IP_HEADERS[2] == "x-real-ip" && IP_HEADERS[3] == "x-client-ip";
  }

  /** The forwarded-for answer is a single address: it never holds a comma or surrounding space. */
  lemma {:induction false} ForwardedIsOneEntry(h: Headers)
    requires !Truthy(Header(h, "cf-connecting-ip")) && Truthy(Header(h, "x-forwarded-for"))
    ensures forall i :: 0 <= i < |ClientIP(h).value| ==> ClientIP(h).value[i] != ','
    ensures ClientIP(h).value != [] ==> !IsJsSpace(ClientIP(h).value[0])
  {
    var e := FirstEntry(h["x-forwarded-for"]);
    var r := Trim(e);
    assert ClientIP(h) == Some(r);
    forall i | 0 <= i < |r| ensures r[i] != ',' {
      assert r[i] == e[LeadingSpaces(e) + i];
    }
  }

  /** A forwarded-for list that starts with a comma yields the empty string, not null. */
  lemma ForwardedMayBeEmpty()
    ensures ClientIP(map["x-forwarded-for" := ", 10.0.0.1"]) == Some("")
  {
    var h := map["x-forwarded-for" := ", 10.0.0.1"];
    assert OccursAt(", 10.0.0.1", ",", 0);
    IndexOfFirst(", 10.0.0.1", ",", 0);
    assert FirstEntry(", 10.0.0.1") == "";
    assert Header(h, "cf-connecting-ip") == None;
  }

  // ---------------------------------------------------------------------------
  // getCountryFlag

  /** The string as JavaScript sees it: UTF-16 code units. */
  function Units(s: string): (r: seq<int>)
    ensures |r| >= |s|
    ensures forall i :: 0 <= i < |r| ==> 0 <= r[i] < 0x1_0000
  {
    if s == [] then []
    else
      var c := s[0] as int;
      var head := if c < 0x1_0000 then [c] else [0xD800 + (c - 0x1_0000) / 1024, 0xDC00 + (c - 0x1_0000) % 1024];
      head + Units(s[1..])
  }

  /** A code unit after `toUpperCase`, on ASCII letters. */
  function UpperUnit(u: int): int {
    if 'a' as int <= u <= 'z' as int then u - 32 else u
  }

  const GLOBE: char := '\U{1F30D}'

  /** The regional indicator symbol for a code unit: `127397 + charCodeAt(0)`. */
  function Indicator(u: int): (c: char)
    requires 0 <= u < 0x1_0000
    ensures c as int == 127397 + UpperUnit(u)
  {
    (127397 + UpperUnit(u)) as char
  }

  /** `getCountryFlag`: the globe unless the code is two units long, else two regional indicators. */
  function Flag(code: string): (r: string)
    ensures |Units(code)| != 2 ==> r == [GLOBE]
    ensures |Units(code)| == 2 ==> |r| == 2 && forall i :: 0 <= i < 2 ==> r[i] as int == 127397 + UpperUnit(Units(code)[i])
  {
    var u := Units(code);
    if |u| != 2 then [GLOBE] else [Indicator(u[0]), Indicator(u[1])]
  }

  /** Lowering a character keeps it inside or outside the basic plane. */
  lemma {:induction false} UnitsOfLower(s: string)
    ensures |Units(ToLower(s))| == |Units(s)|
    ensures forall i :: 0 <= i < |Units(s)| ==> UpperUnit(Units(ToLower(s))[i]) == UpperUnit(Units(s)[i])
  {
    if s != [] {
      UnitsOfLower(s[1..]);
      assert ToLower(s)[1..] == ToLower(s[1..]);
      assert ToLower(s)[0] == LowerChar(s[0]);
    }
  }

  /** The flag ignores letter case: "us" and "US" give the same flag. */
  lemma FlagIgnoresCase(code: string)
    ensures Flag(ToLower(code)) == Flag(code)
  {
    UnitsOfLower(code);
  }

  predicate IsAsciiLetter(c: char) {
    'a' <= c <= 'z' || 'A' <= c <= 'Z'
  }

  /** The country code a flag of two regional indicators stands for. */
  function CodeOfFlag(flag: string): (code: string)
    requires |flag| == 2 && forall i :: 0 <= i < 2 ==> 'A' as int + 127397 <= flag[i] as int <= 'Z' as int + 127397
  {
    [(flag[0] as int - 127397) as char, (flag[1] as int - 127397) as char]
  }

  /** A two-letter code's flag is a pair of regional indicators that reads back as the upper-case code. */
  lemma FlagRoundTrip(code: string)
    requires |code| == 2 && IsAsciiLetter(code[0]) && IsAsciiLetter(code[1])
    ensures |Flag(code)| == 2
    ensures forall i :: 0 <= i < 2 ==> '\U{1F1E6}' <= Flag(code)[i] <= '\U{1F1FF}'
    ensures CodeOfFlag(Flag(code)) == ToUpper(code)
  {
    assert Units(code) == [code[0] as int, code[1] as int] by {
      assert code[1..][1..] == [];
      assert Units(code[1..]) == [code[1] as int] + Units(code[1..][1..]);
      assert Units(code) == [code[0] as int] + Units(code[1..]);
    }
  }

  // ---------------------------------------------------------------------------
  // getCountryName

  /** The codes `getCountryName` knows, with their names. */
  const COUNTRIES: map<string, string> := map[
    "US" := "United States", "GB" := "United Kingdom", "CA" := "Canada", "AU" := "Australia",
    "DE" := "Germany", "FR" := "France", "IN" := "India", "JP" := "Japan", "CN" := "China",
    "BR" := "Brazil", "MX" := "Mexico", "ES" := "Spain", "IT" := "Italy", "NL" := "Netherlands",
    "SE" := "Sweden", "NO" := "Norway", "DK" := "Denmark", "FI" := "Finland", "PL" := "Poland",
    "CH" := "Switzerland", "AT" := "Austria", "BE" := "Belgium", "IE" := "Ireland",
    "NZ" := "New Zealand", "SG" := "Singapore", "HK" := "Hong Kong", "KR" := "South Korea",
    "TW" := "Taiwan", "TH" := "Thailand", "MY" := "Malaysia", "ID" := "Indonesia",
    "PH" := "Philippines", "VN" := "Vietnam", "AE" := "UAE", "SA" := "Saudi Arabia",
    "ZA" := "South Africa", "AR" := "Argentina", "CL" := "Chile", "CO" := "Colombia", "PE" := "Peru"
  ]

  /** `getCountryName`: the listed name, else the code itself. */
  function CountryName(code: string): (r: string)
    ensures code in COUNTRIES ==> r == COUNTRIES[code]
    ensures code !in COUNTRIES ==> r == code
  {
    if code in COUNTRIES && COUNTRIES[code] != "" then COUNTRIES[code] else code
  }

  /** Every listed name is a real name: longer than a code, so a name never echoes its code. */
  lemma CountryNamesAreNames(code: string)
    requires code in COUNTRIES
    ensures |CountryName(code)| >= 3 && CountryName(code) != code
  {
  }

  /** The lookup is case-sensitive: a lower-case code is never listed and comes back as it is. */
  lemma CountryNameIsCaseSensitive(code: string)
    requires |code| == 2 && 'a' <= code[0] <= 'z'
    ensures CountryName(code) == code
  {
  }

  // ---------------------------------------------------------------------------
  // The two lookup services

  /** `GeoLocation`: every field optional; `{}` has none. */
  datatype GeoLocation = GeoLocation(
    country: Option<string>, countryCode: Option<string>, city: Option<string>, region: Option<string>,
    latitude: Option<real>, longitude: Option<real>, timezone: Option<string>, ip: Option<string>)

  const NOWHERE := GeoLocation(None, None, None, None, None, None, None, None)

  /** The ipapi.co request URL: the address in the path, or the caller's own address. */
  function IpapiUrl(ip: Option<string>): (r: string)
    ensures Truthy(ip) ==> r == "https://ipapi.co/" + ip.value + "/json/"
    ensures !Truthy(ip) ==> r == "https://ipapi.co/json/"
  {
    if Truthy(ip) then "https://ipapi.co/" + ip.value + "/json/" else "https://ipapi.co/json/"
  }

  /** The ip-api.com request URL. */
  function IpApiUrl(ip: Option<string>): (r: string)
    ensures Truthy(ip) ==> r == "http://ip-api.com/json/" + ip.value
    ensures !Truthy(ip) ==> r == "http://ip-api.com/json/"
  {
    if Truthy(ip) then "http://ip-api.com/json/" + ip.value else "http://ip-api.com/json/"
  }

  /** The fields of an ipapi.co reply that are read. */
  datatype IpapiData = IpapiData(
    country_name: Option<string>, country_code: Option<string>, city: Option<string>, region: Option<string>,
    latitude: Option<real>, longitude: Option<real>, timezone: Option<string>, ip: Option<string>)

  /** A reply that arrived: its `ok` flag and, when it parsed, its JSON body. */
  datatype Reply<T> = Reply(ok: bool, body: Option<T>)

  /** `getGeolocationFromIP`, given what the request produced: any failure becomes `{}`. */
  function FromIpapi(reply: Option<Reply<IpapiData>>): (g: GeoLocation)
    ensures reply.None? || !reply.value.ok || reply.value.body.None? ==> g == NOWHERE
    ensures reply.Some? && reply.value.ok && reply.value.body.Some? ==>
      var d := reply.value.body.value;
      g.country == d.country_name && g.countryCode == d.country_code && g.city == d.city
      && g.region == d.region && g.latitude == d.latitude && g.longitude == d.longitude
      && g.timezone == d.timezone && g.ip == d.ip
  {
    match reply
    case None => NOWHERE
    case Some(Reply(ok, body)) =>
      if !ok then NOWHERE
      else
        match body
        case None => NOWHERE
        case Some(d) => GeoLocation(d.country_name, d.country_code, d.city, d.region, d.latitude, d.longitude, d.timezone, d.ip)
  }

  /** The fields of an ip-api.com reply that are read. */
  datatype IpApiData = IpApiData(
    status: Option<string>, message: Option<string>,
    country: Option<string>, countryCode: Option<string>, city: Option<string>, regionName: Option<string>,
    lat: Option<real>, lon: Option<real>, timezone: Option<string>, query: Option<string>)

  /** A failed lookup whose message names a private or reserved address. */
  predicate IsLocal(d: IpApiData) {
    d.message.Some? && (Contains(d.message.value, "private") || Contains(d.message.value, "reserved"))
  }

  /**
   * `getGeolocationAlternative`: `{}` when no usable reply came back; a failed lookup of a
   * private or reserved address gives the "Local"/"Development" placeholder, any other failed
   * lookup `{}`; otherwise the fields are renamed into a `GeoLocation`.
   */
  function FromIpApi(reply: Option<Reply<IpApiData>>): (g: GeoLocation)
    ensures reply.None? || !reply.value.ok || reply.value.body.None? ==> g == NOWHERE
    ensures reply.Some? && reply.value.ok && reply.value.body.Some? && reply.value.body.value.status == Some("fail") ==>
      g == if IsLocal(reply.value.body.value) then NOWHERE.(country := Some("Local"), city := Some("Development")) else NOWHERE
    ensures reply.Some? && reply.value.ok && reply.value.body.Some? && reply.value.body.value.status != Some("fail") ==>
      var d := reply.value.body.value;
      g.country == d.country && g.countryCode == d.countryCode && g.city == d.city
      && g.region == d.regionName && g.latitude == d.lat && g.longitude == d.lon
      && g.timezone == d.timezone && g.ip == d.query
  {
    match reply
    case None => NOWHERE
    case Some(Reply(ok, body)) =>
      if !ok then NOWHERE
      else
        match body
        case None => NOWHERE
        case Some(d) =>
          if d.status == Some("fail") then
            if IsLocal(d) then NOWHERE.(country := Some("Local"), city := Some("Development")) else NOWHERE
          else GeoLocation(d.country, d.countryCode, d.city, d.regionName, d.lat, d.lon, d.timezone, d.query)
  }

  /** The placeholder is the only country the ip-api.com mapping reports that its reply did not hold. */
  lemma LookupsInventOnlyThePlaceholder(reply: Option<Reply<IpApiData>>)
    requires FromIpApi(reply).country.Some? && reply.Some? && reply.value.body.Some?
    requires reply.value.body.value.country != FromIpApi(reply).country
    ensures FromIpApi(reply) == NOWHERE.(country := Some("Local"), city := Some("Development"))
    ensures reply.value.body.value.status == Some("fail") && IsLocal(reply.value.body.value)
  {
  }
}
