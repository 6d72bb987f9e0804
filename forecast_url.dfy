/** The request URL that `createURL` assembles in YR_forecast.cpp, and a
    decoder that reads the three query values back out of it. */
module ForecastUrl {
  import opened Outcomes
  import opened DecimalText

  /** The `_base_url` member of YR_forecast.h; it already ends in '?'. */
  const BaseUrl: string := "https://api.met.no/weatherapi/locationforecast/2.0/compact.json?"

  /** base ++ "altitude=" ++ to_string(altitude) ++ "&lat=" ++ to_string(latitude)
      ++ "&lon=" ++ to_string(longitude). */
  function CoordsUrl(base: string, altitude: int, latitude: real, longitude: real): string {
    base + "altitude=" + Dec(altitude) + "&lat=" + Fixed6(latitude) + "&lon=" + Fixed6(longitude)
  }

  /** The query values a URL carries: altitude in metres, latitude and
      longitude in millionths of a degree. */
  datatype Query = Query(altitude: int, latMicro: int, lonMicro: int)

  /** The text before the first `c` and the text after it. */
  function SplitAt(s: string, c: char): (r: Option<(string, string)>)
    ensures r.Some? ==> s == r.value.0 + [c] + r.value.1 && c !in r.value.0
    ensures r.None? ==> c !in s
  {
    if s == [] then None
    else if s[0] == c then Some(([], s[1..]))
    else
      match SplitAt(s[1..], c)
      case Some((a, b)) => Some(([s[0]] + a, b))
      case None => None
  }

  /** Strips `prefix` from the front of `s`. */
  function After(prefix: string, s: string): (r: Option<string>)
    ensures r.Some? <==> prefix <= s
    ensures r.Some? ==> s == prefix + r.value
  {
    if prefix <= s then Some(s[|prefix|..]) else None
  }

  /** Cuts a request URL into its altitude, latitude and longitude texts. */
  function QueryTexts(base: string, url: string): Option<(string, string, string)> {
    var rest :- After(base + "altitude=", url);
    var s1 :- SplitAt(rest, '&');
    var r2 :- After("lat=", s1.1);
    var s2 :- SplitAt(r2, '&');
    var lonText :- After("lon=", s2.1);
    Some((s1.0, s2.0, lonText))
  }

  /** Reads the altitude, latitude and longitude back out of a request URL. */
  function DecodeUrl(base: string, url: string): Option<Query> {
    var texts :- QueryTexts(base, url);
    var alt :- DecodeInt(texts.0);
    var lat :- DecodeFixed6(texts.1);
    var lon :- DecodeFixed6(texts.2);
    Some(Query(alt, lat, lon))
  }

  lemma {:induction false} SplitAtFirst(a: string, c: char, b: string)
    requires c !in a
    ensures SplitAt(a + [c] + b, c) == Some((a, b))
  {
    if a != [] {
      var s := a + [c] + b;
      assert s[0] == a[0] && a[0] != c;
      assert s[1..] == a[1..] + [c] + b;
      SplitAtFirst(a[1..], c, b);
      assert [a[0]] + a[1..] == a;
    } else {
      assert a + [c] + b == [c] + b;
    }
  }

  lemma NoAmpersand(s: string)
    requires NumberChars(s)
    ensures '&' !in s
  {
  }

  lemma QueryTextsOfUrl(base: string, alt: string, lat: string, lon: string)
    requires '&' !in alt && '&' !in lat
    ensures QueryTexts(base, base + "altitude=" + alt + "&lat=" + lat + "&lon=" + lon) == Some((alt, lat, lon))
  {
    var url := base + "altitude=" + alt + "&lat=" + lat + "&lon=" + lon;
    var head := base + "altitude=";
    var r2 := lat + ['&'] + ("lon=" + lon);
    var rest := alt + ['&'] + ("lat=" + r2);
    assert url == head + rest;
    assert After(head, url) == Some(rest);
    SplitAtFirst(alt, '&', "lat=" + r2);
    assert After("lat=", "lat=" + r2) == Some(r2);
    SplitAtFirst(lat, '&', "lon=" + lon);
    assert After("lon=", "lon=" + lon) == Some(lon);
  }

  /** The URL holds the altitude exactly and each coordinate rounded to
      millionths of a degree, whatever the base. */
  lemma DecodeCoordsUrl(base: string, altitude: int, latitude: real, longitude: real)
    ensures DecodeUrl(base, CoordsUrl(base, altitude, latitude, longitude))
            == Some(Query(altitude, Micro(latitude), Micro(longitude)))
  {
    NoAmpersand(Dec(altitude));
    NoAmpersand(Fixed6(latitude));
    QueryTextsOfUrl(base, Dec(altitude), Fixed6(latitude), Fixed6(longitude));
    DecodeDec(altitude);
    DecodeFixed6OfFixed6(latitude);
    DecodeFixed6OfFixed6(longitude);
  }

  /** Two URLs built on the same base are equal only when their altitudes are
      equal and their coordinates agree to the millionth. */
  lemma CoordsUrlDeterminesQuery(base: string, a1: int, lat1: real, lon1: real, a2: int, lat2: real, lon2: real)
    requires CoordsUrl(base, a1, lat1, lon1) == CoordsUrl(base, a2, lat2, lon2)
    ensures a1 == a2 && Micro(lat1) == Micro(lat2) && Micro(lon1) == Micro(lon2)
  {
    DecodeCoordsUrl(base, a1, lat1, lon1);
    DecodeCoordsUrl(base, a2, lat2, lon2);
  }

  lemma NatDecFifty()
    ensures NatDec(50) == "50"
  {
    assert NatDec(5) == "5";
    assert NatDec(50) == NatDec(5) + "0";
  }

  /** The URL the repository's unit test expects for altitude, latitude and
      longitude all 50 (there `base` is BaseUrl). */
  lemma UrlForFifty(base: string)
    ensures CoordsUrl(base, 50, 50.0, 50.0) == base + "altitude=" + "50" + "&lat=" + "50.000000" + "&lon=" + "50.000000"
  {
    Fixed6Fifty();
  }

  lemma Fixed6Fifty()
    ensures Dec(50) == "50" && Fixed6(50.0) == "50.000000"
  {
    NatDecFifty();
    Fixed6OfInteger(50);
  }
}
