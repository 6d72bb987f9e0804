/** The YrForecast class of YR_forecast.h / YR_forecast.cpp: its fields, the
    constructor with curlInit, createURL, populateForecastData and runProgram.
    Fields the implementation uses but the header does not declare
    (`_curl_init`, `_easyhandle`) are declared here. */
module YrClient {
  import opened Outcomes
  import opened ForecastUrl
  import opened JsonModel
  import opened ForecastParse
  import opened CurlTransport

  /** One runProgram: build the URL, fetch, parse. The sentinel strings of
      populateForecastData are handed to the parser like any body. */
  function Run(curlInit: bool, url: string, handle: Handle, net: Transport, buffer: string,
               globalActive: bool, parse: string -> Option<Json>, floatText: real -> string)
    : (r: Checked<YrForecastStruct>)
    ensures curlInit ==>
              (r.Ok? <==> handle.Easy?
                          && (forall i :: 0 <= i < 5 ==> Options(url)[i] !in net.refused)
                          && net.completes
                          && ParseForecastJSON(parse(buffer + Flatten(net.chunks)), floatText).Some?)
    ensures curlInit && r.Ok? ==>
              ParseForecastJSON(parse(buffer + Flatten(net.chunks)), floatText) == Some(r.value)
  {
    match Populate(curlInit, true, url, handle, net, buffer, globalActive).result
    case Fatal => Fatal
    case Ok(body) =>
      match ParseForecastJSON(parse(body), floatText)
      case None => Fatal
      case Some(w) => Ok(w)
  }

  class YrForecast {
    const baseUrl: string
    /** The function-static `forecast` string of populateForecastData, which
        the write callback fills. */
    const forecast: StringBuffer
    var coordsUrl: string
    var currentWeather: Option<YrForecastStruct>
    var latitude: real
    var longitude: real
    var altitude: int
    var urlComplete: bool
    var curlInit: bool
    var easyHandle: Handle
    /** Every call made into libcurl so far, in order. */
    var calls: seq<CurlCall>
    /** Whether the global libcurl environment is set up. */
    var globalActive: bool

    /** The coordinates are stored as given (they are not validated here);
        curl is initialised and no URL exists yet. `easyInit` is what
        `curl_easy_init` returns. */
    constructor (latitude: real, longitude: real, altitude: int, easyInit: Handle)
      ensures this.latitude == latitude && this.longitude == longitude && this.altitude == altitude
      ensures curlInit && !urlComplete && easyHandle == easyInit
      ensures baseUrl == BaseUrl && coordsUrl == [] && currentWeather == None
      ensures calls == [GlobalInit, EasyInit] && globalActive
      ensures fresh(forecast) && forecast.contents == []
    {
      baseUrl := BaseUrl;
      this.latitude := latitude;
      this.longitude := longitude;
      this.altitude := altitude;
      urlComplete := false;
      coordsUrl := [];
      currentWeather := None;
      curlInit := false;
      easyHandle := NullHandle;
      calls := [];
      globalActive := false;
      forecast := new StringBuffer();
      new;
      CurlInit(easyInit);
    }

    /** curlInit: set up the global environment, create the easy handle and
        raise the curl flag. */
    method CurlInit(easyInit: Handle)
      modifies this`calls, this`globalActive, this`easyHandle, this`curlInit
      ensures calls == old(calls) + [GlobalInit, EasyInit] && globalActive
      ensures easyHandle == easyInit && curlInit
    {
      calls := calls + [GlobalInit, EasyInit];
      globalActive := true;
      easyHandle := easyInit;
      curlInit := true;
    }

    function GetURL(): string
      reads this
    {
      coordsUrl
    }

    /** createURL: the URL follows from the coordinates alone, so calling it
        again gives the same URL; no coordinate changes. */
    method CreateURL()
      modifies this`coordsUrl, this`urlComplete
      ensures coordsUrl == CoordsUrl(baseUrl, altitude, latitude, longitude)
      ensures urlComplete
      ensures latitude == old(latitude) && longitude == old(longitude) && altitude == old(altitude)
    {
      var alt := "altitude=" + DecimalText.Dec(altitude);
      var lat := "&lat=" + DecimalText.Fixed6(latitude);
      var lon := "&lon=" + DecimalText.Fixed6(longitude);
      coordsUrl := baseUrl + alt + lat + lon;
      assert baseUrl + alt == baseUrl + "altitude=" + DecimalText.Dec(altitude);
      assert baseUrl + alt + lat == baseUrl + "altitude=" + DecimalText.Dec(altitude) + "&lat=" + DecimalText.Fixed6(latitude);
      urlComplete := true;
    }

    method SetOption(option: CurlOption, net: Transport) returns (ok: bool)
      modifies this`calls
      ensures calls == old(calls) + [SetOpt(option)]
      ensures ok == (option !in net.refused)
    {
      calls := calls + [SetOpt(option)];
      ok := option !in net.refused;
    }

    /** populateForecastData. The result, the calls into libcurl, the static
        buffer and the global environment are those `Populate` gives for the
        flags as they stand. */
    method PopulateForecastData(url: string, easyhandle: Handle, net: Transport) returns (r: Checked<string>)
      modifies this`calls, this`globalActive, forecast
      ensures var f := Populate(curlInit, urlComplete, url, easyhandle, net, old(forecast.contents), old(globalActive));
              r == f.result && calls == old(calls) + f.calls
              && forecast.contents == f.buffer && globalActive == f.globalActive
    {
      if curlInit {
        if urlComplete {
          if easyhandle.NullHandle? {
            return Fatal;
          }
          r := PerformTransfer(url, easyhandle, net);
          return;
        }
        calls := calls + [GlobalCleanup];
        globalActive := false;
        return Ok(UrlRequiredMessage);
      }
      return Ok(NotInitialisedMessage);
    }

    /** The setopt block of populateForecastData: the five options in order,
        stopping at the first one libcurl refuses. */
    method SetAllOptions(url: string, net: Transport) returns (ok: bool)
      modifies this`calls
      ensures calls == old(calls) + SetOptions(Options(url), net.refused).0
      ensures ok == SetOptions(Options(url), net.refused).1
    {
      var opts := Options(url);
      assert opts[..0] == [];
      ok := SetOption(ErrorBuffer, net);
      SetCallsStep(opts, 0);
      assert calls == old(calls) + SetCalls(opts[..1]);
      if !ok {
        SetOptionsRefusedAt(opts, 0, net.refused);
        return;
      }
      ok := SetOption(Url(url), net);
      SetCallsStep(opts, 1);
      assert calls == old(calls) + SetCalls(opts[..2]);
      if !ok {
        SetOptionsRefusedAt(opts, 1, net.refused);
        return;
      }
      ok := SetOption(UserAgent, net);
      SetCallsStep(opts, 2);
      assert calls == old(calls) + SetCalls(opts[..3]);
      if !ok {
        SetOptionsRefusedAt(opts, 2, net.refused);
        return;
      }
      ok := SetOption(WriteFunction, net);
      SetCallsStep(opts, 3);
      assert calls == old(calls) + SetCalls(opts[..4]);
      if !ok {
        SetOptionsRefusedAt(opts, 3, net.refused);
        return;
      }
      ok := SetOption(WriteData, net);
      SetCallsStep(opts, 4);
      assert calls == old(calls) + SetCalls(opts[..5]);
      if !ok {
        SetOptionsRefusedAt(opts, 4, net.refused);
        return;
      }
      SetOptionsAccepted(opts, net.refused);
      assert opts[..5] == opts;
    }

    /** The transfer part of populateForecastData: the options, then, when
        all were accepted, the transfer and the release of the handle. */
    method PerformTransfer(url: string, easyhandle: Handle, net: Transport) returns (r: Checked<string>)
      modifies this`calls, forecast
      ensures var f := Transfer(url, easyhandle, net, old(forecast.contents), globalActive);
              r == f.result && calls == old(calls) + f.calls && forecast.contents == f.buffer
    {
      var ok := SetAllOptions(url, net);
      if !ok {
        return Fatal;
      }
      calls := calls + [Perform];
      ok := EasyPerform(net, forecast);
      calls := calls + [EasyCleanup(easyhandle)];
      if !ok {
        return Fatal;
      }
      return Ok(forecast.contents);
    }

    /** runProgram: createURL, then populateForecastData on the object's own
        URL and handle, then parseForecastJSON of the body. A fatal step ends
        the run; printing is not modelled. */
    method RunProgram(net: Transport, parse: string -> Option<Json>, floatText: real -> string)
      returns (r: Checked<YrForecastStruct>)
      modifies this`coordsUrl, this`urlComplete, this`calls, this`globalActive, this`currentWeather, forecast
      ensures coordsUrl == CoordsUrl(baseUrl, altitude, latitude, longitude) && urlComplete
      ensures r == Run(curlInit, coordsUrl, easyHandle, net, old(forecast.contents), old(globalActive), parse, floatText)
      ensures var f := Populate(curlInit, true, coordsUrl, easyHandle, net, old(forecast.contents), old(globalActive));
              calls == old(calls) + f.calls && forecast.contents == f.buffer && globalActive == f.globalActive
      ensures currentWeather == if r.Ok? then Some(r.value) else old(currentWeather)
    {
      CreateURL();
      ghost var f := Populate(curlInit, true, coordsUrl, easyHandle, net, forecast.contents, globalActive);
      var data := PopulateForecastData(coordsUrl, easyHandle, net);
      assert data == f.result;
      if data.Fatal? {
        return Fatal;
      }
      var weather := ParseForecastJSON(parse(data.value), floatText);
      if weather.None? {
        return Fatal;
      }
      currentWeather := weather;
      r := Ok(weather.value);
    }
  }

  /** The repository's URL test: coordinates 50, 50, 50. */
  method TestUrlWithIntValues() {
    var app := new YrForecast(50.0, 50.0, 50, Easy(1));
    app.CreateURL();
    UrlForFifty(BaseUrl);
    assert app.GetURL() == BaseUrl + "altitude=" + "50" + "&lat=" + "50.000000" + "&lon=" + "50.000000";
    var first := app.GetURL();
    app.CreateURL();
    assert app.GetURL() == first;
  }
}
