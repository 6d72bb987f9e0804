/** parseForecastJSON of YR_forecast.cpp: fixed chains of `operator[]` into
    the first timeseries entry, the implicit conversions of the leaves to
    `float`, and the `dump()` of the weather symbol. */
module ForecastParse {
  import opened Outcomes
  import opened JsonModel

  /** YrForecastStruct of YR_forecast.h; `float` fields become `real`. */
  datatype YrForecastStruct = YrForecastStruct(
    airPressureAtSeaLevel: real,
    temperature: real,
    cloudAreaFraction: real,
    relativeHumidity: real,
    windDirection: real,
    windSpeed: real,
    precipitationAmount: real,
    forecastSummary: string)

  /** properties.timeseries[0].data: only the nearest forecast time is read. */
  const FirstEntryData: seq<Step> := [Key("properties"), Key("timeseries"), Index(0), Key("data")]
  const InstantDetailsPath: seq<Step> := FirstEntryData + [Key("instant"), Key("details")]
  const SymbolCodePath: seq<Step> := FirstEntryData + [Key("next_6_hours"), Key("summary"), Key("symbol_code")]
  const PrecipitationPath: seq<Step> :=
    FirstEntryData + [Key("next_6_hours"), Key("details"), Key("precipitation_amount")]

  /** The library's conversion of a node to `float`: integers, floating-point
      numbers and booleans convert; anything else (null included) throws a
      type error, which nothing in the program catches. */
  function AsFloat(j: Json): (r: Option<real>)
    ensures r.Some? <==> (j.Integer? || j.Float? || j.Boolean?)
    ensures j.Integer? ==> r == Some(j.i as real)
    ensures j.Float? ==> r == Some(j.x)
    ensures j.Boolean? ==> r == Some(if j.b then 1.0 else 0.0)
  {
    match j
    case Integer(i) => Some(i as real)
    case Float(x) => Some(x)
    case Boolean(b) => Some(if b then 1.0 else 0.0)
    case _ => None
  }

  /** The number found at the end of `path`, converted to `float`. */
  function NumberAt(root: Json, path: seq<Step>): Option<real> {
    var v :- Lookup(root, path);
    AsFloat(v)
  }

  /** A named reading of `data.instant.details`. */
  function InstantAt(root: Json, name: string): Option<real> {
    NumberAt(root, InstantDetailsPath + [Key(name)])
  }

  /** parseForecastJSON. `parsed` is what the library made of the response
      text; on a parse failure the document stays null. `None` is the program
      ending on an uncaught exception, so no half-filled struct is ever
      produced. */
  function ParseForecastJSON(parsed: Option<Json>, floatText: real -> string): Option<YrForecastStruct> {
    var root := parsed.GetOr(Null);
    var details :- Lookup(root, InstantDetailsPath);
    var summary :- Lookup(root, SymbolCodePath);
    var pressure :- NumberAt(details, [Key("air_pressure_at_sea_level")]);
    var temperature :- NumberAt(details, [Key("air_temperature")]);
    var cloud :- NumberAt(details, [Key("cloud_area_fraction")]);
    var humidity :- NumberAt(details, [Key("relative_humidity")]);
    var windFrom :- NumberAt(details, [Key("wind_from_direction")]);
    var windSpeed :- NumberAt(details, [Key("wind_speed")]);
    var precipitation :- NumberAt(root, PrecipitationPath);
    Some(YrForecastStruct(pressure, temperature, cloud, humidity, windFrom, windSpeed, precipitation,
                          Dump(summary, floatText)))
  }

  lemma InstantAtSplits(root: Json, name: string)
    ensures InstantAt(root, name)
            == match Lookup(root, InstantDetailsPath)
               case None => None
               case Some(d) => NumberAt(d, [Key(name)])
  {
    LookupAppend(root, InstantDetailsPath, [Key(name)]);
  }

  /** What parseForecastJSON extracts, leaf by leaf: the result exists exactly
      when the symbol path can be followed and all seven readings are numbers,
      and then each field is the number at its own path and the summary is the
      dumped symbol code. */
  lemma ParseForecastReadsPaths(parsed: Option<Json>, floatText: real -> string)
    ensures var root := parsed.GetOr(Null);
            var r := ParseForecastJSON(parsed, floatText);
            (r.Some? <==>
              Lookup(root, SymbolCodePath).Some?
              && InstantAt(root, "air_pressure_at_sea_level").Some?
              && InstantAt(root, "air_temperature").Some?
              && InstantAt(root, "cloud_area_fraction").Some?
              && InstantAt(root, "relative_humidity").Some?
              && InstantAt(root, "wind_from_direction").Some?
              && InstantAt(root, "wind_speed").Some?
              && NumberAt(root, PrecipitationPath).Some?)
            && (r.Some? ==>
              r.value == YrForecastStruct(
                InstantAt(root, "air_pressure_at_sea_level").value,
                InstantAt(root, "air_temperature").value,
                InstantAt(root, "cloud_area_fraction").value,
                InstantAt(root, "relative_humidity").value,
                InstantAt(root, "wind_from_direction").value,
                InstantAt(root, "wind_speed").value,
                NumberAt(root, PrecipitationPath).value,
                Dump(Lookup(root, SymbolCodePath).value, floatText)))
  {
    var root := parsed.GetOr(Null);
    InstantAtSplits(root, "air_pressure_at_sea_level");
    InstantAtSplits(root, "air_temperature");
    InstantAtSplits(root, "cloud_area_fraction");
    InstantAtSplits(root, "relative_humidity");
    InstantAtSplits(root, "wind_from_direction");
    InstantAtSplits(root, "wind_speed");
  }

  /** A response that does not parse yields no forecast: every lookup in the
      null document reads null, and null does not convert to a number. */
  lemma UnparsedResponseYieldsNothing(floatText: real -> string)
    ensures ParseForecastJSON(None, floatText) == None
    ensures ParseForecastJSON(Some(Null), floatText) == None
  {
    LookupNull(InstantDetailsPath);
    LookupNull([Key("air_pressure_at_sea_level")]);
  }

  /** A reading missing from `data.instant.details` is read as null, which
      does not convert to a number, so no forecast is produced. */
  lemma MissingReadingYieldsNothing(root: Json, ms: seq<(string, Json)>, name: string, floatText: real -> string)
    requires name in {"air_pressure_at_sea_level", "air_temperature", "cloud_area_fraction",
                      "relative_humidity", "wind_from_direction", "wind_speed"}
    requires Lookup(root, InstantDetailsPath) == Some(Object(ms))
    requires forall i :: 0 <= i < |ms| ==> ms[i].0 != name
    ensures ParseForecastJSON(Some(root), floatText) == None
  {
    assert NumberAt(Object(ms), [Key(name)]) == None by {
      assert Lookup(Object(ms), [Key(name)]) == Some(Null);
    }
    ParseForecastReadsPaths(Some(root), floatText);
    InstantAtSplits(root, name);
  }

  /** A summary without `symbol_code` does not stop the parse: the code is
      read as null, and the forecast summary is the text `null`. */
  lemma MissingSymbolCodeDumpsNull(root: Json, ms: seq<(string, Json)>, floatText: real -> string)
    requires Lookup(root, FirstEntryData + [Key("next_6_hours"), Key("summary")]) == Some(Object(ms))
    requires forall i :: 0 <= i < |ms| ==> ms[i].0 != "symbol_code"
    ensures Lookup(root, SymbolCodePath) == Some(Null)
    ensures ParseForecastJSON(Some(root), floatText).Some? ==>
              ParseForecastJSON(Some(root), floatText).value.forecastSummary == "null"
  {
    var summaryPath := FirstEntryData + [Key("next_6_hours"), Key("summary")];
    assert SymbolCodePath == summaryPath + [Key("symbol_code")];
    LookupAppend(root, summaryPath, [Key("symbol_code")]);
    assert Lookup(Object(ms), [Key("symbol_code")]) == Some(Null);
    ParseForecastReadsPaths(Some(root), floatText);
  }

  /** The leaves a response document carries on the paths that are read. */
  datatype Leaves = Leaves(
    symbolCode: Json,
    pressure: Json,
    temperature: Json,
    cloud: Json,
    humidity: Json,
    windFrom: Json,
    windSpeed: Json,
    precipitation: Json)

  /** data.instant.details of a response. */
  function DetailsNode(l: Leaves): Json {
    Object([
      ("air_pressure_at_sea_level", l.pressure),
      ("air_temperature", l.temperature),
      ("cloud_area_fraction", l.cloud),
      ("relative_humidity", l.humidity),
      ("wind_from_direction", l.windFrom),
      ("wind_speed", l.windSpeed)])
  }

  /** data.next_6_hours of a response. */
  function NextSixHoursNode(l: Leaves): Json {
    Object([
      ("details", Object([("precipitation_amount", l.precipitation)])),
      ("summary", Object([("symbol_code", l.symbolCode)]))])
  }

  /** A document whose first timeseries entry has `data` as its data member. */
  function FirstEntryDocument(data: Json): Json {
    Object([("properties", Object([("timeseries", Array([Object([("data", data)])]))]))])
  }

  /** A locationforecast response cut down to the members on the paths that
      are read (object members in ascending key order, as the library stores
      them). */
  function ResponseDocument(l: Leaves): Json {
    FirstEntryDocument(Object([("instant", Object([("details", DetailsNode(l))])), ("next_6_hours", NextSixHoursNode(l))]))
  }

  lemma LookupFirstEntry(data: Json, rest: seq<Step>)
    ensures Lookup(FirstEntryDocument(data), FirstEntryData + rest) == Lookup(data, rest)
  {
    LookupAppend(FirstEntryDocument(data), FirstEntryData, rest);
    var d1 := FirstEntryDocument(data);
    var d2 := d1.members[0].1;
    var d3 := d2.members[0].1;
    var d4 := d3.elems[0];
    assert Child(d1, Key("properties")) == Some(d2);
    assert Child(d2, Key("timeseries")) == Some(d3);
    assert Child(d3, Index(0)) == Some(d4);
    assert Child(d4, Key("data")) == Some(data);
    assert Lookup(data, []) == Some(data);
    assert Lookup(d4, [Key("data")]) == Some(data);
    assert Lookup(d3, [Index(0), Key("data")]) == Some(data);
    assert Lookup(d2, [Key("timeseries"), Index(0), Key("data")]) == Some(data);
  }

  /** data.instant.details of a response. */
  lemma InstantDetailsLookup(l: Leaves)
    ensures Lookup(ResponseDocument(l), InstantDetailsPath) == Some(DetailsNode(l))
  {
    var instant := Object([("details", DetailsNode(l))]);
    var data := Object([("instant", instant), ("next_6_hours", NextSixHoursNode(l))]);
    LookupFirstEntry(data, [Key("instant"), Key("details")]);
    assert Child(data, Key("instant")) == Some(instant);
    assert Lookup(instant, [Key("details")]) == Some(DetailsNode(l));
  }

  /** data.next_6_hours of a response. */
  lemma NextSixHoursLookup(l: Leaves, rest: seq<Step>)
    ensures Lookup(ResponseDocument(l), FirstEntryData + [Key("next_6_hours")] + rest)
            == Lookup(NextSixHoursNode(l), rest)
  {
    var next6 := NextSixHoursNode(l);
    var data := Object([("instant", Object([("details", DetailsNode(l))])), ("next_6_hours", next6)]);
    assert FirstEntryData + [Key("next_6_hours")] + rest == FirstEntryData + ([Key("next_6_hours")] + rest);
    LookupFirstEntry(data, [Key("next_6_hours")] + rest);
    MemberAt(data.members, 1, "next_6_hours");
    assert Child(data, Key("next_6_hours")) == Some(next6);
  }

  lemma SymbolCodeLookup(l: Leaves)
    ensures Lookup(ResponseDocument(l), SymbolCodePath) == Some(l.symbolCode)
  {
    var rest := [Key("summary"), Key("symbol_code")];
    NextSixHoursLookup(l, rest);
    assert SymbolCodePath == FirstEntryData + [Key("next_6_hours")] + rest;
    var next6 := NextSixHoursNode(l);
    var summary := next6.members[1].1;
    MemberAt(next6.members, 1, "summary");
    assert Child(next6, Key("summary")) == Some(summary);
    assert Lookup(summary, [Key("symbol_code")]) == Some(l.symbolCode);
  }

  lemma PrecipitationLookup(l: Leaves)
    ensures Lookup(ResponseDocument(l), PrecipitationPath) == Some(l.precipitation)
  {
    var rest := [Key("details"), Key("precipitation_amount")];
    NextSixHoursLookup(l, rest);
    assert PrecipitationPath == FirstEntryData + [Key("next_6_hours")] + rest;
    var next6 := NextSixHoursNode(l);
    var precip := next6.members[0].1;
    assert Child(next6, Key("details")) == Some(precip);
    assert Lookup(precip, [Key("precipitation_amount")]) == Some(l.precipitation);
  }

  lemma NumberAtMember(members: seq<(string, Json)>, i: nat, k: string)
    requires i < |members| && members[i].0 == k
    requires forall j :: 0 <= j < i ==> members[j].0 != k
    ensures NumberAt(Object(members), [Key(k)]) == AsFloat(members[i].1)
  {
    MemberAt(members, i, k);
    assert Lookup(Object(members), [Key(k)]) == Lookup(members[i].1, []);
  }

  lemma DetailsLookups(l: Leaves)
    ensures NumberAt(DetailsNode(l), [Key("air_pressure_at_sea_level")]) == AsFloat(l.pressure)
    ensures NumberAt(DetailsNode(l), [Key("air_temperature")]) == AsFloat(l.temperature)
    ensures NumberAt(DetailsNode(l), [Key("cloud_area_fraction")]) == AsFloat(l.cloud)
    ensures NumberAt(DetailsNode(l), [Key("relative_humidity")]) == AsFloat(l.humidity)
    ensures NumberAt(DetailsNode(l), [Key("wind_from_direction")]) == AsFloat(l.windFrom)
    ensures NumberAt(DetailsNode(l), [Key("wind_speed")]) == AsFloat(l.windSpeed)
  {
    FirstDetailsLookups(l);
    LastDetailsLookups(l);
  }

  lemma FirstDetailsLookups(l: Leaves)
    ensures NumberAt(DetailsNode(l), [Key("air_pressure_at_sea_level")]) == AsFloat(l.pressure)
    ensures NumberAt(DetailsNode(l), [Key("air_temperature")]) == AsFloat(l.temperature)
    ensures NumberAt(DetailsNode(l), [Key("cloud_area_fraction")]) == AsFloat(l.cloud)
  {
    var ms := DetailsNode(l).members;
    assert NumberAt(DetailsNode(l), [Key("air_pressure_at_sea_level")]) == AsFloat(l.pressure) by {
      NumberAtMember(ms, 0, "air_pressure_at_sea_level");
    }
    assert NumberAt(DetailsNode(l), [Key("air_temperature")]) == AsFloat(l.temperature) by {
      NumberAtMember(ms, 1, "air_temperature");
    }
    assert NumberAt(DetailsNode(l), [Key("cloud_area_fraction")]) == AsFloat(l.cloud) by {
      NumberAtMember(ms, 2, "cloud_area_fraction");
    }
  }

  lemma LastDetailsLookups(l: Leaves)
    ensures NumberAt(DetailsNode(l), [Key("relative_humidity")]) == AsFloat(l.humidity)
    ensures NumberAt(DetailsNode(l), [Key("wind_from_direction")]) == AsFloat(l.windFrom)
    ensures NumberAt(DetailsNode(l), [Key("wind_speed")]) == AsFloat(l.windSpeed)
  {
    var ms := DetailsNode(l).members;
    assert NumberAt(DetailsNode(l), [Key("relative_humidity")]) == AsFloat(l.humidity) by {
      NumberAtMember(ms, 3, "relative_humidity");
    }
    assert NumberAt(DetailsNode(l), [Key("wind_from_direction")]) == AsFloat(l.windFrom) by {
      NumberAtMember(ms, 4, "wind_from_direction");
    }
    assert NumberAt(DetailsNode(l), [Key("wind_speed")]) == AsFloat(l.windSpeed) by {
      NumberAtMember(ms, 5, "wind_speed");
    }
  }

  /** Reading back a response document: the struct holds the document's
      numbers and the dumped symbol code, and exists exactly when all seven
      readings are numeric. */
  lemma ParseResponseDocument(l: Leaves, floatText: real -> string)
    ensures var r := ParseForecastJSON(Some(ResponseDocument(l)), floatText);
            (r.Some? <==> AsFloat(l.pressure).Some? && AsFloat(l.temperature).Some? && AsFloat(l.cloud).Some?
                          && AsFloat(l.humidity).Some? && AsFloat(l.windFrom).Some? && AsFloat(l.windSpeed).Some?
                          && AsFloat(l.precipitation).Some?)
            && (r.Some? ==> r.value == YrForecastStruct(
                  AsFloat(l.pressure).value, AsFloat(l.temperature).value, AsFloat(l.cloud).value,
                  AsFloat(l.humidity).value, AsFloat(l.windFrom).value, AsFloat(l.windSpeed).value,
                  AsFloat(l.precipitation).value, Dump(l.symbolCode, floatText)))
  {
    InstantDetailsLookup(l);
    SymbolCodeLookup(l);
    PrecipitationLookup(l);
    DetailsLookups(l);
  }
}
