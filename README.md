# YR forecast client: a verified Dafny model

This project models the core of a small C++ command-line client for the
yr.no / api.met.no *locationforecast* service. The client has two parts:

* **Coordinate validation.** The `HandleGeoCoords<T>` overload set accepts
  latitude in [-85, 85] and longitude in [-180, 180], unchanged. Any number
  outside its range ends the process. Text falls back to 0. Altitude passes
  integers through, truncates real numbers toward zero and maps text to sea
  level.
* **The `YrForecast` pipeline.**
  * `createURL` renders the query string: the altitude with `std::to_string(int)`, and the coordinates with `std::to_string(float)`, which gives six fractional digits.
  * `populateForecastData` is a guard machine over the `_curl_init` and `_URL_complete` flags. It sets five libcurl options in order and performs the transfer. `dataWriterCallback` fills a static buffer during the transfer, and the easy handle is released afterwards.
  * `parseForecastJSON` walks fixed paths of the response document through nlohmann's `operator[]` into the flat `YrForecastStruct`.
  * `runProgram` sequences createURL, the fetch and the parse.

Files and modules:

| file | module | what it holds |
|---|---|---|
| outcomes.dfy | `Outcomes` | `Option`, and `Checked` (`Ok(v)` or `Fatal`, for `exit(EXIT_FAILURE)`) |
| geo_coords.dfy | `GeoCoords` | the three validators over `Input = Int | Num | Text` |
| decimal_text.dfy | `DecimalText` | `std::to_string` for `int` and for `float` (`%f`), and decoders that read the text back |
| forecast_url.dfy | `ForecastUrl` | the request URL and a decoder for its query |
| json_model.dfy | `JsonModel` | the JSON value tree, `operator[]` lookup, `dump()` and string unescaping |
| forecast_parse.dfy | `ForecastParse` | `YrForecastStruct` and `parseForecastJSON` |
| curl_transport.dfy | `CurlTransport` | the libcurl transport oracle, `dataWriterCallback`, the transfer loop, and the specification function `Populate` |
| yr_forecast.dfy | `YrClient` | class `YrForecast`: its constructor, `curlInit`, `createURL`, `getURL` (the function `GetURL`), `populateForecastData` and `runProgram`, plus the function `Run` that specifies `runProgram` |

libcurl is an oracle value, `Transport`. It holds:

* the set of options the library refuses;
* the chunks it delivers to the write callback;
* whether `curl_easy_perform` reports success.

The class records every call it makes into libcurl in a `calls` log. That
log lets the contracts state the order of calls and the release of the
handle.

`json::parse` is a parameter of type `string -> Option<Json>`, where
`None` means the parse threw. The library's float formatting in `dump()`
is a parameter too, `floatText`.

Behaviours of the code worth knowing:

* A missing URL is detected through the `_URL_complete` flag, not by checking for an empty string.
* A parse failure is caught and only logged, so the run does not fail fast. It still ends in `Fatal`, because every lookup on the null document reads null and null does not convert to `float`.
* A missing `symbol_code` does not fail the parse: `dump()` of null gives `null`.
* A JSON boolean converts to 1 or 0.
* A refused option, and a null handle, exit without releasing the handle.

## Model

| member | source | states |
|---|---|---|
| GeoCoords.ValidateLatitude | YR_forecast.h:113-169 | text gives 0.0; a number is fatal exactly when it lies outside [-85, 85]; an accepted number comes back unchanged |
| GeoCoords.ValidateLongitude | YR_forecast.h:172-226 | text gives 0.0; a number is fatal exactly when it lies outside [-180, 180]; an accepted number comes back unchanged |
| GeoCoords.TruncateTowardZero | YR_forecast.h:233-242 | `static_cast<int>` of a real: the largest integer not above x when x is non-negative, and the smallest not below x otherwise |
| GeoCoords.ValidateAltitude | YR_forecast.h:228-250 | an int is returned as is; a real is truncated toward zero, so the result lies between 0 and x, keeps its sign and differs from x by less than 1; text gives 0 |
| GeoCoords.LatitudeIdempotent | YR_forecast.h:113-161 | re-validating an accepted latitude gives the same result |
| GeoCoords.LongitudeIdempotent | YR_forecast.h:172-218 | re-validating an accepted longitude gives the same result |
| GeoCoords.IntOverloadsAgree | YR_forecast.h:113-242 | the int overloads agree with the floating-point overloads on the same number |
| GeoCoords.RangeBoundaries | YR_forecast.h:117-149 | both ends of each range are accepted, and 0.0001 beyond either end is fatal |
| GeoCoords.UnitTestCases | test.cpp:19-127 | 4, 4.999, 4.5555555 and "four" are accepted as longitudes; 400, 400.788 and 400.899988 are fatal; altitudes 4, 4.5555 and 4.555555555 give 4 |
| DecimalText.NatDec | YR_forecast.cpp:58 | the decimal text of a natural is a non-empty run of digits, with no leading zero when it has two or more digits |
| DecimalText.Dec | YR_forecast.cpp:58 | `std::to_string(int)` is a number text that starts with '-' exactly when the value is negative |
| DecimalText.DecodeDec | YR_forecast.cpp:58 | reading the text of `std::to_string(int)` back gives the integer |
| DecimalText.RoundHalfEven | YR_forecast.cpp:59-60 | the result is within 0.5 of its argument, and ties go to the even neighbour |
| DecimalText.Micro | YR_forecast.cpp:59-60 | the value in millionths is within half a millionth of the input |
| DecimalText.DecodeFixed6OfFixed6 | YR_forecast.cpp:59-60 | reading the six-decimal text back gives the value rounded to millionths |
| DecimalText.Fixed6OfInteger | YR_forecast.cpp:59-60 | an integral value renders as its integer text followed by ".000000" |
| ForecastUrl.DecodeCoordsUrl | YR_forecast.cpp:52-65 | the URL's query decodes to the altitude and the two coordinates in millionths |
| ForecastUrl.CoordsUrlDeterminesQuery | YR_forecast.cpp:58-62 | two coordinate sets give the same URL only when their altitudes agree and their coordinates agree to the millionth |
| ForecastUrl.UrlForFifty | test.cpp:5-15 | coordinates (50, 50, 50) give `altitude=50&lat=50.000000&lon=50.000000` after the base URL |
| JsonModel.Member | YR_forecast.cpp:165-178 | a key is found exactly when some member carries it, and what is found is a member's value |
| JsonModel.Child | YR_forecast.cpp:165-178 | one `operator[]` step fails exactly on the wrong container type; a null document yields null; a key on an object yields the member's value, or null when the key is missing; an index inside an array yields that element, and one past the end yields null |
| JsonModel.LookupNull | YR_forecast.cpp:157-168 | every chain of steps into a null document reads null |
| JsonModel.LookupAppend | YR_forecast.cpp:165-178 | a lookup along `p + q` is the lookup along `p` followed by the lookup along `q` |
| JsonModel.LookupBuild | YR_forecast.cpp:165-178 | a document built to hold a leaf at the end of a path yields that leaf along that path |
| JsonModel.EscapeChar | YR_forecast.cpp:170 | an escaped character is non-empty, starts with a backslash exactly for `"`, `\` and control characters, and never starts with a quote |
| JsonModel.Quote | YR_forecast.cpp:170 | `dump()` of a string is wrapped in double quotes |
| JsonModel.UnescapeEscape | YR_forecast.cpp:170 | unescaping the escaped text gives the original string back |
| JsonModel.UnquoteQuote | YR_forecast.cpp:170 | `dump()` of a string keeps the whole text: it reads back to the string |
| JsonModel.QuotePlain | YR_forecast.cpp:167-170 | a plain string, such as a symbol code, is dumped as itself between double quotes |
| ForecastParse.AsFloat | YR_forecast.cpp:171-178 | conversion to `float` succeeds exactly on integer, float and boolean values; numbers keep their value, and true and false become 1 and 0 |
| ForecastParse.ParseForecastReadsPaths | YR_forecast.cpp:152-181 | the parse succeeds exactly when the symbol code can be read and each of the six instant-detail fields and the precipitation converts to float; each struct field is the value read from its own path, and the summary is the `dump()` of the symbol code |
| ForecastParse.UnparsedResponseYieldsNothing | YR_forecast.cpp:157-164 | a parse that threw, and a null document, both give no forecast |
| ForecastParse.MissingReadingYieldsNothing | YR_forecast.cpp:165-176 | a response whose `instant.details` object lacks one of the six readings yields no forecast |
| ForecastParse.MissingSymbolCodeDumpsNull | YR_forecast.cpp:167-170 | a summary without `symbol_code` reads the code as null, and any forecast produced then has the summary text `null` |
| ForecastParse.ParseResponseDocument | YR_forecast.cpp:165-178 | for a response holding given leaves, the parse succeeds exactly when the seven numeric leaves are numbers; the struct holds exactly those numbers and the dumped symbol code |
| CurlTransport.FlattenEmpty | YR_forecast.cpp:22-32 | the delivered body is empty exactly when every chunk is empty |
| CurlTransport.DataWriterCallback | YR_forecast.cpp:22-32 | a null sink takes nothing and returns 0; otherwise `size*nmemb` characters are appended after the unchanged prefix, and that count is returned |
| CurlTransport.EasyPerform | YR_forecast.cpp:135 | the sink ends as its old contents followed by every delivered chunk in order; the transfer succeeds exactly when the library completes and the callback took everything |
| CurlTransport.SetCalls | YR_forecast.cpp:99-133 | one setopt call per option, in order |
| CurlTransport.SetOptionsRefusedAt | YR_forecast.cpp:99-133 | when the k-th option is the first refused one, the options up to and including it are set, and no further |
| CurlTransport.SetOptionsAccepted | YR_forecast.cpp:99-133 | all options are set, in order, exactly when none is refused |
| CurlTransport.Populate | YR_forecast.cpp:84-150 | without curl: the first sentinel and no calls. Without a URL: a global cleanup and the second sentinel. A null handle: fatal with no calls. A transfer is attempted only with both flags set and a real handle, and it is always followed at once by the release of the handle. Success happens exactly when the handle is real, no option is refused and the transfer completes, and it returns the old buffer followed by the delivered body |
| CurlTransport.Transfer | YR_forecast.cpp:99-143 | the transfer leaves the global environment alone; it succeeds exactly when every option is accepted and the library completes, returns the buffer followed by the body, and releases the handle right after performing |
| CurlTransport.TransferRefused | YR_forecast.cpp:99-133 | a refused option ends the transfer with the options up to it set and the buffer untouched |
| CurlTransport.TransferAccepted | YR_forecast.cpp:134-143 | with every option accepted, the calls are the five setopts, the perform and the cleanup, and the buffer gains the body |
| YrClient.Run | YR_forecast.cpp:205-216 | with curl initialised, a run succeeds exactly when the fetch succeeds and the body parses to a forecast, and the result is that forecast |
| YrClient.YrForecast.constructor | YR_forecast.cpp:41-50 | the coordinates are stored as given; curl is initialised; no URL exists yet; the static buffer is empty |
| YrClient.YrForecast.CurlInit | YR_forecast.cpp:69-78 | a global init and an easy init are logged, the handle is stored and the curl flag is raised |
| YrClient.YrForecast.CreateURL | YR_forecast.cpp:52-65 | the URL is `CoordsUrl` of the stored coordinates; the URL flag is raised; no coordinate changes |
| YrClient.YrForecast.SetOption | YR_forecast.cpp:99-133 | one setopt call is logged, and it succeeds exactly when the library accepts the option |
| YrClient.YrForecast.SetAllOptions | YR_forecast.cpp:98-133 | the calls logged and the outcome are those `SetOptions` gives for the five options |
| YrClient.YrForecast.PerformTransfer | YR_forecast.cpp:98-143 | the result, the calls logged and the buffer are those `Transfer` gives |
| YrClient.YrForecast.PopulateForecastData | YR_forecast.cpp:84-150 | the result, the calls logged, the static buffer and the global environment are those `Populate` gives for the current flags |
| YrClient.YrForecast.RunProgram | YR_forecast.cpp:205-216 | the URL is built from the coordinates; the result is `Run` of the response; the calls, buffer and global environment are those of `Populate` with the URL flag raised; the stored weather changes only on success |

## Left out

- printForecast and every console diagnostic: output only; the model returns values instead of printing.
- `exit(EXIT_FAILURE)` is the `Fatal` outcome; process termination itself is not modelled.
- libcurl internals, TLS, HTTP and the error buffer's contents: the library is the `Transport` oracle, which refuses options, delivers chunks and completes or fails.
- The `CURLcode` parameter of populateForecastData: each libcurl call's outcome comes from the oracle instead.
- `json::parse` of text is the library's parser, a parameter here; the model starts from the tree or from the parse failure.
- The shortest round-trip formatting of floating-point numbers inside `dump()` is a parameter, `floatText`.
- GeoCoords.ValidateLatitude, GeoCoords.ValidateLongitude, GeoCoords.ValidateAltitude: coordinates are real numbers, so the narrowing `static_cast<float>` of double input and the undefined behaviour of `static_cast<int>` outside the int range are not modelled.
- ForecastParse.ParseForecastJSON: the struct's fields are reals, so the narrowing from the JSON number to `float` is not modelled.
- DecimalText.Fixed6: rounds the exact real value to millionths, half to even; the binary value a `float` holds is not modelled.
- YrClient.YrForecast.CreateURL: the altitude is an unbounded integer, not a 32-bit `int`.
- YrClient.YrForecast.PopulateForecastData: does not capture that `curl_easy_cleanup` (YR_forecast.cpp:137) frees the handle while `_easyhandle` keeps pointing at it, nor that `curl_global_cleanup` (YR_forecast.cpp:146) ends the global environment. A second populateForecastData or runProgram on the same object uses freed memory in the source, which is undefined behaviour. The model has no released state: it logs the cleanup and runs the whole transfer again on the same handle. The "old buffer followed by the body" clause of `CurlTransport.Populate` only matters in that reuse, because the first transfer of an object starts from an empty buffer.
- YrClient.YrForecast.RunProgram: the same reuse of a released handle applies when it is called more than once.
- CurlTransport.DataWriterCallback: returns an unbounded `nat`. The source declares the callback `int`, returns the `size_t` product `size * nmemb` narrowed to `int`, and libcurl expects a callback returning `size_t`. The narrowing and the mismatched callback type are not modelled.
- JsonModel.Member: the `Json` datatype also admits objects with duplicate or unsorted keys, which the library never builds: its objects hold unique keys in ascending order, and its parser keeps the last of duplicate keys. On such trees `Member` returns the first match.
- CurlTransport.EasyPerform: the response body and its chunks are strings of characters, while libcurl delivers bytes and `size * nmemb` counts bytes; appending behaves the same either way, but byte encoding is not modelled.
- YrClient.YrForecast: the static `forecast` buffer of populateForecastData is a field of each object, not a single buffer shared by every object of the program.
- `getParsedData` is declared in YR_forecast.h but never defined, so there is nothing to model.
- main.cpp is not part of this model: it is program glue, and it does not compile against the header.
- The global statics `_forecast_data`, `_forecast_data_json` and `errorBuffer` are not modelled: their values are passed along directly.
