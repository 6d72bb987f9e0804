/** The transfer side of YR_forecast.cpp: the libcurl write callback
    `dataWriterCallback`, the library itself reduced to an oracle, and the
    flag-guarded request sequence of `populateForecastData` as a function of
    the object's flags (the class method in yr_forecast.dfy is proved to
    follow it). */
module CurlTransport {
  import opened Outcomes

  /** A CURL easy handle as `curl_easy_init` returns it; it may be null. */
  datatype Handle = NullHandle | Easy(id: nat)

  /** The options populateForecastData sets, in order. */
  datatype CurlOption = ErrorBuffer | Url(url: string) | UserAgent | WriteFunction | WriteData

  /** The calls the program makes into the library, recorded in order. */
  datatype CurlCall =
    | GlobalInit
    | EasyInit
    | SetOpt(option: CurlOption)
    | Perform
    | EasyCleanup(handle: Handle)
    | GlobalCleanup

  /** How the library behaves on this run: the options it refuses, the pieces
      in which the response body reaches the write callback, and whether
      `curl_easy_perform` reports success once the body has been delivered. */
  datatype Transport = Transport(refused: set<CurlOption>, chunks: seq<string>, completes: bool)

  /** The body the chunks make up. */
  function Flatten(chunks: seq<string>): string {
    if chunks == [] then [] else Flatten(chunks[..|chunks| - 1]) + chunks[|chunks| - 1]
  }

  lemma {:induction false} FlattenEmpty(chunks: seq<string>)
    ensures Flatten(chunks) == [] <==> forall i :: 0 <= i < |chunks| ==> chunks[i] == []
  {
    if chunks != [] {
      var front := chunks[..|chunks| - 1];
      FlattenEmpty(front);
      assert forall i :: 0 <= i < |front| ==> front[i] == chunks[i];
    }
  }

  /** A `std::string` the callback can append to. */
  class StringBuffer {
    var contents: string

    constructor ()
      ensures contents == []
    {
      contents := [];
    }
  }

  /** dataWriterCallback: with no sink it takes nothing and returns 0;
      otherwise it appends the first size * nmemb characters of `data` to the
      sink and returns that count. libcurl always supplies that many. */
  method DataWriterCallback(data: string, size: nat, nmemb: nat, writerData: StringBuffer?) returns (written: nat)
    requires size * nmemb <= |data|
    modifies writerData
    ensures writerData == null ==> written == 0
    ensures writerData != null ==> written == size * nmemb
    ensures writerData != null ==> writerData.contents == old(writerData.contents) + data[..size * nmemb]
  {
    if writerData == null {
      return 0;
    }
    writerData.contents := writerData.contents + data[..size * nmemb];
    written := size * nmemb;
  }

  /** `curl_easy_perform` as the write callback sees it: each chunk goes to
      the callback (size 1, nmemb the chunk's length), and the transfer stops
      with a write error as soon as the callback takes less than it was given.
      Everything delivered is in the sink, and the transfer succeeds exactly
      when the library completes and nothing was refused. */
  method EasyPerform(net: Transport, sink: StringBuffer?) returns (ok: bool)
    modifies sink
    ensures sink != null ==> sink.contents == old(sink.contents) + Flatten(net.chunks)
    ensures ok == (net.completes && (sink != null || Flatten(net.chunks) == []))
  {
    var i := 0;
    while i < |net.chunks|
      invariant 0 <= i <= |net.chunks|
      invariant sink != null ==> sink.contents == old(sink.contents) + Flatten(net.chunks[..i])
      invariant sink == null ==> forall k :: 0 <= k < i ==> net.chunks[k] == []
    {
      var chunk := net.chunks[i];
      var n := DataWriterCallback(chunk, 1, |chunk|, sink);
      if n != |chunk| {
        FlattenEmpty(net.chunks);
        return false;
      }
      assert net.chunks[..i + 1][..i] == net.chunks[..i];
      i := i + 1;
    }
    assert net.chunks[..i] == net.chunks;
    FlattenEmpty(net.chunks);
    ok := net.completes;
  }

  const NotInitialisedMessage: string := "Error, curl handle has not been initialised.\n"
  const UrlRequiredMessage: string := "Error, require URL to make curl request.\n"

  /** The options populateForecastData sets, in the order it sets them. */
  function Options(url: string): seq<CurlOption> {
    [ErrorBuffer, Url(url), UserAgent, WriteFunction, WriteData]
  }

  /** Setting `opts` one by one, stopping at the first refusal: the calls
      made, and whether all were accepted. */
  function SetOptions(opts: seq<CurlOption>, refused: set<CurlOption>): (seq<CurlCall>, bool) {
    if opts == [] then ([], true)
    else if opts[0] in refused then ([SetOpt(opts[0])], false)
    else
      var rest := SetOptions(opts[1..], refused);
      ([SetOpt(opts[0])] + rest.0, rest.1)
  }

  /** The setopt calls for `opts`, in order. */
  function SetCalls(opts: seq<CurlOption>): (calls: seq<CurlCall>)
    ensures |calls| == |opts|
    ensures forall i :: 0 <= i < |opts| ==> calls[i] == SetOpt(opts[i])
  {
    if opts == [] then [] else SetCalls(opts[..|opts| - 1]) + [SetOpt(opts[|opts| - 1])]
  }

  /** When the k-th option is the first refused one, the options up to it
      are set and no further. */
  lemma {:induction false} SetOptionsRefusedAt(opts: seq<CurlOption>, k: nat, refused: set<CurlOption>)
    requires k < |opts| && opts[k] in refused
    requires forall i :: 0 <= i < k ==> opts[i] !in refused
    ensures SetOptions(opts, refused).0 == SetCalls(opts[..k + 1])
    ensures !SetOptions(opts, refused).1
  {
    if k > 0 {
      SetOptionsRefusedAt(opts[1..], k - 1, refused);
      assert SetCalls(opts[..k + 1]) == [SetOpt(opts[0])] + SetCalls(opts[1..][..k]);
    }
  }

  /** Setting one more option adds its call at the end. */
  lemma SetCallsStep(opts: seq<CurlOption>, k: nat)
    requires k < |opts|
    ensures SetCalls(opts[..k + 1]) == SetCalls(opts[..k]) + [SetOpt(opts[k])]
  {
    assert opts[..k + 1][..k] == opts[..k];
  }

  /** All options are set, and only then, exactly when none is refused; the
      calls are the options up to and including the first refused one. */
  lemma {:induction false} SetOptionsAccepted(opts: seq<CurlOption>, refused: set<CurlOption>)
    ensures SetOptions(opts, refused).1 <==> forall i :: 0 <= i < |opts| ==> opts[i] !in refused
    ensures SetOptions(opts, refused).1 ==> SetOptions(opts, refused).0 == SetCalls(opts)
    ensures 1 <= |SetOptions(opts, refused).0| <= |opts| || opts == []
    ensures forall c :: c in SetOptions(opts, refused).0 ==> c.SetOpt?
  {
    if opts != [] && opts[0] !in refused {
      SetOptionsAccepted(opts[1..], refused);
      assert forall i :: 1 <= i < |opts| ==> opts[i] == opts[1..][i - 1];
    }
  }

  /** What one call of populateForecastData produces: its outcome, the library
      calls it makes, the static response buffer and whether the global
      libcurl environment is still set up afterwards. */
  datatype Fetch = Fetch(result: Checked<string>, calls: seq<CurlCall>, buffer: string, globalActive: bool)

  /** populateForecastData as a function of the object's flags, the request's
      URL and handle, and the library's behaviour. */
  function Populate(curlInit: bool, urlComplete: bool, url: string, handle: Handle, net: Transport,
                    buffer: string, globalActive: bool): (f: Fetch)
    // Guards: the curl flag is checked first, then the URL flag.
    ensures !curlInit ==> f == Fetch(Ok(NotInitialisedMessage), [], buffer, globalActive)
    ensures curlInit && !urlComplete ==> f == Fetch(Ok(UrlRequiredMessage), [GlobalCleanup], buffer, false)
    // A null handle ends the program before any option is set.
    ensures curlInit && urlComplete && handle.NullHandle? ==> f.result.Fatal? && f.calls == []
    // A transfer is attempted only with both flags set and a real handle.
    ensures Perform in f.calls ==> curlInit && urlComplete && handle.Easy?
    // The easy handle is released right after the transfer, whatever its outcome.
    ensures Perform in f.calls ==> |f.calls| >= 2 && f.calls[|f.calls| - 2..] == [Perform, EasyCleanup(handle)]
    ensures EasyCleanup(handle) in f.calls ==> Perform in f.calls
    // Success, and what it returns.
    ensures curlInit && urlComplete ==>
              (f.result.Ok? <==> handle.Easy?
                                 && (forall i :: 0 <= i < 5 ==> Options(url)[i] !in net.refused)
                                 && net.completes)
    ensures curlInit && urlComplete && f.result.Ok? ==> f.result.value == buffer + Flatten(net.chunks)
    ensures f.buffer == buffer || f.buffer == buffer + Flatten(net.chunks)
  {
    if !curlInit then Fetch(Ok(NotInitialisedMessage), [], buffer, globalActive)
    else if !urlComplete then Fetch(Ok(UrlRequiredMessage), [GlobalCleanup], buffer, false)
    else if handle.NullHandle? then Fetch(Fatal, [], buffer, globalActive)
    else Transfer(url, handle, net, buffer, globalActive)
  }

  /** The transfer proper, on a real handle: set the options in order, stop
      at the first refused one, otherwise perform and release the handle. */
  function Transfer(url: string, handle: Handle, net: Transport, buffer: string, globalActive: bool): (f: Fetch)
    ensures f.globalActive == globalActive
    ensures Perform in f.calls ==> |f.calls| >= 2 && f.calls[|f.calls| - 2..] == [Perform, EasyCleanup(handle)]
    ensures EasyCleanup(handle) in f.calls ==> Perform in f.calls
    ensures f.result.Ok? <==> (forall i :: 0 <= i < 5 ==> Options(url)[i] !in net.refused) && net.completes
    ensures f.result.Ok? ==> f.result.value == buffer + Flatten(net.chunks)
    ensures f.buffer == buffer || f.buffer == buffer + Flatten(net.chunks)
  {
    var (setup, accepted) := SetOptions(Options(url), net.refused);
    SetOptionsAccepted(Options(url), net.refused);
    if !accepted then Fetch(Fatal, setup, buffer, globalActive)
    else
      var body := buffer + Flatten(net.chunks);
      var calls := setup + [Perform, EasyCleanup(handle)];
      assert calls[|calls| - 2..] == [Perform, EasyCleanup(handle)];
      Fetch(if net.completes then Ok(body) else Fatal, calls, body, globalActive)
  }

  /** A transfer whose k-th option is the first refused one sets the options
      up to it and fails. */
  lemma TransferRefused(url: string, handle: Handle, net: Transport, buffer: string, globalActive: bool, k: nat)
    requires k < 5 && Options(url)[k] in net.refused
    requires forall i :: 0 <= i < k ==> Options(url)[i] !in net.refused
    ensures Transfer(url, handle, net, buffer, globalActive)
            == Fetch(Fatal, SetCalls(Options(url)[..k + 1]), buffer, globalActive)
  {
    SetOptionsRefusedAt(Options(url), k, net.refused);
  }

  /** A transfer with every option accepted sets them all, performs and
      releases the handle. */
  lemma TransferAccepted(url: string, handle: Handle, net: Transport, buffer: string, globalActive: bool)
    requires forall i :: 0 <= i < 5 ==> Options(url)[i] !in net.refused
    ensures var body := buffer + Flatten(net.chunks);
            Transfer(url, handle, net, buffer, globalActive)
            == Fetch(if net.completes then Ok(body) else Fatal,
                     SetCalls(Options(url)[..5]) + [Perform, EasyCleanup(handle)], body, globalActive)
  {
    SetOptionsAccepted(Options(url), net.refused);
    assert Options(url)[..5] == Options(url);
  }
}
