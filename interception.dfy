/**
 * ChuckerInterceptor: how one HTTP call passing through the client is routed
 * (recorded or skipped, mocked or sent to the network), and the Builder that
 * assembles the interceptor's configuration.
 */
module Interception {
  import opened Wrappers
  import opened Transactions
  import MockRepository

  /** Default cap on the recorded request and response content. */
  const MAX_CONTENT_LENGTH: int := 250000

  /** Status code of a mock response whose stored code is missing. */
  const DEFAULT_MOCK_CODE: int := 200

  /** A body decoder: one the application added, or the built-in plain-text one. */
  datatype BodyDecoder = UserDecoder(id: nat) | PlainTextDecoder

  /** The collector the interceptor reports to: the application's own, or a default one
      built from the context. */
  datatype Collector = DefaultCollector | CustomCollector(id: nat)

  /** Where responses are staged: the context's files directory, or a provided one. */
  datatype CacheDirectory = FilesDirectory | ProvidedDirectory(id: nat)

  datatype Request = Request(url: string, encodedPath: string)

  datatype Response = Response(
    code: int,
    message: string,
    protocol: string,
    requestUrl: Option<string>,
    body: Option<string>)

  /** An `IOException`; `description` is its `toString()`. */
  datatype IOException = IOException(description: string)

  /** Any other throwable (a `RuntimeException`, an `Error`); `description` is its `toString()`. */
  datatype OtherThrowable = OtherThrowable(description: string)

  /** What `chain.proceed(request)` does: answer, throw an `IOException`, or throw
      something else. */
  datatype ProceedResult =
    | Responded(response: Response)
    | Failed(exception: IOException)
    | Crashed(throwable: OtherThrowable)

  datatype Chain = Chain(request: Request, proceeds: ProceedResult)

  /** What `intercept` does: return a response, throw an `IOException`, or let another
      throwable pass through. */
  datatype Outcome =
    | Returned(response: Response)
    | Thrown(exception: IOException)
    | Propagated(throwable: OtherThrowable)

  /** `Protocol.get`: a known protocol, or the `IOException` it throws for an unknown name. */
  datatype ProtocolLookup = KnownProtocol(name: string) | UnknownProtocol(exception: IOException)

  /** The collaborators `intercept` hands work to and whose code is not part of this model:
      `ResponseProcessor.process` and `Protocol.get`. */
  datatype Collaborators = Collaborators(
    processResponse: (Response, HttpTransaction) -> Response,
    protocolOf: string -> ProtocolLookup)

  /** One call `intercept` makes on the outside world, in the order made. */
  datatype Call =
    | MockLookedUp(url: string)                // getMockedTransactionByUrl
    | RequestProcessed(request: Request)       // requestProcessor.process
    | ChainProceeded(request: Request)         // chain.proceed
    | ResponseProcessed(response: Response)    // responseProcessor.process
    | ResponseReceived(transaction: HttpTransaction)  // collector.onResponseReceived

  /** Everything one `intercept` call produces: its outcome, its own transaction record
      and the calls it made. */
  datatype Run = Run(outcome: Outcome, transaction: HttpTransaction, calls: seq<Call>)

  // ---------------------------------------------------------------------
  // The routing decision
  // ---------------------------------------------------------------------

  /** A request is recorded unless its encoded path is one of the skip paths. */
  predicate ShouldProcess(skipPaths: set<string>, request: Request) {
    request.encodedPath !in skipPaths
  }

  /** A stored mock replaces the network only when mocking is on and the mock's flag is set. */
  predicate UsesMock(mockingEnabled: bool, stored: Option<HttpTransaction>) {
    mockingEnabled && stored.Some? && stored.value.shouldUseMock
  }

  /** The response built from a stored mock. */
  function MockResponse(mock: HttpTransaction, protocol: string): (r: Response)
    ensures mock.responseCode.None? ==> r.code == DEFAULT_MOCK_CODE
    ensures mock.responseCode.Some? ==> r.code == mock.responseCode.value
    ensures mock.responseMessage.None? ==> r.message == ""
    ensures mock.responseMessage.Some? ==> r.message == mock.responseMessage.value
    ensures r.body == mock.responseBody && r.requestUrl == mock.url && r.protocol == protocol
  {
    Response(
      mock.responseCode.GetOr(DEFAULT_MOCK_CODE),
      mock.responseMessage.GetOr(""),
      protocol,
      mock.url,
      mock.responseBody)
  }

  /** `processMockRequest`. */
  function MockRequestRun(
    process: bool, request: Request, transaction: HttpTransaction,
    mock: HttpTransaction, env: Collaborators): (r: Run)
    ensures r.transaction == transaction
    ensures forall c :: c in r.calls ==> !c.ChainProceeded? && !c.ResponseReceived?
    ensures r.outcome.Thrown? <==> env.protocolOf(mock.protocol.GetOr("")).UnknownProtocol?
    ensures !r.outcome.Propagated?
  {
    match env.protocolOf(mock.protocol.GetOr(""))
    case UnknownProtocol(e) => Run(Thrown(e), transaction, [])
    case KnownProtocol(p) =>
      var response := MockResponse(mock, p);
      if process then
        Run(Returned(env.processResponse(response, transaction)), transaction,
            [RequestProcessed(request), ResponseProcessed(response)])
      else
        Run(Returned(response), transaction, [])
  }

  /** `processRequest`. */
  function RequestRun(
    process: bool, request: Request, transaction: HttpTransaction,
    proceeds: ProceedResult, env: Collaborators): (r: Run)
    ensures ChainProceeded(request) in r.calls
    ensures r.outcome.Returned? <==> proceeds.Responded?
    ensures r.transaction.error.Some? <==> proceeds.Failed? || transaction.error.Some?
    ensures (ResponseReceived(r.transaction) in r.calls) <==> proceeds.Failed?
  {
    var sent := (if process then [RequestProcessed(request)] else []) + [ChainProceeded(request)];
    match proceeds
    case Failed(e) =>
      var failed := transaction.(error := Some(e.description));
      Run(Thrown(e), failed, sent + [ResponseReceived(failed)])
    case Crashed(t) =>
      Run(Propagated(t), transaction, sent)
    case Responded(response) =>
      if process then
        Run(Returned(env.processResponse(response, transaction)), transaction,
            sent + [ResponseProcessed(response)])
      else
        Run(Returned(response), transaction, sent)
  }

  /** `intercept`, given the mock stored for the request's URL (consulted only when
      mocking is on). */
  function InterceptRun(
    skipPaths: set<string>, mockingEnabled: bool, chain: Chain,
    stored: Option<HttpTransaction>, env: Collaborators): (r: Run)
    ensures r.transaction.wasResponseMocked <==> UsesMock(mockingEnabled, stored)
    ensures (MockLookedUp(chain.request.url) in r.calls) <==> mockingEnabled
    ensures (ChainProceeded(chain.request) in r.calls) <==> !UsesMock(mockingEnabled, stored)
  {
    var transaction := NewTransaction();
    var process := ShouldProcess(skipPaths, chain.request);
    if !mockingEnabled then
      RequestRun(process, chain.request, transaction, chain.proceeds, env)
    else
      var run :=
        if UsesMock(mockingEnabled, stored) then
          MockRequestRun(process, chain.request, transaction.(wasResponseMocked := true), stored.value, env)
        else
          RequestRun(process, chain.request, transaction, chain.proceeds, env);
      run.(calls := [MockLookedUp(chain.request.url)] + run.calls)
  }

  predicate Processes(calls: seq<Call>) {
    exists i :: 0 <= i < |calls| && (calls[i].RequestProcessed? || calls[i].ResponseProcessed?)
  }

  /** A skipped path is never handed to either processor, and the response (from the
      network or from the mock) is returned as it came. */
  lemma SkippedRequestIsPassedThrough(
    skipPaths: set<string>, mockingEnabled: bool, chain: Chain,
    stored: Option<HttpTransaction>, env: Collaborators)
    requires chain.request.encodedPath in skipPaths
    ensures var r := InterceptRun(skipPaths, mockingEnabled, chain, stored, env);
      && !Processes(r.calls)
      && (!UsesMock(mockingEnabled, stored) && chain.proceeds.Responded? ==>
            r.outcome == Returned(chain.proceeds.response))
      && (UsesMock(mockingEnabled, stored) && r.outcome.Returned? ==>
            exists p :: r.outcome == Returned(MockResponse(stored.value, p)))
  {
  }

  /** With mocking off there is no lookup and the chain always proceeds. */
  lemma UnmockedCallAlwaysProceeds(
    skipPaths: set<string>, chain: Chain, stored: Option<HttpTransaction>, env: Collaborators)
    ensures var r := InterceptRun(skipPaths, false, chain, stored, env);
      && ChainProceeded(chain.request) in r.calls
      && forall c :: c in r.calls ==> !c.MockLookedUp?
  {
  }

  /** A stored mock whose flag is set replaces the network: the chain is not proceeded,
      the record is marked as mocked, and the mock response is returned (processed
      unless the path is skipped), unless `Protocol.get` rejects its protocol. */
  lemma MockHitReplacesNetwork(
    skipPaths: set<string>, chain: Chain, mock: HttpTransaction, env: Collaborators)
    requires mock.shouldUseMock
    ensures var r := InterceptRun(skipPaths, true, chain, Some(mock), env);
      && (forall c :: c in r.calls ==> !c.ChainProceeded?)
      && r.transaction.wasResponseMocked
      && r.calls[0] == MockLookedUp(chain.request.url)
      && match env.protocolOf(mock.protocol.GetOr(""))
         case UnknownProtocol(e) => r.outcome == Thrown(e)
         case KnownProtocol(p) =>
           var response := MockResponse(mock, p);
           r.outcome == Returned(
             if ShouldProcess(skipPaths, chain.request)
             then env.processResponse(response, r.transaction) else response)
  {
  }

  /** A missing mock, or one whose flag is clear, changes nothing but the lookup itself:
      the outcome and the record are those of the unmocked path, and the record is not
      marked as mocked. */
  lemma MockMissBehavesAsUnmocked(
    skipPaths: set<string>, chain: Chain, stored: Option<HttpTransaction>, env: Collaborators)
    requires stored.None? || !stored.value.shouldUseMock
    ensures var r := InterceptRun(skipPaths, true, chain, stored, env);
      var plain := InterceptRun(skipPaths, false, chain, stored, env);
      && r.outcome == plain.outcome
      && r.transaction == plain.transaction
      && !r.transaction.wasResponseMocked
      && r.calls == [MockLookedUp(chain.request.url)] + plain.calls
  {
  }

  /** When proceeding throws, skipped or not, the error is written on the record, the
      collector hears about it exactly once (as the last call), and the same exception
      is rethrown. */
  lemma NetworkFailureIsRecordedAndRethrown(
    skipPaths: set<string>, mockingEnabled: bool, chain: Chain,
    stored: Option<HttpTransaction>, env: Collaborators)
    requires !UsesMock(mockingEnabled, stored) && chain.proceeds.Failed?
    ensures var r := InterceptRun(skipPaths, mockingEnabled, chain, stored, env);
      var e := chain.proceeds.exception;
      && r.outcome == Thrown(e)
      && r.transaction.error == Some(e.description)
      && |r.calls| > 0
      && r.calls[|r.calls| - 1] == ResponseReceived(r.transaction)
      && forall i :: 0 <= i < |r.calls| - 1 ==> !r.calls[i].ResponseReceived?
  {
  }

  /** Only an `IOException` is caught: any other throwable from the chain passes
      through with no error written on the record and no report to the collector. */
  lemma OtherThrowableIsNotRecorded(
    skipPaths: set<string>, mockingEnabled: bool, chain: Chain,
    stored: Option<HttpTransaction>, env: Collaborators)
    requires !UsesMock(mockingEnabled, stored) && chain.proceeds.Crashed?
    ensures var r := InterceptRun(skipPaths, mockingEnabled, chain, stored, env);
      && r.outcome == Propagated(chain.proceeds.throwable)
      && r.transaction.error.None?
      && forall c :: c in r.calls ==> !c.ResponseReceived?
  {
  }

  // ---------------------------------------------------------------------
  // Decoders
  // ---------------------------------------------------------------------

  /** The decoders the processors use: the user's, in the order added, then the built-in one. */
  function EffectiveDecoders(userDecoders: seq<BodyDecoder>): seq<BodyDecoder> {
    userDecoders + [PlainTextDecoder]
  }

  /** The first non-null result of trying the decoders in order. */
  function FirstDecoded(decoders: seq<BodyDecoder>, decode: BodyDecoder -> Option<string>): Option<string> {
    if decoders == [] then None
    else if decode(decoders[0]).Some? then decode(decoders[0])
    else FirstDecoded(decoders[1..], decode)
  }

  /** User decoders take precedence, in the order they were added; the plain-text
      decoder is consulted only when every one of them declines. */
  lemma {:induction false} UserDecodersComeFirst(userDecoders: seq<BodyDecoder>, decode: BodyDecoder -> Option<string>)
    ensures FirstDecoded(EffectiveDecoders(userDecoders), decode) ==
            if FirstDecoded(userDecoders, decode).Some? then FirstDecoded(userDecoders, decode)
            else decode(PlainTextDecoder)
  {
    if userDecoders != [] {
      assert EffectiveDecoders(userDecoders)[1..] == EffectiveDecoders(userDecoders[1..]);
      UserDecodersComeFirst(userDecoders[1..], decode);
    } else {
      assert EffectiveDecoders(userDecoders)[1..] == [];
    }
  }

  // ---------------------------------------------------------------------
  // The interceptor and its builder
  // ---------------------------------------------------------------------

  class ChuckerInterceptor {
    /** Shared with both processors and grown by `RedactHeader`. */
    var headersToRedact: set<string>
    const decoders: seq<BodyDecoder>
    const collector: Collector
    const mockingEnabled: bool
    const maxContentLength: int
    const alwaysReadResponseBody: bool
    const cacheDirectory: CacheDirectory
    const skipPaths: set<string>

    /** `ChuckerInterceptor(builder)`: copies the builder's configuration. */
    constructor (builder: Builder)
      ensures headersToRedact == builder.headersToRedact
      ensures decoders == EffectiveDecoders(builder.decoders)
      ensures collector == builder.collector.GetOr(DefaultCollector)
      ensures mockingEnabled == builder.mockingEnabled
      ensures maxContentLength == builder.maxContentLength
      ensures alwaysReadResponseBody == builder.alwaysReadResponseBody
      ensures cacheDirectory == builder.cacheDirectory.GetOr(FilesDirectory)
      ensures skipPaths == builder.skipPaths
    {
      headersToRedact := builder.headersToRedact;
      decoders := builder.decoders + [PlainTextDecoder];
      collector := builder.collector.GetOr(DefaultCollector);
      mockingEnabled := builder.mockingEnabled;
      maxContentLength := builder.maxContentLength;
      alwaysReadResponseBody := builder.alwaysReadResponseBody;
      cacheDirectory := builder.cacheDirectory.GetOr(FilesDirectory);
      skipPaths := builder.skipPaths;
    }

    /** `redactHeader`: adds names to the redaction set and removes none. */
    method RedactHeader(headerNames: seq<string>)
      modifies this
      ensures headersToRedact == old(headersToRedact) + set n | n in headerNames
    {
      headersToRedact := headersToRedact + set n | n in headerNames;
    }

    /** `intercept`. */
    method Intercept(
      chain: Chain, mocks: MockRepository.MockHttpTransactionDatabaseRepository, env: Collaborators)
      returns (outcome: Outcome, transaction: HttpTransaction, calls: seq<Call>)
      ensures Run(outcome, transaction, calls) ==
        InterceptRun(skipPaths, mockingEnabled, chain, mocks.GetMockedTransactionByUrl(chain.request.url), env)
    {
      transaction := NewTransaction();
      var request := chain.request;
      var shouldProcessTheRequest := request.encodedPath !in skipPaths;
      if mockingEnabled {
        var mockedTransaction := mocks.GetMockedTransactionByUrl(request.url);
        if mockedTransaction.Some? && mockedTransaction.value.shouldUseMock {
          transaction := transaction.(wasResponseMocked := true);
          outcome, calls := ProcessMockRequest(shouldProcessTheRequest, request, transaction, mockedTransaction.value, env);
        } else {
          outcome, transaction, calls := ProcessRequest(shouldProcessTheRequest, request, transaction, chain, env);
        }
        calls := [MockLookedUp(request.url)] + calls;
      } else {
        outcome, transaction, calls := ProcessRequest(shouldProcessTheRequest, request, transaction, chain, env);
      }
    }

    /** `processMockRequest`: builds the mock response and hands it on instead of the
        network's. */
    method ProcessMockRequest(
      shouldProcessTheRequest: bool, request: Request, transaction: HttpTransaction,
      mockTransaction: HttpTransaction, env: Collaborators)
      returns (outcome: Outcome, calls: seq<Call>)
      ensures Run(outcome, transaction, calls) ==
        MockRequestRun(shouldProcessTheRequest, request, transaction, mockTransaction, env)
    {
      calls := [];
      var protocol := env.protocolOf(mockTransaction.protocol.GetOr(""));
      if protocol.UnknownProtocol? {
        outcome := Thrown(protocol.exception);
        return;
      }
      var mockResponse := Response(
        mockTransaction.responseCode.GetOr(DEFAULT_MOCK_CODE),
        mockTransaction.responseMessage.GetOr(""),
        protocol.name,
        mockTransaction.url,
        mockTransaction.responseBody);
      if shouldProcessTheRequest {
        calls := calls + [RequestProcessed(request)];
      }
      if shouldProcessTheRequest {
        calls := calls + [ResponseProcessed(mockResponse)];
        outcome := Returned(env.processResponse(mockResponse, transaction));
      } else {
        outcome := Returned(mockResponse);
      }
    }

    /** `processRequest`: sends the request down the chain, recording the failure when
        the chain throws. */
    method ProcessRequest(
      shouldProcessTheRequest: bool, request: Request, transaction: HttpTransaction,
      chain: Chain, env: Collaborators)
      returns (outcome: Outcome, recorded: HttpTransaction, calls: seq<Call>)
      ensures Run(outcome, recorded, calls) ==
        RequestRun(shouldProcessTheRequest, request, transaction, chain.proceeds, env)
    {
      recorded := transaction;
      calls := [];
      if shouldProcessTheRequest {
        calls := calls + [RequestProcessed(request)];
      }
      calls := calls + [ChainProceeded(request)];
      match chain.proceeds {
        case Failed(e) =>
          recorded := recorded.(error := Some(e.description));
          calls := calls + [ResponseReceived(recorded)];
          outcome := Thrown(e);
        case Crashed(t) =>
          outcome := Propagated(t);
        case Responded(response) =>
          if shouldProcessTheRequest {
            calls := calls + [ResponseProcessed(response)];
            outcome := Returned(env.processResponse(response, recorded));
          } else {
            outcome := Returned(response);
          }
      }
    }
  }

  /** `ChuckerInterceptor.Builder`. */
  class Builder {
    var collector: Option<Collector>
    var maxContentLength: int
    var cacheDirectory: Option<CacheDirectory>
    var alwaysReadResponseBody: bool
    var headersToRedact: set<string>
    var decoders: seq<BodyDecoder>
    var createShortcut: bool
    var skipPaths: set<string>
    var mockingEnabled: bool

    /** The defaults: 250000 characters of content, nothing redacted, no user decoders,
        shortcut on, nothing skipped, mocking off. */
    constructor ()
      ensures collector.None? && cacheDirectory.None?
      ensures maxContentLength == MAX_CONTENT_LENGTH
      ensures !alwaysReadResponseBody
      ensures headersToRedact == {} && decoders == []
      ensures createShortcut && skipPaths == {} && !mockingEnabled
    {
      collector := None;
      maxContentLength := MAX_CONTENT_LENGTH;
      cacheDirectory := None;
      alwaysReadResponseBody := false;
      headersToRedact := {};
      decoders := [];
      createShortcut := true;
      skipPaths := {};
      mockingEnabled := false;
    }

    method SetCollector(c: Collector)
      modifies this`collector
      ensures collector == Some(c)
    {
      collector := Some(c);
    }

    method MaxContentLength(length: int)
      modifies this`maxContentLength
      ensures maxContentLength == length
    {
      maxContentLength := length;
    }

    /** Both `redactHeaders` overloads: the new names replace the previous set. */
    method RedactHeaders(headerNames: seq<string>)
      modifies this`headersToRedact
      ensures headersToRedact == set n | n in headerNames
    {
      headersToRedact := set n | n in headerNames;
    }

    method AlwaysReadResponseBody(enable: bool)
      modifies this`alwaysReadResponseBody
      ensures alwaysReadResponseBody == enable
    {
      alwaysReadResponseBody := enable;
    }

    /** `addBodyDecoder`: appends, so decoders keep the order they were added in. */
    method AddBodyDecoder(decoder: BodyDecoder)
      modifies this`decoders
      ensures decoders == old(decoders) + [decoder]
    {
      decoders := decoders + [decoder];
    }

    method CreateShortcut(enable: bool)
      modifies this`createShortcut
      ensures createShortcut == enable
    {
      createShortcut := enable;
    }

    method EnableMocking()
      modifies this`mockingEnabled
      ensures mockingEnabled
    {
      mockingEnabled := true;
    }

    method CacheDirectorProvider(provider: CacheDirectory)
      modifies this`cacheDirectory
      ensures cacheDirectory == Some(provider)
    {
      cacheDirectory := Some(provider);
    }

    /** `skipPaths`: adds the encoded path of every candidate; `encodedPathOf` stands for
        building `https://example.com/<candidate>` and taking its encoded path. */
    method SkipPaths(candidatePaths: seq<string>, encodedPathOf: string -> string)
      modifies this`skipPaths
      ensures skipPaths == old(skipPaths) + set p | p in candidatePaths :: encodedPathOf(p)
    {
      var i := 0;
      while i < |candidatePaths|
        invariant 0 <= i <= |candidatePaths|
        invariant skipPaths == old(skipPaths) + set p | p in candidatePaths[..i] :: encodedPathOf(p)
      {
        assert candidatePaths[..i + 1] == candidatePaths[..i] + [candidatePaths[i]];
        skipPaths := skipPaths + {encodedPathOf(candidatePaths[i])};
        i := i + 1;
      }
      assert candidatePaths[..i] == candidatePaths;
    }

    method Build() returns (interceptor: ChuckerInterceptor)
      ensures fresh(interceptor)
      ensures interceptor.decoders == EffectiveDecoders(decoders)
      ensures interceptor.headersToRedact == headersToRedact
      ensures interceptor.mockingEnabled == mockingEnabled
      ensures interceptor.skipPaths == skipPaths
      ensures interceptor.maxContentLength == maxContentLength
      ensures interceptor.collector == collector.GetOr(DefaultCollector)
      ensures interceptor.cacheDirectory == cacheDirectory.GetOr(FilesDirectory)
      ensures interceptor.alwaysReadResponseBody == alwaysReadResponseBody
    {
      interceptor := new ChuckerInterceptor(this);
    }
  }
}
