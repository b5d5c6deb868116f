/** One endpoint's collection: gatherURL (plugins/inputs/arangodb/arangodb.go,
    lines 102-192), with every library and network step replaced by the outcome
    an oracle supplies for it. */
module Endpoint {
  import opened Results
  import opened ArangoTypes
  import opened Normalizer
  import opened Requests

  /** What an HTTP exchange followed by ioutil.ReadAll and json.Unmarshal gives. */
  datatype Exchange<T> =
    | TransportError(cause: string)   // client.Do returned an error and no response
    | ReadError(cause: string)        // reading the response body failed
    | DecodeError(cause: string)      // the body is not the expected JSON
    | Decoded(value: T)               // the decoded body; absent JSON keys are zero values

  /** The outcome of every library and network step of one endpoint, in the
      order gatherURL reaches them. A step the code does not reach is ignored. */
  datatype Network = Network(
    marshalError: Option<string>,     // json.Marshal of the login body
    loginBuildError: Option<string>,  // http.NewRequest for the login
    login: Exchange<LoginResponse>,
    statsBuildError: Option<string>,  // http.NewRequest for the statistics
    stats: Exchange<ArangoStats>)

  /** The errors gatherURL can return. StatsTransport is the error of line 143. */
  datatype GatherError =
    | MarshalFailed(cause: string)
    | LoginRequestInvalid(cause: string)
    | LoginTransport(url: Url, cause: string)
    | LoginBodyUnreadable(cause: string)
    | LoginUndecodable(cause: string)
    | StatsTransport(url: Url, cause: string)
    | StatsBodyUnreadable(cause: string)
    | StatsUndecodable(cause: string)

  /** How a call ends: a returned error value (None is nil) or a runtime panic. */
  datatype Ending = Returned(err: Option<GatherError>) | Panicked(panic: Panic)

  /** The three measurements, sent under the names Name() gives. */
  datatype Measurement = ArangodbSystem | ArangodbServer | ArangodbClient {
    function Name(): string {
      match this
      case ArangodbSystem => "arangodb_system"
      case ArangodbServer => "arangodb_server"
      case ArangodbClient => "arangodb_client"
    }
  }

  /** The tag names the plugin writes; it writes only "url". */
  datatype TagKey = UrlTag {
    function Name(): string { "url" }
  }

  /** A record handed to acc.AddFields. */
  datatype Record = Record(measurement: Measurement, fields: Fields, tags: map<TagKey, string>)

  /** One call of gatherURL: the requests handed to the HTTP client, the
      records emitted, and how the call ended. */
  datatype EndpointRun = EndpointRun(sent: seq<Request>, emitted: seq<Record>, ending: Ending)

  /** The measurements in emission order. */
  const Measurements: seq<Measurement> := [ArangodbSystem, ArangodbServer, ArangodbClient]

  /** The tag set shared by the three records of an endpoint. */
  function UrlTags(u: Url): (t: map<TagKey, string>)
    ensures t.Keys == {UrlTag} && t[UrlTag] == u.text
  {
    map[UrlTag := u.text]
  }

  /** The three records of an endpoint, in emission order. */
  function Records(u: Url, f: NormalizedFields): (rs: seq<Record>)
    ensures |rs| == |Measurements|
    ensures forall i :: 0 <= i < |rs| ==> rs[i].measurement == Measurements[i] && rs[i].tags == UrlTags(u)
    ensures rs[0].fields == f.system && rs[1].fields == f.server && rs[2].fields == f.client
  {
    [Record(ArangodbSystem, f.system, UrlTags(u)),
     Record(ArangodbServer, f.server, UrlTags(u)),
     Record(ArangodbClient, f.client, UrlTags(u))]
  }

  function Fail(sent: seq<Request>, e: GatherError): EndpointRun {
    EndpointRun(sent, [], Returned(Some(e)))
  }

  /** gatherURL. The error of the stats client.Do is discarded, so when it
      fails the nil response is dereferenced by the deferred Body.Close; the
      same holds for a discarded http.NewRequest error and the header set on
      the nil request. A histogram of fewer than six buckets panics in the
      normaliser. Records are emitted only after every step succeeded. */
  function GatherUrl(u: Url, creds: Credentials, net: Network): (run: EndpointRun)
    ensures run.emitted != [] <==> run.ending == Returned(None)
    ensures run.emitted != [] ==>
      |run.emitted| == 3
      && (forall i :: 0 <= i < 3 ==>
            && run.emitted[i].measurement == Measurements[i]
            && run.emitted[i].tags.Keys == {UrlTag} && run.emitted[i].tags[UrlTag] == u.text)
    ensures |run.sent| <= 2
    ensures |run.sent| >= 1 ==> run.sent[0] == LoginRequestFor(u, creds)
    ensures |run.sent| == 2 ==> net.login.Decoded? && run.sent[1] == StatsRequestFor(u, net.login.value.jwt)
    ensures run.ending.Returned? && run.ending.err.Some? ==> !run.ending.err.value.StatsTransport?
  {
    if net.marshalError.Some? then Fail([], MarshalFailed(net.marshalError.value))
    else if net.loginBuildError.Some? then Fail([], LoginRequestInvalid(net.loginBuildError.value))
    else AfterLogin(u, LoginRequestFor(u, creds), net)
  }

  /** The run's records and ending agree: three records tagged with the
      endpoint exactly when it returns nil, and never the line-143 error. */
  predicate EndsConsistently(u: Url, run: EndpointRun) {
    && (run.emitted != [] <==> run.ending == Returned(None))
    && (run.emitted != [] ==>
         |run.emitted| == 3
         && (forall i :: 0 <= i < 3 ==>
               && run.emitted[i].measurement == Measurements[i]
               && run.emitted[i].tags.Keys == {UrlTag} && run.emitted[i].tags[UrlTag] == u.text))
    && (run.ending.Returned? && run.ending.err.Some? ==> !run.ending.err.value.StatsTransport?)
  }

  /** gatherURL from the login exchange on (lines 116-192). */
  function AfterLogin(u: Url, login: Request, net: Network): (run: EndpointRun)
    ensures EndsConsistently(u, run)
    ensures 1 <= |run.sent| <= 2 && run.sent[0] == login
    ensures |run.sent| == 2 ==> net.login.Decoded? && run.sent[1] == StatsRequestFor(u, net.login.value.jwt)
  {
    match net.login
    case TransportError(c) => Fail([login], LoginTransport(u, c))
    case ReadError(c) => Fail([login], LoginBodyUnreadable(c))
    case DecodeError(c) => Fail([login], LoginUndecodable(c))
    case Decoded(token) =>
      if net.statsBuildError.Some? then EndpointRun([login], [], Panicked(NilStatsRequest))
      else AfterStats(u, [login, StatsRequestFor(u, token.jwt)], net.stats)
  }

  /** gatherURL from the statistics exchange on (lines 140-192). */
  function AfterStats(u: Url, sent: seq<Request>, stats: Exchange<ArangoStats>): (run: EndpointRun)
    ensures EndsConsistently(u, run)
    ensures run.sent == sent
  {
    match stats
    case TransportError(_) => EndpointRun(sent, [], Panicked(NilStatsResponse))
    case ReadError(c) => Fail(sent, StatsBodyUnreadable(c))
    case DecodeError(c) => Fail(sent, StatsUndecodable(c))
    case Decoded(s) =>
      match Normalize(s)
      case Failure(p) => EndpointRun(sent, [], Panicked(p))
      case Success(f) => EndpointRun(sent, Records(u, f), Returned(None))
  }

  /** Every step reached succeeded and the histogram is long enough. */
  predicate AllStepsSucceed(net: Network) {
    && net.marshalError.None? && net.loginBuildError.None? && net.login.Decoded?
    && net.statsBuildError.None? && net.stats.Decoded?
    && |net.stats.value.client.requestTime.counts| >= BucketCount
  }

  /** The login went through and the statistics step then hit a Go panic. */
  predicate PanicReached(net: Network) {
    && net.marshalError.None? && net.loginBuildError.None? && net.login.Decoded?
    && (|| net.statsBuildError.Some?
        || net.stats.TransportError?
        || (net.stats.Decoded? && |net.stats.value.client.requestTime.counts| < BucketCount))
  }

  /** gatherURL returns nil exactly when every step succeeds, and then the
      records carry the normalised fields of the decoded payload. */
  lemma SuccessExactly(u: Url, creds: Credentials, net: Network)
    ensures GatherUrl(u, creds, net).ending == Returned(None) <==> AllStepsSucceed(net)
    ensures AllStepsSucceed(net) ==>
      Normalize(net.stats.value).Success?
      && GatherUrl(u, creds, net).emitted == Records(u, Normalize(net.stats.value).value)
  {
    var run := GatherUrl(u, creds, net);
    if AllStepsSucceed(net) {
      var f := Normalize(net.stats.value).value;
      assert run == EndpointRun([LoginRequestFor(u, creds), StatsRequestFor(u, net.login.value.jwt)],
                                Records(u, f), Returned(None));
    }
  }

  /** gatherURL panics exactly when the statistics step reaches a nil
      dereference or a short histogram; it returns an error exactly when some
      step fails before any panic could be reached. */
  lemma EndingsExactly(u: Url, creds: Credentials, net: Network)
    ensures GatherUrl(u, creds, net).ending.Panicked? <==> PanicReached(net)
    ensures GatherUrl(u, creds, net).ending.Returned? && GatherUrl(u, creds, net).ending.err.Some?
            <==> !PanicReached(net) && !AllStepsSucceed(net)
  {
    var run := GatherUrl(u, creds, net);
    if net.marshalError.None? && net.loginBuildError.None? && net.login.Decoded? {
      var sent := [LoginRequestFor(u, creds), StatsRequestFor(u, net.login.value.jwt)];
      if net.statsBuildError.Some? {
        assert run.ending == Panicked(NilStatsRequest);
      } else {
        match net.stats {
          case TransportError(_) =>
            assert run.ending == Panicked(NilStatsResponse);
          case ReadError(c) =>
            assert run.ending == Returned(Some(StatsBodyUnreadable(c)));
          case DecodeError(c) =>
            assert run.ending == Returned(Some(StatsUndecodable(c)));
          case Decoded(stats) =>
            var n := |stats.client.requestTime.counts|;
            if n < BucketCount {
              assert run.ending == Panicked(IndexOutOfRange(n, n));
            } else {
              assert run.ending == Returned(None);
            }
        }
      }
    } else {
      assert run.ending.Returned? && run.ending.err.Some?;
    }
  }

  /** The branch at line 142 is dead: a failed statistics exchange never comes
      back as an error; with no response to close, it panics. */
  lemma StatsTransportNeverReturned(u: Url, creds: Credentials, net: Network)
    requires net.marshalError.None? && net.loginBuildError.None? && net.login.Decoded?
    requires net.statsBuildError.None? && net.stats.TransportError?
    ensures GatherUrl(u, creds, net).ending == Panicked(NilStatsResponse)
    ensures |GatherUrl(u, creds, net).sent| == 2
  {
  }

  /** Every error return happens before line 187: an endpoint that returns an
      error, or panics, emits nothing. */
  lemma NoRecordsOnFailure(u: Url, creds: Credentials, net: Network)
    ensures !AllStepsSucceed(net) ==> GatherUrl(u, creds, net).emitted == []
  {
    SuccessExactly(u, creds, net);
  }

  /** A login that cannot connect ends the endpoint after one request, with
      the connectivity error naming the endpoint and nothing emitted. */
  lemma LoginUnreachable(u: Url, creds: Credentials, net: Network, cause: string)
    requires net.marshalError.None? && net.loginBuildError.None?
    requires net.login == TransportError(cause)
    ensures GatherUrl(u, creds, net) ==
      EndpointRun([LoginRequestFor(u, creds)], [], Returned(Some(LoginTransport(u, cause))))
  {
  }
}
