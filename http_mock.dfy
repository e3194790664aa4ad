/**
 * MockClient: the transport-level mock strategy. It decorates the HTTP
 * client: a request whose URI starts with https://api.umd.io is answered with
 * the fixture file as a 200 JSON response when the file exists; otherwise the
 * request (after an error log line if the fixture was missing) goes to the
 * real client unchanged.
 */
module HttpMock {
  import opened Php
  import opened Drupal
  import opened Http
  import ApiClient

  const UMD_API_PREFIX: string := "https://api.umd.io"
  const LOGGER_CHANNEL: string := "umd_courses_http_mock"
  const FIXTURE_MISSING: string := "UMD Courses mock fixture file not found. Falling back to live API."

  /** What `request` does: answer with a canned response, or hand the request to the inner client. */
  datatype Answer = Canned(response: Response) | PassThrough(request: HttpRequest)

  datatype Routed = Routed(logged: seq<LogEntry>, answer: Answer)

  /** The canned response: status 200, a JSON content type, the fixture text as body. */
  function FixtureResponse(text: string): Response {
    Response(200, [("Content-Type", "application/json")], text)
  }

  /** request($method, $uri, $options); `fixture` is the fixture file's text when the file exists. */
  function Request(fixture: Option<string>, verb: string, uri: string := "", options: Value := Arr([])): (r: Routed)
    ensures r.answer.Canned? <==> fixture.Some? && UMD_API_PREFIX <= uri
    ensures r.answer.Canned? ==> r.answer.response == FixtureResponse(fixture.value)
    ensures r.answer.PassThrough? ==> r.answer.request == HttpRequest(verb, uri, options)
    ensures |r.logged| <= 1 && (r.logged != [] <==> fixture.None? && UMD_API_PREFIX <= uri)
  {
    StrposZeroIsPrefix(uri, UMD_API_PREFIX);
    if Strpos(uri, UMD_API_PREFIX) == Some(0) then
      match fixture
      case Some(text) => Routed([], Canned(FixtureResponse(text)))
      case None => Routed([LogEntry(LOGGER_CHANNEL, FIXTURE_MISSING, [])], PassThrough(HttpRequest(verb, uri, options)))
    else Routed([], PassThrough(HttpRequest(verb, uri, options)))
  }

  /**
   * A URI with the prefix gets the fixture verbatim, whatever the method,
   * the rest of the path and the options.
   */
  lemma MatchingUriGetsFixture(text: string, verb: string, uri: string, options: Value)
    requires UMD_API_PREFIX <= uri
    ensures Request(Some(text), verb, uri, options) ==
            Routed([], Canned(Response(200, [("Content-Type", "application/json")], text)))
  {
    StrposZeroIsPrefix(uri, UMD_API_PREFIX);
  }

  /** Any other URI reaches the inner client with the same method, URI and options, silently. */
  lemma OtherUriPassesThrough(fixture: Option<string>, verb: string, uri: string, options: Value)
    requires !(UMD_API_PREFIX <= uri)
    ensures Request(fixture, verb, uri, options) == Routed([], PassThrough(HttpRequest(verb, uri, options)))
  {
    StrposZeroIsPrefix(uri, UMD_API_PREFIX);
  }

  /** A matching URI with the fixture missing: one error log line, then the unchanged request passes through. */
  lemma MissingFixtureLogsAndPassesThrough(verb: string, uri: string, options: Value)
    requires UMD_API_PREFIX <= uri
    ensures Request(None, verb, uri, options) ==
            Routed([LogEntry("umd_courses_http_mock", FIXTURE_MISSING, [])], PassThrough(HttpRequest(verb, uri, options)))
  {
    StrposZeroIsPrefix(uri, UMD_API_PREFIX);
  }

  /** What the caller of the decorated client gets for one request. */
  function Deliver(fixture: Option<string>, inner: Client, q: HttpRequest): (out: Transport)
    ensures !(UMD_API_PREFIX <= q.uri) ==> out == inner(q)
    ensures fixture.Some? && UMD_API_PREFIX <= q.uri ==> out == Delivered(FixtureResponse(fixture.value))
    ensures fixture.None? ==> out == inner(q)
  {
    match Request(fixture, q.verb, q.uri, q.options).answer
    case Canned(response) => Delivered(response)
    case PassThrough(p) => inner(p)
  }

  /** The decorated client, seen by its caller: the canned response or whatever the inner client does. */
  function MockTransport(fixture: Option<string>, inner: Client): (client: Client)
    ensures forall q: HttpRequest :: !(UMD_API_PREFIX <= q.uri) ==> client(q) == inner(q)
    ensures forall q: HttpRequest :: fixture.Some? && UMD_API_PREFIX <= q.uri ==>
              client(q) == Delivered(FixtureResponse(fixture.value))
    ensures forall q: HttpRequest :: fixture.None? ==> client(q) == inner(q)
  {
    (q: HttpRequest) => Deliver(fixture, inner, q)
  }

  lemma {:induction false} PrefixOfConcat(p: string, a: string, b: string)
    requires p <= a
    ensures p <= a + b
  {
    assert (a + b)[..|p|] == a[..|p|];
  }

  /** Both requests UmdApiClient sends are to the UMD API. */
  lemma ClientRequestsMatchPrefix(t: ApiClient.Target)
    ensures UMD_API_PREFIX <= ApiClient.RequestFor(t).uri
  {
    var base := ApiClient.API_BASE_URL;
    assert base[..|UMD_API_PREFIX|] == UMD_API_PREFIX;
    match t
    case AllCourses(_) => PrefixOfConcat(UMD_API_PREFIX, base, "/courses");
    case OneCourse(id) =>
      PrefixOfConcat(UMD_API_PREFIX, base, "/courses/");
      PrefixOfConcat(UMD_API_PREFIX, base + "/courses/", id);
  }

  /**
   * UmdApiClient behind the transport mock with the fixture present: on a
   * miss, both getCourses (any limit) and getCourse (any id) receive the
   * same fixture body and never reach the inner client; a fixture that
   * decodes is cached and returned, one that does not is logged.
   */
  lemma ClientBehindMockSeesFixture(cache: map<string, CacheEntry>, now: int, t: ApiClient.Target, text: string,
                                    inner: Client, decode: string -> JsonResult)
    requires !ApiClient.Hit(cache, now, t)
    ensures var e := ApiClient.Fetch(cache, now, t, MockTransport(Some(text), inner), decode);
            && e.sent == [ApiClient.RequestFor(t)]
            && (decode(text).Decoded? ==>
                  e == ApiClient.Effect(decode(text).value, [ApiClient.RequestFor(t)],
                                        Some(CacheSet(ApiClient.CacheKey(t), decode(text).value, now + 3600)), []))
            && (decode(text).Malformed? ==>
                  e == ApiClient.Effect(ApiClient.ErrorResult(t), [ApiClient.RequestFor(t)], None,
                                        [ApiClient.ProcessingFailed(t, ApiClient.INVALID_JSON)]))
  {
    var r := ApiClient.RequestFor(t);
    ClientRequestsMatchPrefix(t);
    MatchingUriGetsFixture(text, r.verb, r.uri, r.options);
    assert MockTransport(Some(text), inner)(r) == Delivered(FixtureResponse(text));
  }
}
