/**
 * MockUmdApiClient: the service-level mock strategy. It decorates the real
 * client; only getCourses is mocked. With mock mode on (it always is) and the
 * fixture file present, getCourses returns the decoded fixture for every
 * limit; with the fixture missing it reports an error message and delegates
 * with the same limit. getCourse always delegates.
 */
module MockService {
  import opened Php
  import opened Drupal
  import opened Http
  import ApiClient

  const FIXTURE_MISSING: string := "UMD Courses mock fixture file not found. Falling back to live API."

  /** The stored umd_courses.settings configuration. */
  datatype Settings = Settings(mockModeEnabled: bool)

  /** isMockModeEnabled(): TRUE whatever the stored configuration says. */
  function IsMockModeEnabled(config: Settings): (enabled: bool)
    ensures enabled
  {
    true
  }

  /** Where getCourses takes its answer from. */
  datatype CoursesRoute = FromFixture(data: Value) | FromInner(limit: int)

  /** The route and the messenger errors emitted on the way. */
  datatype Routed = Routed(errors: seq<string>, route: CoursesRoute)

  /**
   * getCourses($limit): `fixture` is the fixture file's text when the file
   * exists; the decode is returned without a JSON-error check.
   */
  function GetCourses(config: Settings, fixture: Option<string>, decode: string -> JsonResult,
                      limit: int := ApiClient.DEFAULT_LIMIT): (r: Routed)
    ensures r.route.FromFixture? <==> fixture.Some?
    ensures r.route.FromInner? ==> r.route.limit == limit
    ensures |r.errors| <= 1 && (r.errors != [] <==> fixture.None?)
  {
    if IsMockModeEnabled(config) then
      match fixture
      case Some(text) => Routed([], FromFixture(JsonDecode(decode(text))))
      case None => Routed([FIXTURE_MISSING], FromInner(limit))
    else Routed([], FromInner(limit))
  }

  /** getCourse($course_id) is always delegated with the same id. */
  datatype CourseRoute = FromInnerCourse(courseId: string)

  function GetCourse(config: Settings, fixture: Option<string>, courseId: string): (r: CourseRoute)
    ensures r.courseId == courseId
  {
    FromInnerCourse(courseId)
  }

  /**
   * With the fixture present the decoded fixture is the answer for every
   * limit and every stored configuration, with no message and no delegation.
   */
  lemma FixtureIgnoresLimit(config: Settings, config': Settings, text: string, decode: string -> JsonResult,
                            limit: int, limit': int)
    ensures GetCourses(config, Some(text), decode, limit) == Routed([], FromFixture(JsonDecode(decode(text))))
    ensures GetCourses(config, Some(text), decode, limit) == GetCourses(config', Some(text), decode, limit')
  {
  }

  /**
   * The fixture path performs no JSON-error check: a fixture that does not
   * decode yields NULL, where the live path would log and return [].
   */
  lemma MalformedFixtureYieldsNull(config: Settings, text: string, decode: string -> JsonResult, limit: int)
    requires decode(text).Malformed?
    ensures GetCourses(config, Some(text), decode, limit) == Routed([], FromFixture(Null))
    ensures ApiClient.ErrorResult(ApiClient.AllCourses(limit)) != Null
  {
  }

  /** A missing fixture gives exactly one error message and delegation with the same limit. */
  lemma MissingFixtureDelegates(config: Settings, decode: string -> JsonResult, limit: int)
    ensures GetCourses(config, None, decode, limit) == Routed([FIXTURE_MISSING], FromInner(limit))
  {
  }

  /** getCourse never looks at the configuration or the fixture. */
  lemma GetCourseAlwaysDelegates(config: Settings, fixture: Option<string>, courseId: string)
    ensures GetCourse(config, fixture, courseId) == FromInnerCourse(courseId)
  {
  }

  /**
   * getCourses of the decorator run against the decorated client: on the
   * fixture route the inner client is not touched at all (no cache read or
   * write, no request, no log entry); otherwise it performs exactly one
   * getCourses call with the same limit and its result is returned.
   */
  method ServeGetCourses(inner: ApiClient.UmdApiClient, config: Settings, fixture: Option<string>,
                         decode: string -> JsonResult, http: Client, limit: int := ApiClient.DEFAULT_LIMIT)
    returns (data: Value, errors: seq<string>)
    modifies inner
    ensures errors == GetCourses(config, fixture, decode, limit).errors
    ensures match GetCourses(config, fixture, decode, limit).route
            case FromFixture(d) => data == d && unchanged(inner)
            case FromInner(l) =>
              var e := ApiClient.Fetch(old(inner.cache), old(inner.requestTime), ApiClient.AllCourses(l), http, decode);
              && l == limit
              && data == e.result
              && inner.cache == Stored(old(inner.cache), e.store)
              && inner.log == old(inner.log) + e.logged
              && inner.requests == old(inner.requests) + e.sent
              && inner.requestTime == old(inner.requestTime)
  {
    var routed := GetCourses(config, fixture, decode, limit);
    errors := routed.errors;
    match routed.route {
      case FromFixture(d) =>
        data := d;
      case FromInner(l) =>
        data := inner.GetCourses(http, decode, l);
    }
  }

  /** getCourse of the decorator: exactly the inner client's getCourse with the same id. */
  method ServeGetCourse(inner: ApiClient.UmdApiClient, config: Settings, fixture: Option<string>,
                        decode: string -> JsonResult, http: Client, courseId: string)
    returns (data: Value)
    modifies inner
    ensures var e := ApiClient.Fetch(old(inner.cache), old(inner.requestTime), ApiClient.OneCourse(courseId), http, decode);
            && data == e.result
            && inner.cache == Stored(old(inner.cache), e.store)
            && inner.log == old(inner.log) + e.logged
            && inner.requests == old(inner.requests) + e.sent
            && inner.requestTime == old(inner.requestTime)
  {
    var route := GetCourse(config, fixture, courseId);
    data := inner.GetCourse(http, decode, route.courseId);
  }
}
