/**
 * UmdApiClient: fetch-through-cache access to the UMD course API.
 *
 * Each call builds a cache key, answers from the cache on a hit, and on a
 * miss sends one GET, checks the JSON decode, stores the decoded value for an
 * hour and returns it. A RequestException or any other exception (including
 * the one thrown for a JSON error) is logged once and turned into the
 * operation's empty result; nothing is cached on those paths and nothing is
 * thrown to the caller.
 */
module ApiClient {
  import opened Php
  import opened Drupal
  import opened Http

  const API_BASE_URL: string := "https://api.umd.io/v1"
  const CACHE_EXPIRE: int := 3600
  const DEFAULT_LIMIT: int := 50
  const TIMEOUT: int := 30
  const LOGGER_CHANNEL: string := "umd_courses"
  const INVALID_JSON: string := "Invalid JSON response from UMD API"

  /** The two operations: getCourses($limit) and getCourse($course_id). */
  datatype Target = AllCourses(limit: int) | OneCourse(courseId: string)

  function CacheKey(t: Target): string {
    match t
    case AllCourses(limit) => "umd_courses:courses:" + IntToString(limit)
    case OneCourse(id) => "umd_courses:course:" + id
  }

  /** The request sent on a miss, with its Guzzle options array. */
  function RequestFor(t: Target): HttpRequest {
    match t
    case AllCourses(limit) =>
      HttpRequest("GET", API_BASE_URL + "/courses",
        Arr([Entry(StrKey("query"), Arr([Entry(StrKey("per_page"), Int(limit))])),
             Entry(StrKey("timeout"), Int(TIMEOUT))]))
    case OneCourse(id) =>
      HttpRequest("GET", API_BASE_URL + "/courses/" + id, Arr([Entry(StrKey("timeout"), Int(TIMEOUT))]))
  }

  /** What the operation returns when it fails: [] for the list, NULL for one course. */
  function ErrorResult(t: Target): Value {
    match t
    case AllCourses(_) => Arr([])
    case OneCourse(_) => Null
  }

  /** The entry logged when the HTTP client throws a RequestException. */
  function RequestFailed(t: Target, error: string): LogEntry {
    match t
    case AllCourses(_) =>
      LogEntry(LOGGER_CHANNEL, "Failed to fetch courses from UMD API: @error", [("@error", error)])
    case OneCourse(id) =>
      LogEntry(LOGGER_CHANNEL, "Failed to fetch course @course_id from UMD API: @error",
               [("@course_id", id), ("@error", error)])
  }

  /** The entry logged for any other exception, the JSON check's included. */
  function ProcessingFailed(t: Target, error: string): LogEntry {
    match t
    case AllCourses(_) =>
      LogEntry(LOGGER_CHANNEL, "Error processing UMD API response: @error", [("@error", error)])
    case OneCourse(id) =>
      LogEntry(LOGGER_CHANNEL, "Error processing UMD API response for course @course_id: @error",
               [("@course_id", id), ("@error", error)])
  }

  /**
   * Everything one call does: what it returns, the requests it sends, the
   * cache set it performs (if any) and the errors it logs.
   */
  datatype Effect = Effect(result: Value, sent: seq<HttpRequest>, store: Option<CacheSet>, logged: seq<LogEntry>)

  /** The cache answers the operation's key at request time `now`. */
  predicate Hit(cache: map<string, CacheEntry>, now: int, t: Target) {
    Get(cache, CacheKey(t), now).Some?
  }

  /** One call of getCourses / getCourse against a cache, a request time, an HTTP client and a JSON decoder. */
  function Fetch(cache: map<string, CacheEntry>, now: int, t: Target, http: Client, decode: string -> JsonResult): (r: Effect)
    ensures |r.sent| <= 1 && (r.sent == [] <==> Hit(cache, now, t))
    ensures r.store.Some? ==> r.logged == [] && r.store.value.key == CacheKey(t) && r.store.value.data == r.result
  {
    var cached := Get(cache, CacheKey(t), now);
    if cached.Some? then Effect(cached.value.data, [], None, [])
    else Respond(now, t, http(RequestFor(t)), decode)
  }

  /** A miss: the request was sent and `outcome` is what the HTTP client did with it. */
  function Respond(now: int, t: Target, outcome: Transport, decode: string -> JsonResult): (r: Effect)
    ensures r.sent == [RequestFor(t)]
    ensures r.store.Some? <==> r.logged == []
  {
    var request := RequestFor(t);
    match outcome
    case Thrown(RequestException(message)) =>
      Effect(ErrorResult(t), [request], None, [RequestFailed(t, message)])
    case Thrown(OtherException(message)) =>
      Effect(ErrorResult(t), [request], None, [ProcessingFailed(t, message)])
    case Delivered(response) =>
      match decode(response.body)
      case Malformed =>
        Effect(ErrorResult(t), [request], None, [ProcessingFailed(t, INVALID_JSON)])
      case Decoded(data) =>
        Effect(data, [request], Some(CacheSet(CacheKey(t), data, now + CACHE_EXPIRE)), [])
  }

  class UmdApiClient {
    /** Every item stored in the cache backend, with its expiry. */
    var cache: map<string, CacheEntry>
    /** Every error logged on the "umd_courses" channel, oldest first. */
    var log: seq<LogEntry>
    /** Every request handed to the HTTP client, oldest first. */
    var requests: seq<HttpRequest>
    /** The time service's request time. */
    var requestTime: int

    constructor(cache: map<string, CacheEntry>, requestTime: int)
      ensures this.cache == cache && this.requestTime == requestTime
      ensures log == [] && requests == []
    {
      this.cache := cache;
      this.requestTime := requestTime;
      log := [];
      requests := [];
    }

    /** getCourses($limit = 50) */
    method GetCourses(http: Client, decode: string -> JsonResult, limit: int := DEFAULT_LIMIT) returns (data: Value)
      modifies this
      ensures var e := Fetch(old(cache), old(requestTime), AllCourses(limit), http, decode);
              && data == e.result
              && cache == Stored(old(cache), e.store)
              && log == old(log) + e.logged
              && requests == old(requests) + e.sent
              && requestTime == old(requestTime)
    {
      data := FetchThroughCache(AllCourses(limit), http, decode);
    }

    /** getCourse($course_id) */
    method GetCourse(http: Client, decode: string -> JsonResult, courseId: string) returns (data: Value)
      modifies this
      ensures var e := Fetch(old(cache), old(requestTime), OneCourse(courseId), http, decode);
              && data == e.result
              && cache == Stored(old(cache), e.store)
              && log == old(log) + e.logged
              && requests == old(requests) + e.sent
              && requestTime == old(requestTime)
    {
      data := FetchThroughCache(OneCourse(courseId), http, decode);
    }

    /** The body the two operations share: cache get, request, JSON check, cache set, catch. */
    method FetchThroughCache(t: Target, http: Client, decode: string -> JsonResult) returns (data: Value)
      modifies this
      ensures var e := Fetch(old(cache), old(requestTime), t, http, decode);
              && data == e.result
              && cache == Stored(old(cache), e.store)
              && log == old(log) + e.logged
              && requests == old(requests) + e.sent
              && requestTime == old(requestTime)
    {
      var key := CacheKey(t);
      var cached := Get(cache, key, requestTime);
      if cached.Some? {
        return cached.value.data;
      }
      var request := RequestFor(t);
      requests := requests + [request];
      var outcome := http(request);
      if outcome.Thrown? {
        // The two catch blocks: a RequestException, then any other exception.
        var entry := if outcome.exception.RequestException? then RequestFailed(t, outcome.exception.message)
                     else ProcessingFailed(t, outcome.exception.message);
        log := log + [entry];
        data := ErrorResult(t);
      } else {
        var decoded := decode(outcome.response.body);
        if decoded.Malformed? {
          log := log + [ProcessingFailed(t, INVALID_JSON)];
          data := ErrorResult(t);
        } else {
          data := decoded.value;
          cache := cache[key := CacheEntry(data, requestTime + CACHE_EXPIRE)];
        }
      }
    }
  }

  // -----------------------------------------------------------------------
  // Properties of one call.

  /** A hit returns exactly the cached data; no request, no cache set, no log entry. */
  lemma CacheHitServesCachedData(cache: map<string, CacheEntry>, now: int, t: Target, http: Client, decode: string -> JsonResult)
    requires Hit(cache, now, t)
    ensures Fetch(cache, now, t, http, decode) == Effect(cache[CacheKey(t)].data, [], None, [])
  {
  }

  /** A miss sends exactly one request, the one RequestFor describes. */
  lemma MissSendsOneRequest(cache: map<string, CacheEntry>, now: int, t: Target, http: Client, decode: string -> JsonResult)
    requires !Hit(cache, now, t)
    ensures Fetch(cache, now, t, http, decode).sent == [RequestFor(t)]
  {
  }

  /** The list request: GET {API_BASE_URL}/courses with query per_page = limit and a 30 s timeout. */
  lemma CoursesRequestShape(limit: int)
    ensures var r := RequestFor(AllCourses(limit));
            && r.verb == "GET"
            && r.uri == "https://api.umd.io/v1/courses"
            && r.options.Arr?
            && Keys(r.options.entries) == [StrKey("query"), StrKey("timeout")]
            && Lookup(r.options.entries, StrKey("query")) == Some(Arr([Entry(StrKey("per_page"), Int(limit))]))
            && Lookup(r.options.entries, StrKey("timeout")) == Some(Int(30))
  {
  }

  /** The single-course request: GET {API_BASE_URL}/courses/{id}, a 30 s timeout and no query. */
  lemma CourseRequestShape(courseId: string)
    ensures var r := RequestFor(OneCourse(courseId));
            && r.verb == "GET"
            && r.uri == "https://api.umd.io/v1/courses/" + courseId
            && r.options.Arr?
            && Keys(r.options.entries) == [StrKey("timeout")]
            && Lookup(r.options.entries, StrKey("query")).None?
            && Lookup(r.options.entries, StrKey("timeout")) == Some(Int(30))
  {
  }

  /** A miss whose body decodes stores the decoded value once, for an hour, and returns it unchanged. */
  lemma SuccessStoresDecodedValue(cache: map<string, CacheEntry>, now: int, t: Target, http: Client,
                                  decode: string -> JsonResult, data: Value)
    requires !Hit(cache, now, t)
    requires http(RequestFor(t)).Delivered?
    requires decode(http(RequestFor(t)).response.body) == Decoded(data)
    ensures Fetch(cache, now, t, http, decode) ==
            Effect(data, [RequestFor(t)], Some(CacheSet(CacheKey(t), data, now + 3600)), [])
  {
  }

  /** A RequestException on a miss: the empty result, one "Failed to fetch" entry carrying its message, no cache set. */
  lemma RequestExceptionLogged(cache: map<string, CacheEntry>, now: int, t: Target, http: Client,
                               decode: string -> JsonResult, message: string)
    requires !Hit(cache, now, t)
    requires http(RequestFor(t)) == Thrown(RequestException(message))
    ensures Fetch(cache, now, t, http, decode) ==
            Effect(ErrorResult(t), [RequestFor(t)], None, [RequestFailed(t, message)])
  {
  }

  /** A body that does not decode: the empty result, one "Error processing" entry with the fixed message, no cache set. */
  lemma MalformedBodyLogged(cache: map<string, CacheEntry>, now: int, t: Target, http: Client, decode: string -> JsonResult)
    requires !Hit(cache, now, t)
    requires http(RequestFor(t)).Delivered?
    requires decode(http(RequestFor(t)).response.body).Malformed?
    ensures Fetch(cache, now, t, http, decode) ==
            Effect(ErrorResult(t), [RequestFor(t)], None,
                   [ProcessingFailed(t, "Invalid JSON response from UMD API")])
  {
  }

  /** Any other exception from the HTTP client is logged with the "Error processing" template. */
  lemma OtherExceptionLogged(cache: map<string, CacheEntry>, now: int, t: Target, http: Client,
                             decode: string -> JsonResult, message: string)
    requires !Hit(cache, now, t)
    requires http(RequestFor(t)) == Thrown(OtherException(message))
    ensures Fetch(cache, now, t, http, decode) ==
            Effect(ErrorResult(t), [RequestFor(t)], None, [ProcessingFailed(t, message)])
  {
  }

  /** The exact log lines the tests expect, for both operations. */
  lemma LogMessages(limit: int, courseId: string, error: string)
    ensures RequestFailed(AllCourses(limit), error) ==
            LogEntry("umd_courses", "Failed to fetch courses from UMD API: @error", [("@error", error)])
    ensures ProcessingFailed(AllCourses(limit), error) ==
            LogEntry("umd_courses", "Error processing UMD API response: @error", [("@error", error)])
    ensures RequestFailed(OneCourse(courseId), error) ==
            LogEntry("umd_courses", "Failed to fetch course @course_id from UMD API: @error",
                     [("@course_id", courseId), ("@error", error)])
    ensures ProcessingFailed(OneCourse(courseId), error) ==
            LogEntry("umd_courses", "Error processing UMD API response for course @course_id: @error",
                     [("@course_id", courseId), ("@error", error)])
  {
  }

  /** The list operation fails with [], the single-course operation with NULL. */
  lemma ErrorResults(limit: int, courseId: string)
    ensures ErrorResult(AllCourses(limit)) == Arr([])
    ensures ErrorResult(OneCourse(courseId)) == Null
  {
  }

  /**
   * The cache is written only with data that the decoder accepted from the
   * response to this call's own request, under this call's key, for an hour;
   * and exactly the calls that write nothing and send something log once.
   */
  lemma OnlyDecodedDataIsCached(cache: map<string, CacheEntry>, now: int, t: Target, http: Client, decode: string -> JsonResult)
    ensures var e := Fetch(cache, now, t, http, decode);
            && (e.store.Some? ==>
                  && !Hit(cache, now, t)
                  && http(RequestFor(t)).Delivered?
                  && decode(http(RequestFor(t)).response.body) == Decoded(e.store.value.data)
                  && e.store.value == CacheSet(CacheKey(t), e.result, now + CACHE_EXPIRE))
            && |e.logged| <= 1
            && (|e.logged| == 1 <==> e.sent != [] && e.store.None?)
            && (e.logged != [] ==> e.result == ErrorResult(t))
  {
  }

  // -----------------------------------------------------------------------
  // Properties of successive calls.

  /**
   * After a call that stored its result, the same call within the hour
   * (whatever the HTTP client would now do) is a hit that returns the same
   * data and sends nothing.
   */
  lemma SecondCallIsServedFromCache(cache: map<string, CacheEntry>, now: int, later: int, t: Target,
                                    http: Client, http': Client, decode: string -> JsonResult, decode': string -> JsonResult)
    requires Fetch(cache, now, t, http, decode).store.Some?
    requires later <= now + CACHE_EXPIRE
    ensures var first := Fetch(cache, now, t, http, decode);
            Fetch(Stored(cache, first.store), later, t, http', decode') == Effect(first.result, [], None, [])
  {
  }

  /**
   * Once the hour has passed, the stored item is no longer served: the same
   * call misses and sends its request again.
   */
  lemma ExpiredEntryIsRefetched(cache: map<string, CacheEntry>, now: int, later: int, t: Target,
                                http: Client, http': Client, decode: string -> JsonResult, decode': string -> JsonResult)
    requires Fetch(cache, now, t, http, decode).store.Some?
    requires later > now + CACHE_EXPIRE && now + CACHE_EXPIRE != PERMANENT
    ensures var first := Fetch(cache, now, t, http, decode);
            Fetch(Stored(cache, first.store), later, t, http', decode').sent == [RequestFor(t)]
  {
  }

  /** A failed call leaves the cache as it was, so the next identical call fetches again. */
  lemma FailedCallIsRetried(cache: map<string, CacheEntry>, now: int, t: Target, http: Client, decode: string -> JsonResult)
    requires Fetch(cache, now, t, http, decode).logged != []
    ensures var first := Fetch(cache, now, t, http, decode);
            && Stored(cache, first.store) == cache
            && Fetch(Stored(cache, first.store), now, t, http, decode).sent == [RequestFor(t)]
  {
  }

  // -----------------------------------------------------------------------
  // Cache keys.

  lemma {:induction false} PrefixCancel(p: string, a: string, b: string)
    requires p + a == p + b
    ensures a == b
  {
    assert a == (p + a)[|p|..];
    assert b == (p + b)[|p|..];
  }

  /** Different limits never share a cache entry. */
  lemma CoursesKeysDistinct(a: int, b: int)
    requires a != b
    ensures CacheKey(AllCourses(a)) != CacheKey(AllCourses(b))
  {
    if CacheKey(AllCourses(a)) == CacheKey(AllCourses(b)) {
      PrefixCancel("umd_courses:courses:", IntToString(a), IntToString(b));
      IntToStringInjective(a, b);
    }
  }

  /** Different course ids never share a cache entry. */
  lemma CourseKeysDistinct(x: string, y: string)
    requires x != y
    ensures CacheKey(OneCourse(x)) != CacheKey(OneCourse(y))
  {
    if CacheKey(OneCourse(x)) == CacheKey(OneCourse(y)) {
      PrefixCancel("umd_courses:course:", x, y);
    }
  }

  /** A list key and a single-course key are never equal: the two key spaces are disjoint. */
  lemma CourseAndCoursesKeysDisjoint(courseId: string, limit: int)
    ensures CacheKey(OneCourse(courseId)) != CacheKey(AllCourses(limit))
  {
    assert CacheKey(AllCourses(limit))[18] == 's';
    assert CacheKey(OneCourse(courseId))[18] == ':';
  }
}
