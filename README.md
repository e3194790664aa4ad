# UMD course catalog: a Dafny model of its decision logic

The umd_courses Drupal module shows a university course catalog. It fetches course data from the UMD REST API (`https://api.umd.io/v1`), caches it for an hour, and renders it on a page. Two optional sub-modules substitute a local JSON fixture for live data:
- a service-level mock that replaces `getCourses`;
- a transport-level mock that intercepts the HTTP client.

This project models four pieces of that module and proves their properties. The HTTP transport, the cache backend, the clock, the file system and the JSON decoder are abstract inputs.

- **Fetch-through-cache client** (`api_client.dfy`, module `ApiClient`). The class `UmdApiClient` holds the cache's items with their expiry times, the error log and the requests handed to the HTTP client. `GetCourses` and `GetCourse` are proved against the pure function `Fetch`, which describes one call: result, requests sent, optional cache set, log entries. In order, a call:
  - reads the cache, which serves an item only while it is permanent or its expiry is not before the request time;
  - on a miss sends one GET;
  - checks the JSON decode;
  - sets the cache for `requestTime + 3600`;
  - catches a `RequestException` or any other exception. This includes the exception the code throws itself for a JSON error.

  The HTTP client is a function from request to outcome: a delivered response, or a thrown `RequestException` or other exception. The JSON decoder is a function from text to a value or a JSON error.
- **Presentation flattening** (`controller.dfy`, module `Controller`).
  - `ArrayToString` is the recursive `foreach` of `arrayToString`. It is proved equal to the recursive function `Flattened`, and to an independent description: the `", "`-join of every truthy leaf string of the nested array, left to right.
  - `ProcessCourses` and `ProcessCourse` are the loop of `coursesPage` and its body. They are proved against `ProcessedList` and `ProcessedCourse`.
  - `CoursesController.CoursesPage` makes one `getCourses(30)` call and builds the render array.
- **Service-level mock** (`mock_service.dfy`, module `MockService`). `MockUmdApiClient`'s routing is the pure function `GetCourses`. The methods `ServeGetCourses` and `ServeGetCourse` run that routing against a decorated `UmdApiClient`.
- **Transport-level mock** (`http_mock.dfy`, module `HttpMock`). `MockClient::request` is the pure function `Request`. `MockTransport` wraps it as an HTTP client, so `UmdApiClient` can be run behind it.

The module `Php` (`php.dfy`) supplies the PHP semantics the code relies on:
- PHP values;
- ordered arrays with int or string keys;
- `(string)` casts of scalars, with decimal integers proved to round-trip;
- string truthiness;
- `array_filter`, `implode` and `strpos`;
- `json_decode` returning `NULL` after an error.

`Drupal` (`drupal.dfy`) holds log entries, cache entries, the expiry-aware cache `get` and the effect of a cache `set`. `Http` (`http.dfy`) holds Guzzle requests, responses and exceptions.

Facts about the code that the model keeps:
- Cache keys are `umd_courses:courses:<limit>` and `umd_courses:course:<id>`.
- `isMockModeEnabled` returns `TRUE` and never consults the loaded `umd_courses.settings` configuration.
- The fixture branch of the service-level mock does not check the JSON decode: a fixture that does not parse yields `NULL`.
- A missing fixture in the service-level mock adds a messenger error and delegates. The transport-level mock logs an error on the `umd_courses_http_mock` channel and passes the request through.
- Among upstream failures, only a `RequestException` is logged as "Failed to fetch …". Any other exception, like a JSON error, is logged as "Error processing UMD API response …".
- The transport-level mock consults no mock-mode flag, although its comment says it does.

Two behaviours worth knowing are proved outright:
- The list keys and the single-course keys can never collide: they differ at character 18.
- Behind the transport-level mock, `getCourse(id)` receives the catalog-wide fixture body as if it were one course.

## Model

| member | source | states |
|---|---|---|
| `ApiClient.Fetch` | src/Service/UmdApiClient.php:82-170 | definition of one call; its contract states that at most one request is sent, none exactly on a hit, and that a cache set logs nothing and stores the returned data under the call's key. Its other properties are proved in the lemmas below |
| `ApiClient.Respond` | src/Service/UmdApiClient.php:90-120 | the try/catch of one call after a miss: exactly the one request for the target has been sent, and the result is stored in the cache exactly when nothing is logged (a decoded body is cached; a RequestException, any other exception or malformed JSON logs and caches nothing) |
| `ApiClient.UmdApiClient.constructor` | src/Service/UmdApiClient.php:66-71 | the client starts from the given cache contents and request time, with an empty log and no requests sent |
| `ApiClient.UmdApiClient.GetCourses` | src/Service/UmdApiClient.php:82-121 | `limit` defaults to 50; the returned data and the new cache, log and request list are exactly one `Fetch` of target `AllCourses(limit)` applied to the old state; the request time is unchanged |
| `ApiClient.UmdApiClient.GetCourse` | src/Service/UmdApiClient.php:132-170 | the same, for target `OneCourse(courseId)` |
| `ApiClient.UmdApiClient.FetchThroughCache` | src/Service/UmdApiClient.php:86-120 | the shared cache-get / request / JSON-check / cache-set / catch sequence realises `Fetch` on the object's state |
| `ApiClient.CacheHitServesCachedData` | src/Service/UmdApiClient.php:86-88 | on a hit the result is exactly the cached data; no request is sent, no cache set happens, nothing is logged |
| `ApiClient.MissSendsOneRequest` | src/Service/UmdApiClient.php:90-96 | on a miss exactly one request is sent, the one built for the operation |
| `ApiClient.CoursesRequestShape` | src/Service/UmdApiClient.php:91-96 | the list request is `GET https://api.umd.io/v1/courses` with options `query` (`per_page` = limit) and `timeout` = 30, in that order |
| `ApiClient.CourseRequestShape` | src/Service/UmdApiClient.php:141-143 | the single-course request is `GET https://api.umd.io/v1/courses/<id>` with `timeout` = 30 and no `query` option |
| `ApiClient.SuccessStoresDecodedValue` | src/Service/UmdApiClient.php:98-107 | a miss whose body decodes to `data` returns `data` unchanged, performs the single cache set (key, `data`, now + 3600) and logs nothing |
| `ApiClient.RequestExceptionLogged` | src/Service/UmdApiClient.php:109-114 | a `RequestException` gives the operation's empty result and no cache set; exactly one "Failed to fetch …" entry is logged, carrying the exception's message |
| `ApiClient.MalformedBodyLogged` | src/Service/UmdApiClient.php:98-120 | a body that does not decode gives the empty result and no cache set; exactly one "Error processing …" entry is logged with the message "Invalid JSON response from UMD API" |
| `ApiClient.OtherExceptionLogged` | src/Service/UmdApiClient.php:115-120 | any other exception from the HTTP client is logged once with the "Error processing …" template, and the empty result is returned without a cache set |
| `ApiClient.LogMessages` | src/Service/UmdApiClient.php:109-169 | the four log entries: channel `umd_courses`, their exact templates, and their placeholders. The single-course entries carry `@course_id` |
| `ApiClient.ErrorResults` | src/Service/UmdApiClient.php:109-169 | a failing `getCourses` returns `[]`; a failing `getCourse` returns `NULL` |
| `ApiClient.OnlyDecodedDataIsCached` | src/Service/UmdApiClient.php:98-120 | a cache set happens only on a miss whose response decoded to the stored data, under the operation's key, for an hour. At most one entry is logged, and one is logged exactly when a request was sent and nothing was stored; a logged call returns the empty result |
| `ApiClient.SecondCallIsServedFromCache` | src/Service/UmdApiClient.php:83-107 | after a call that stored its result, the identical call at any request time up to the stored expiry (now + 3600), with any upstream, is a hit returning the same data with no request |
| `ApiClient.ExpiredEntryIsRefetched` | src/Service/UmdApiClient.php:83-107 | once the request time is past the stored expiry, the identical call misses and sends its request again |
| `ApiClient.FailedCallIsRetried` | src/Service/UmdApiClient.php:86-120 | a failed call leaves the cache unchanged, so the identical next call sends the request again |
| `ApiClient.CoursesKeysDistinct` | src/Service/UmdApiClient.php:83 | different limits give different cache keys |
| `ApiClient.CourseKeysDistinct` | src/Service/UmdApiClient.php:133 | different course ids give different cache keys |
| `ApiClient.CourseAndCoursesKeysDisjoint` | src/Service/UmdApiClient.php:83-133 | no single-course key equals any list key |
| `Php.IntToStringRoundTrip` | src/Service/UmdApiClient.php:83 | the decimal rendering PHP uses for `'…' . $limit` and `(string) $int` reads back to the same integer |
| `Php.IntToStringInjective` | src/Service/UmdApiClient.php:83 | distinct integers render as distinct strings |
| `Php.IntToStringTruthiness` | src/Controller/CoursesController.php:57 | an integer's string is never empty and is `"0"` exactly for zero |
| `Php.ArrayFilter` | src/Controller/CoursesController.php:69 | every string `array_filter` keeps is truthy (neither `""` nor `"0"`), and it never lengthens the list; that every truthy string survives is `Php.ArrayFilterKeepsExactlyTruthy`, and that order is kept is `Php.ArrayFilterAppend` |
| `Php.ArrayFilterCounts` | src/Controller/CoursesController.php:69 | for every string, its number of occurrences after `array_filter` is its number in the input when it is truthy, and zero otherwise |
| `Php.ArrayFilterKeepsExactlyTruthy` | src/Controller/CoursesController.php:69 | every truthy input string is in the result, and each string occurs in the result exactly as often as in the input when it is truthy, and never when it is not |
| `Php.ArrayFilterAppend` | src/Controller/CoursesController.php:69 | filtering distributes over concatenation |
| `Php.ArrayFilterKeepsTruthy` | src/Controller/CoursesController.php:69 | a list of truthy strings passes the filter unchanged |
| `Php.ImplodeAppend` | src/Controller/CoursesController.php:69 | imploding two non-empty runs is their implosions joined by the separator |
| `Php.StrposFrom` | modules/umd_courses_http_mock/src/Service/MockClient.php:56 | `strpos` finds the first occurrence: the position it returns holds the needle, and no earlier position does |
| `Php.StrposZeroIsPrefix` | modules/umd_courses_http_mock/src/Service/MockClient.php:56 | `strpos($uri, $p) === 0` holds exactly when `$p` is a prefix of `$uri` |
| `Php.AssignLookup` | src/Controller/CoursesController.php:88 | after `$a[k] = v`, reading `k` gives `v` and every other key reads as before |
| `Php.AssignKeepsKeys` | src/Controller/CoursesController.php:88 | assigning to an existing key keeps the array's keys and their order |
| `Drupal.Get` | src/Service/UmdApiClient.php:86 | definition of Drupal's expiring `get`: the stored item while it is permanent or its expiry is not before the request time, nothing otherwise. Its consequences for the client are proved in `ApiClient.SecondCallIsServedFromCache` and `ApiClient.ExpiredEntryIsRefetched` |
| `Drupal.Stored` | src/Service/UmdApiClient.php:105 | a cache set adds or overwrites exactly its key with (data, expire) and leaves every other entry alone; no set leaves the cache as it was |
| `Controller.ArrayToString` | src/Controller/CoursesController.php:49-70 | the loop equals `Flattened`: a non-array is its string cast; an array gives the `", "`-join of the truthy strings of all its leaves, left to right |
| `Controller.FlattenedIsJoinOfLeaves` | src/Controller/CoursesController.php:54-69 | nested arrays flatten in place. The result is `implode(", ", array_filter(leaves))` over the whole tree in left-to-right order, so no joined segment is empty |
| `Controller.JoinedIsStable` | src/Controller/CoursesController.php:61 | a nested array's string is empty or truthy, never `"0"`, so re-filtering it at the outer level keeps or drops it exactly as its leaves dictate |
| `Controller.FlatStringListJoined` | src/Controller/CoursesController.php:55-69 | a flat list of non-empty, non-`"0"` strings is joined with `", "` in its original order |
| `Controller.FalsyPiecesDropped` | src/Controller/CoursesController.php:55-69 | for every element, scalar, array, object or resource: it vanishes from the output exactly when it is `NULL`, `FALSE`, `0`, `""`, `"0"` or an array with no truthy leaf; an object or resource contributes `"Complex Value"` and is always kept |
| `Controller.ArrayToStringSimpleExample` | tests/src/Unit/CoursesControllerTest.php:64-73 | `['Regular', 'Pass-Fail', 'Audit']` gives `"Regular, Pass-Fail, Audit"` |
| `Controller.ArrayToStringNestedExample` | tests/src/Unit/CoursesControllerTest.php:80-89 | `['Regular', ['Sub1', 'Sub2'], 'Audit']` gives `"Regular, Sub1, Sub2, Audit"` |
| `Controller.ArrayToStringMixedExample` | tests/src/Unit/CoursesControllerTest.php:111-120 | `['String', 123, TRUE, NULL]` gives `"String, 123, 1"` |
| `Controller.ImplodeThree` | tests/src/Unit/CoursesControllerTest.php:72 | three pieces implode as `a, b, c` |
| `Controller.ProcessedCourseFields` | src/Controller/CoursesController.php:84-101 | `grading_method`, `gen_ed`, `core` and `sections` are rewritten to their flattened string only when set and array-valued. Every other key, and those four when `NULL`, a string or another non-array, reads as before. Keys and their order are unchanged. A non-array course is returned unchanged |
| `Controller.ConvertFieldFacts` | src/Controller/CoursesController.php:87-89 | one rewrite keeps the keys and changes only its own field, reading the original course |
| `Controller.ConvertFieldStep` | src/Controller/CoursesController.php:87-89 | one `isset && is_array` guarded rewrite, calling `arrayToString` |
| `Controller.ProcessCourse` | src/Controller/CoursesController.php:84-101 | the loop body produces `ProcessedCourse(course)` |
| `Controller.ProcessCourses` | src/Controller/CoursesController.php:82-104 | the `foreach` with `$processed_courses[] = …` produces `ProcessedList(courses)` |
| `Controller.ProcessedListShape` | src/Controller/CoursesController.php:82-104 | `#courses` has one processed course per returned course, in the same order and keyed 0, 1, …; an empty or non-array result gives `[]` |
| `Controller.RenderArrayShape` | src/Controller/CoursesController.php:106-114 | the render array always has `#theme` = `umd_courses_page`, `#courses` = the processed list and `#attached.library` = `['umd_courses/courses_page']` |
| `Controller.CoursesController.constructor` | src/Controller/CoursesController.php:27-29 | the controller keeps the injected client |
| `Controller.CoursesController.CoursesPage` | src/Controller/CoursesController.php:78-117 | exactly one `getCourses(30)` call's effect on the client; the result is the render array of that call's processed result |
| `MockService.GetCourses` | modules/umd_courses_mock/src/Service/MockUmdApiClient.php:54-72 | definition of the routing, with `limit` defaulting to 50. It answers from the fixture exactly when the fixture exists; otherwise it delegates with the same limit. One messenger error is emitted exactly when the fixture is missing. Its other properties are proved in `FixtureIgnoresLimit`, `MalformedFixtureYieldsNull` and `MissingFixtureDelegates` |
| `MockService.GetCourse` | modules/umd_courses_mock/src/Service/MockUmdApiClient.php:77-81 | definition; the route delegates with the same course id (see `GetCourseAlwaysDelegates`) |
| `MockService.IsMockModeEnabled` | modules/umd_courses_mock/src/Service/MockUmdApiClient.php:86-88 | mock mode is reported enabled whatever the stored configuration holds |
| `MockService.FixtureIgnoresLimit` | modules/umd_courses_mock/src/Service/MockUmdApiClient.php:55-62 | with the fixture present, the answer is the decoded fixture for every limit and every configuration, with no message and no delegation |
| `MockService.MalformedFixtureYieldsNull` | modules/umd_courses_mock/src/Service/MockUmdApiClient.php:59-61 | the fixture branch does no JSON-error check: a fixture that does not decode yields `NULL`, whereas the live path returns `[]` |
| `MockService.MissingFixtureDelegates` | modules/umd_courses_mock/src/Service/MockUmdApiClient.php:63-67 | a missing fixture emits exactly one messenger error and delegates with the same limit |
| `MockService.GetCourseAlwaysDelegates` | modules/umd_courses_mock/src/Service/MockUmdApiClient.php:77-81 | `getCourse` delegates with the same id, whatever the configuration and the fixture |
| `MockService.ServeGetCourses` | modules/umd_courses_mock/src/Service/MockUmdApiClient.php:54-72 | run against the decorated client: on the fixture route the inner client is untouched (no cache access, request or log); otherwise exactly one inner `getCourses(limit)` happens and its result is returned |
| `MockService.ServeGetCourse` | modules/umd_courses_mock/src/Service/MockUmdApiClient.php:77-81 | the result and the inner client's new state are exactly one inner `getCourse(id)` |
| `HttpMock.Request` | modules/umd_courses_http_mock/src/Service/MockClient.php:54-74 | definition, with `$uri` defaulting to `""` and `$options` to `[]`. The answer is canned exactly when the fixture exists and the URI starts with `https://api.umd.io`, and the canned answer is the fixture response. Any other request passes through unchanged. One log line is written exactly when the URI matches and the fixture is missing. Its other properties are proved in the three lemmas below |
| `HttpMock.Deliver` | modules/umd_courses_http_mock/src/Service/MockClient.php:54-74 | what the decorated client's caller gets for one request: the inner client's outcome for a non-matching URI or a missing fixture, and the fixture response otherwise |
| `HttpMock.MockTransport` | modules/umd_courses_http_mock/src/Service/MockClient.php:54-74 | the decorated client as a function of request, with the same per-request behaviour as `Deliver` for every request |
| `HttpMock.MatchingUriGetsFixture` | modules/umd_courses_http_mock/src/Service/MockClient.php:56-64 | a URI starting with `https://api.umd.io` gets status 200, `Content-Type: application/json` and the fixture text verbatim, whatever the method, path suffix and options; nothing is logged |
| `HttpMock.OtherUriPassesThrough` | modules/umd_courses_http_mock/src/Service/MockClient.php:73 | any other URI goes to the inner client with method, URI and options unchanged, and nothing is logged |
| `HttpMock.MissingFixtureLogsAndPassesThrough` | modules/umd_courses_http_mock/src/Service/MockClient.php:55-73 | a matching URI with no fixture logs one error on `umd_courses_http_mock`, then passes the unchanged request through; no mode flag is consulted |
| `HttpMock.ClientRequestsMatchPrefix` | modules/umd_courses_http_mock/src/Service/MockClient.php:56 | both requests `UmdApiClient` sends start with the mocked prefix |
| `HttpMock.ClientBehindMockSeesFixture` | modules/umd_courses_http_mock/src/Service/MockClient.php:54-74 | behind the transport mock with the fixture present, every miss of `getCourses(limit)` and of `getCourse(id)` receives the same fixture body. A decodable fixture is cached and returned, and an undecodable one is logged as invalid JSON |

## Left out

- The real Guzzle transport, response streams and the JSON decoder. These are foreign library calls: the HTTP client is a function from request to outcome, and the decoder is a function from text to a value or a JSON error.
- The cache backend's persistence, tags, invalidation and garbage collection. The cache is a map from key to (data, expire). `get` serves an item only while it is permanent or its expiry is not before the request time; item invalidation and `allow_invalid` reads are not used by the code.
- The file system, `DRUPAL_ROOT`, the module path and `file_get_contents`. The fixture is the file's text when the file exists, and absent otherwise.
- Concurrency, such as two simultaneous misses fetching twice: the code has no locking, and the model is sequential.
- Placeholder substitution into log and messenger text. Log entries keep the template and the placeholder values the code passes; messenger errors are plain strings.
- Floating-point values and their string casts: PHP values here are null, bool, int, string, array and "complex" (object or resource).
- PHP's normalisation of numeric-string array keys (`"5"` to `5`). The code only uses non-numeric string keys.
- A `UriInterface` object as `$uri` in `MockClient::request`: URIs are strings.
- `Controller.ArrayToString`: requires a non-object argument at top level. PHP's `(string)` cast would throw on an object without `__toString`, and the only caller passes arrays.
- `Controller.ProcessedList`: an object returned as the course list would make PHP's `foreach` iterate its public properties. The model treats every non-array as an empty iteration. Results of `json_decode($text, TRUE)` and of the client are never objects. A `NULL` or other scalar list can occur: a body of `null` decodes without a JSON error and is cached, and a malformed fixture in the service-level mock yields `NULL`. The warning PHP emits for a `foreach` over a non-array, which Drupal logs, is not modelled.
- `HttpMock.MockTransport`: presents the decorated client to its caller and drops the mock's own log line, which goes to a separate channel. `HttpMock.Request` keeps that line.
- Which decorator the service container wires in is configuration, not code. `CoursesPage` is modelled against `UmdApiClient`, and each mock is modelled on its own.
- `src/Form/UmdCoursesSettingsForm.php` (form and configuration glue and the cache flush), `CoursesController::create` and the dependency-injection wiring: these contain no logic.
- Twig templates, theming and the browser-level functional tests.
- `MockClient::send`, `sendAsync`, `requestAsync` and `getConfig`, which are unimplemented stubs, and the `__call` forwarding.
