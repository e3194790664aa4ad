/**
 * CoursesController: turns the course list into the render array of the
 * courses page. Four known array-valued fields of each course are flattened
 * to ", "-joined strings by arrayToString; everything else is passed through.
 */
module Controller {
  import opened Php
  import opened Drupal
  import opened Http
  import ApiClient

  const SEPARATOR: string := ", "
  const COMPLEX_VALUE: string := "Complex Value"
  const PAGE_LIMIT: int := 30
  const THEME: string := "umd_courses_page"
  const LIBRARY: string := "umd_courses/courses_page"

  /** The fields coursesPage rewrites, in the order it rewrites them. */
  const FIELDS: seq<string> := ["grading_method", "gen_ed", "core", "sections"]

  // -----------------------------------------------------------------------
  // arrayToString, as a function.

  /** implode(', ', array_filter($strings)) */
  function Joined(ss: seq<string>): string {
    Implode(SEPARATOR, ArrayFilter(ss))
  }

  /**
   * arrayToString($array): a non-array is cast to a string; an array is the
   * join of the truthy strings its elements give.
   */
  function Flattened(v: Value): string
    requires !v.Complex?
    decreases v, 1, 0
  {
    if v.Arr? then Joined(Pieces(v, |v.entries|)) else ToString(v)
  }

  /** $strings after the loop has visited the first n elements of the array v. */
  function Pieces(v: Value, n: nat): (ss: seq<string>)
    requires v.Arr? && n <= |v.entries|
    ensures |ss| == n
    decreases v, 0, n
  {
    if n == 0 then [] else Pieces(v, n - 1) + [Piece(v.entries[n - 1].val)]
  }

  /** The string one element contributes: its cast, its own flattening, or "Complex Value". */
  function Piece(x: Value): string
    decreases x, 2, 0
  {
    if IsScalarOrNull(x) then ToString(x)
    else if x.Arr? then Flattened(x)
    else COMPLEX_VALUE
  }

  // -----------------------------------------------------------------------
  // An independent description: every leaf, left to right.

  /** The strings of all scalar and complex leaves of v, depth first, left to right. */
  function Leaves(v: Value): seq<string>
    decreases v, 1, 0
  {
    if v.Arr? then LeavesUpTo(v, |v.entries|)
    else if IsScalarOrNull(v) then [ToString(v)]
    else [COMPLEX_VALUE]
  }

  function LeavesUpTo(v: Value, n: nat): seq<string>
    requires v.Arr? && n <= |v.entries|
    decreases v, 0, n
  {
    if n == 0 then [] else LeavesUpTo(v, n - 1) + Leaves(v.entries[n - 1].val)
  }

  /** How the joins of two adjacent runs of strings combine. */
  function Combine(s: string, t: string): string {
    if s == "" then t else if t == "" then s else s + SEPARATOR + t
  }

  lemma ImplodeOfTruthyNonEmpty(ss: seq<string>)
    requires ss != [] && forall k :: 0 <= k < |ss| ==> Truthy(ss[k])
    ensures Implode(SEPARATOR, ss) != ""
    ensures Implode(SEPARATOR, ss) != "0"
  {
    if |ss| > 1 {
      assert |Implode(SEPARATOR, ss)| >= |ss[0]| + 2;
    }
  }

  lemma JoinedAppend(a: seq<string>, b: seq<string>)
    ensures Joined(a + b) == Combine(Joined(a), Joined(b))
  {
    ArrayFilterAppend(a, b);
    var fa, fb := ArrayFilter(a), ArrayFilter(b);
    if fa == [] {
      assert fa + fb == fb;
    } else if fb == [] {
      assert fa + fb == fa;
      ImplodeOfTruthyNonEmpty(fa);
    } else {
      ImplodeOfTruthyNonEmpty(fa);
      ImplodeOfTruthyNonEmpty(fb);
      ImplodeAppend(SEPARATOR, fa, fb);
    }
  }

  /** A join is empty or truthy, never "0", so joining it again changes nothing. */
  lemma JoinedIsStable(ss: seq<string>)
    ensures Joined(ss) == "" || Truthy(Joined(ss))
    ensures Joined([Joined(ss)]) == Joined(ss)
  {
    var fs := ArrayFilter(ss);
    if fs != [] {
      ImplodeOfTruthyNonEmpty(fs);
    }
  }

  lemma {:induction false} PiecesMatchLeaves(v: Value, n: nat)
    requires v.Arr? && n <= |v.entries|
    ensures Joined(Pieces(v, n)) == Joined(LeavesUpTo(v, n))
    decreases v, 0, n
  {
    if n > 0 {
      var x := v.entries[n - 1].val;
      PiecesMatchLeaves(v, n - 1);
      PieceMatchesLeaves(x);
      JoinedAppend(Pieces(v, n - 1), [Piece(x)]);
      JoinedAppend(LeavesUpTo(v, n - 1), Leaves(x));
    }
  }

  lemma {:induction false} PieceMatchesLeaves(x: Value)
    ensures Joined([Piece(x)]) == Joined(Leaves(x))
    decreases x, 1, 0
  {
    if x.Arr? {
      PiecesMatchLeaves(x, |x.entries|);
      JoinedIsStable(Pieces(x, |x.entries|));
    }
  }

  /**
   * Nested arrays are flattened in place: the result is the ", "-join of the
   * truthy leaf strings of the whole tree, left to right, so no segment is
   * ever empty or "0".
   */
  lemma FlattenedIsJoinOfLeaves(v: Value)
    requires v.Arr?
    ensures Flattened(v) == Implode(", ", ArrayFilter(Leaves(v)))
    ensures forall k :: 0 <= k < |ArrayFilter(Leaves(v))| ==> ArrayFilter(Leaves(v))[k] != ""
  {
    PiecesMatchLeaves(v, |v.entries|);
  }

  lemma {:induction false} StringLeaves(ss: seq<string>, n: nat)
    requires n <= |ss|
    ensures LeavesUpTo(List(seq(|ss|, k requires 0 <= k < |ss| => Str(ss[k]))), n) == ss[..n]
  {
    if n > 0 {
      StringLeaves(ss, n - 1);
      assert ss[..n] == ss[..n - 1] + [ss[n - 1]];
    }
  }

  /** A flat list of non-empty, non-"0" strings is joined with ", " in its own order. */
  lemma FlatStringListJoined(ss: seq<string>)
    requires forall k :: 0 <= k < |ss| ==> Truthy(ss[k])
    ensures Flattened(List(seq(|ss|, k requires 0 <= k < |ss| => Str(ss[k])))) == Implode(", ", ss)
  {
    StringLeaves(ss, |ss|);
    assert ss[..|ss|] == ss;
    FlattenedIsJoinOfLeaves(List(seq(|ss|, k requires 0 <= k < |ss| => Str(ss[k]))));
    ArrayFilterKeepsTruthy(ss);
  }

  /**
   * Which elements disappear: exactly those whose string is "" or "0", and
   * arrays with no truthy leaf. An object or resource becomes "Complex Value"
   * and is always kept.
   */
  lemma FalsyPiecesDropped(x: Value)
    ensures Joined([Piece(x)]) == "" <==>
            x.Null? || x == Bool(false) || x == Int(0) || x == Str("") || x == Str("0") ||
            (x.Arr? && ArrayFilter(Leaves(x)) == [])
    ensures x.Complex? ==> Joined([Piece(x)]) == COMPLEX_VALUE
  {
    if x.Complex? {
      assert Piece(x) == COMPLEX_VALUE;
      assert ArrayFilter([COMPLEX_VALUE]) == [COMPLEX_VALUE];
    } else if x.Int? {
      IntToStringTruthiness(x.i);
    } else if x.Arr? {
      FlattenedIsJoinOfLeaves(x);
      JoinedIsStable(Pieces(x, |x.entries|));
      var fs := ArrayFilter(Leaves(x));
      if fs != [] {
        ImplodeOfTruthyNonEmpty(fs);
      }
    }
  }

  // -----------------------------------------------------------------------
  // arrayToString, as the PHP writes it.

  /** arrayToString($array): a foreach that appends to $strings, recursing on nested arrays. */
  method ArrayToString(v: Value) returns (r: string)
    requires !v.Complex?
    ensures r == Flattened(v)
    ensures !v.Arr? ==> r == ToString(v)
    ensures v.Arr? ==> r == Implode(", ", ArrayFilter(Leaves(v)))
    decreases v
  {
    if !v.Arr? {
      return ToString(v);
    }
    var strings: seq<string> := [];
    var i := 0;
    while i < |v.entries|
      invariant 0 <= i <= |v.entries|
      invariant strings == Pieces(v, i)
    {
      var value := v.entries[i].val;
      if IsScalarOrNull(value) {
        strings := strings + [ToString(value)];
      } else if value.Arr? {
        var nested := ArrayToString(value);
        strings := strings + [nested];
      } else {
        strings := strings + [COMPLEX_VALUE];
      }
      i := i + 1;
    }
    r := Implode(SEPARATOR, ArrayFilter(strings));
    FlattenedIsJoinOfLeaves(v);
  }

  // -----------------------------------------------------------------------
  // One course record.

  /** The condition of each rewrite: isset($course[f]) && is_array($course[f]). */
  predicate Converts(course: Value, field: string) {
    Isset(course, field) && Lookup(course.entries, StrKey(field)).value.Arr?
  }

  /** One of the four rewrites: reads the original course, writes the copy. */
  function ConvertField(course: Value, processed: seq<Entry>, field: string): seq<Entry>
    requires course.Arr?
  {
    if Converts(course, field)
    then Assign(processed, StrKey(field), Str(Flattened(Lookup(course.entries, StrKey(field)).value)))
    else processed
  }

  /** $processed_course after the four rewrites. */
  function ProcessedCourse(course: Value): Value {
    if course.Arr? then
      Arr(ConvertField(course, ConvertField(course, ConvertField(course, ConvertField(course,
            course.entries, FIELDS[0]), FIELDS[1]), FIELDS[2]), FIELDS[3]))
    else course
  }

  lemma ConvertFieldFacts(course: Value, processed: seq<Entry>, field: string, other: Key)
    requires course.Arr?
    requires Keys(processed) == Keys(course.entries)
    ensures Keys(ConvertField(course, processed, field)) == Keys(course.entries)
    ensures Lookup(ConvertField(course, processed, field), other) ==
            if other == StrKey(field) && Converts(course, field)
            then Some(Str(Flattened(Lookup(course.entries, other).value)))
            else Lookup(processed, other)
  {
    if Converts(course, field) {
      var v := Str(Flattened(Lookup(course.entries, StrKey(field)).value));
      AssignLookup(processed, StrKey(field), v, other);
      KeysLookup(processed, course.entries, StrKey(field));
      AssignKeepsKeys(processed, StrKey(field), v);
    }
  }

  lemma {:induction false} KeysLookup(a: seq<Entry>, b: seq<Entry>, key: Key)
    requires Keys(a) == Keys(b)
    ensures Lookup(a, key).Some? <==> Lookup(b, key).Some?
  {
    if a != [] {
      assert Keys(a[1..]) == Keys(a)[1..] && Keys(b[1..]) == Keys(b)[1..];
      KeysLookup(a[1..], b[1..], key);
    }
  }

  /**
   * Only grading_method, gen_ed, core and sections change, and only when set
   * and array-valued; they become their flattened string. Every other field,
   * and those four when NULL, a string or any other non-array, keep their
   * value; the keys keep their order. A course that is not an array is
   * returned as it is.
   */
  lemma ProcessedCourseFields(course: Value, key: Key)
    ensures !course.Arr? ==> ProcessedCourse(course) == course
    ensures course.Arr? ==>
            && ProcessedCourse(course).Arr?
            && Keys(ProcessedCourse(course).entries) == Keys(course.entries)
            && Lookup(ProcessedCourse(course).entries, key) ==
               if key.StrKey? && key.s in FIELDS && Converts(course, key.s)
               then Some(Str(Flattened(Lookup(course.entries, key).value)))
               else Lookup(course.entries, key)
  {
    if course.Arr? {
      var p0 := course.entries;
      var p1 := ConvertField(course, p0, FIELDS[0]);
      var p2 := ConvertField(course, p1, FIELDS[1]);
      var p3 := ConvertField(course, p2, FIELDS[2]);
      ConvertFieldFacts(course, p0, FIELDS[0], key);
      ConvertFieldFacts(course, p1, FIELDS[1], key);
      ConvertFieldFacts(course, p2, FIELDS[2], key);
      ConvertFieldFacts(course, p3, FIELDS[3], key);
    }
  }

  /** The loop body of coursesPage for one course. */
  method ProcessCourse(course: Value) returns (processed: Value)
    ensures processed == ProcessedCourse(course)
  {
    processed := course;
    if course.Arr? {
      var entries := course.entries;
      entries := ConvertFieldStep(course, entries, FIELDS[0]);
      entries := ConvertFieldStep(course, entries, FIELDS[1]);
      entries := ConvertFieldStep(course, entries, FIELDS[2]);
      entries := ConvertFieldStep(course, entries, FIELDS[3]);
      processed := Arr(entries);
    }
  }

  /** if (isset($course[f]) && is_array($course[f])) $processed_course[f] = arrayToString($course[f]); */
  method ConvertFieldStep(course: Value, processed: seq<Entry>, field: string) returns (r: seq<Entry>)
    requires course.Arr?
    ensures r == ConvertField(course, processed, field)
  {
    r := processed;
    if Isset(course, field) && Lookup(course.entries, StrKey(field)).value.Arr? {
      var s := ArrayToString(Lookup(course.entries, StrKey(field)).value);
      r := Assign(processed, StrKey(field), Str(s));
    }
  }

  // -----------------------------------------------------------------------
  // The course list.

  /** $processed_courses after the loop has visited the first n courses. */
  function ProcessedUpTo(courses: seq<Entry>, n: nat): (r: seq<Entry>)
    requires n <= |courses|
    ensures |r| == n
  {
    if n == 0 then [] else ProcessedUpTo(courses, n - 1) + [Entry(IntKey(n - 1), ProcessedCourse(courses[n - 1].val))]
  }

  /** $processed_courses: foreach over a non-array runs no iteration. */
  function ProcessedList(courses: Value): Value {
    if courses.Arr? then Arr(ProcessedUpTo(courses.entries, |courses.entries|)) else Arr([])
  }

  lemma {:induction false} ProcessedUpToShape(courses: seq<Entry>, n: nat)
    requires n <= |courses|
    ensures forall k :: 0 <= k < n ==> ProcessedUpTo(courses, n)[k] == Entry(IntKey(k), ProcessedCourse(courses[k].val))
  {
    if n > 0 {
      ProcessedUpToShape(courses, n - 1);
    }
  }

  /**
   * The processed list has one course per course returned, in the same order,
   * re-keyed 0, 1, ...; anything but an array (NULL included) gives [].
   */
  lemma ProcessedListShape(courses: Value)
    ensures ProcessedList(courses).Arr?
    ensures |ProcessedList(courses).entries| == if courses.Arr? then |courses.entries| else 0
    ensures courses.Arr? ==> forall k :: 0 <= k < |courses.entries| ==>
              ProcessedList(courses).entries[k] == Entry(IntKey(k), ProcessedCourse(courses.entries[k].val))
  {
    if courses.Arr? {
      ProcessedUpToShape(courses.entries, |courses.entries|);
    }
  }

  /** The foreach of coursesPage, appending each processed course with $processed_courses[] = ... */
  method ProcessCourses(courses: Value) returns (processed: Value)
    ensures processed == ProcessedList(courses)
  {
    var out: seq<Entry> := [];
    if courses.Arr? {
      var i := 0;
      while i < |courses.entries|
        invariant 0 <= i <= |courses.entries|
        invariant out == ProcessedUpTo(courses.entries, i)
      {
        var course := ProcessCourse(courses.entries[i].val);
        out := out + [Entry(IntKey(|out|), course)];
        i := i + 1;
      }
    }
    processed := Arr(out);
  }

  // -----------------------------------------------------------------------
  // The render array.

  /** ['#theme' => ..., '#courses' => $processed_courses, '#attached' => ['library' => [...]]] */
  function RenderArray(processed: Value): Value {
    Arr([Entry(StrKey("#theme"), Str(THEME)),
         Entry(StrKey("#courses"), processed),
         Entry(StrKey("#attached"), Arr([Entry(StrKey("library"), Arr([Entry(IntKey(0), Str(LIBRARY))]))]))])
  }

  /** The render array's theme and library never vary; #courses is the processed list. */
  lemma RenderArrayShape(processed: Value)
    ensures var b := RenderArray(processed);
            && b.Arr?
            && Lookup(b.entries, StrKey("#theme")) == Some(Str("umd_courses_page"))
            && Lookup(b.entries, StrKey("#courses")) == Some(processed)
            && Lookup(b.entries, StrKey("#attached")) ==
               Some(Arr([Entry(StrKey("library"), Arr([Entry(IntKey(0), Str("umd_courses/courses_page"))]))]))
  {
    var es := RenderArray(processed).entries;
    assert es[1..][0] == es[1] && es[1..][1..][0] == es[2];
    assert "#theme" != "#courses" && "#theme" != "#attached" && "#courses" != "#attached" by {
      assert "#theme"[1] != "#courses"[1] && "#theme"[1] != "#attached"[1] && "#courses"[1] != "#attached"[1];
    }
    var attached := StrKey("#attached");
    assert Lookup(es, attached) == Lookup(es[1..], attached) == Lookup(es[1..][1..], attached);
  }

  class CoursesController {
    const umdApiClient: ApiClient.UmdApiClient

    constructor(umdApiClient: ApiClient.UmdApiClient)
      ensures this.umdApiClient == umdApiClient
    {
      this.umdApiClient := umdApiClient;
    }

    /** coursesPage(): one getCourses(30) call, then the processed render array. */
    method CoursesPage(http: Client, decode: string -> JsonResult) returns (build: Value)
      modifies umdApiClient
      ensures var e := ApiClient.Fetch(old(umdApiClient.cache), old(umdApiClient.requestTime),
                                       ApiClient.AllCourses(30), http, decode);
              && build == RenderArray(ProcessedList(e.result))
              && umdApiClient.cache == Stored(old(umdApiClient.cache), e.store)
              && umdApiClient.log == old(umdApiClient.log) + e.logged
              && umdApiClient.requests == old(umdApiClient.requests) + e.sent
              && umdApiClient.requestTime == old(umdApiClient.requestTime)
    {
      var courses := umdApiClient.GetCourses(http, decode, PAGE_LIMIT);
      var processed := ProcessCourses(courses);
      build := RenderArray(processed);
    }
  }

  // -----------------------------------------------------------------------
  // The unit tests' examples.

  lemma ImplodeThree(a: string, b: string, c: string)
    ensures Implode(", ", [a, b, c]) == a + ", " + b + ", " + c
  {
    assert [a, b, c][1..] == [b, c] && [b, c][1..] == [c];
    assert Implode(", ", [b, c]) == b + ", " + c;
  }

  /** The k-th string the loop collects is the k-th element's piece. */
  lemma {:induction false} PiecesAt(v: Value, n: nat, k: nat)
    requires v.Arr? && k < n <= |v.entries|
    ensures Pieces(v, n)[k] == Piece(v.entries[k].val)
  {
    if k < n - 1 {
      PiecesAt(v, n - 1, k);
    }
  }

  /** A three-element array whose elements give truthy strings a, b and c flattens to "a, b, c". */
  lemma ThreeTruthyPieces(v: Value, a: string, b: string, c: string)
    requires v.Arr? && |v.entries| == 3
    requires Piece(v.entries[0].val) == a && Piece(v.entries[1].val) == b && Piece(v.entries[2].val) == c
    requires Truthy(a) && Truthy(b) && Truthy(c)
    ensures Flattened(v) == a + ", " + b + ", " + c
  {
    PiecesAt(v, 3, 0);
    PiecesAt(v, 3, 1);
    PiecesAt(v, 3, 2);
    assert Pieces(v, 3) == [a, b, c];
    ArrayFilterKeepsTruthy([a, b, c]);
    ImplodeThree(a, b, c);
  }

  lemma ArrayToStringSimpleExample()
    ensures Flattened(Arr([Entry(IntKey(0), Str("Regular")), Entry(IntKey(1), Str("Pass-Fail")),
                           Entry(IntKey(2), Str("Audit"))])) == "Regular, Pass-Fail, Audit"
  {
    var v := Arr([Entry(IntKey(0), Str("Regular")), Entry(IntKey(1), Str("Pass-Fail")),
                  Entry(IntKey(2), Str("Audit"))]);
    ThreeTruthyPieces(v, "Regular", "Pass-Fail", "Audit");
  }

  lemma SubListExample()
    ensures Flattened(Arr([Entry(IntKey(0), Str("Sub1")), Entry(IntKey(1), Str("Sub2"))])) == "Sub1, Sub2"
  {
    var inner := Arr([Entry(IntKey(0), Str("Sub1")), Entry(IntKey(1), Str("Sub2"))]);
    var kept := ["Sub1", "Sub2"];
    PiecesAt(inner, 2, 0);
    PiecesAt(inner, 2, 1);
    assert Pieces(inner, 2) == kept;
    ArrayFilterKeepsTruthy(kept);
    assert kept[1..] == ["Sub2"];
  }

  lemma ArrayToStringNestedExample()
    ensures Flattened(Arr([Entry(IntKey(0), Str("Regular")),
                           Entry(IntKey(1), Arr([Entry(IntKey(0), Str("Sub1")), Entry(IntKey(1), Str("Sub2"))])),
                           Entry(IntKey(2), Str("Audit"))])) == "Regular, Sub1, Sub2, Audit"
  {
    var inner := Arr([Entry(IntKey(0), Str("Sub1")), Entry(IntKey(1), Str("Sub2"))]);
    var v := Arr([Entry(IntKey(0), Str("Regular")), Entry(IntKey(1), inner), Entry(IntKey(2), Str("Audit"))]);
    SubListExample();
    ThreeTruthyPieces(v, "Regular", "Sub1, Sub2", "Audit");
  }

  lemma IntToString123()
    ensures IntToString(123) == "123"
  {
    assert NatToString(1) == "1";
    assert NatToString(12) == "12";
  }

  /** The same with a fourth element whose string is empty, which array_filter drops. */
  lemma ThreeTruthyPiecesThenEmpty(v: Value, a: string, b: string, c: string)
    requires v.Arr? && |v.entries| == 4
    requires Piece(v.entries[0].val) == a && Piece(v.entries[1].val) == b && Piece(v.entries[2].val) == c
    requires Piece(v.entries[3].val) == ""
    requires Truthy(a) && Truthy(b) && Truthy(c)
    ensures Flattened(v) == a + ", " + b + ", " + c
  {
    PiecesAt(v, 4, 0);
    PiecesAt(v, 4, 1);
    PiecesAt(v, 4, 2);
    PiecesAt(v, 4, 3);
    assert Pieces(v, 4) == [a, b, c] + [""];
    ArrayFilterAppend([a, b, c], [""]);
    ArrayFilterKeepsTruthy([a, b, c]);
    assert ArrayFilter([""]) == [];
    assert ArrayFilter(Pieces(v, 4)) == [a, b, c];
    ImplodeThree(a, b, c);
  }

  lemma ArrayToStringMixedExample()
    ensures Flattened(Arr([Entry(IntKey(0), Str("String")), Entry(IntKey(1), Int(123)),
                           Entry(IntKey(2), Bool(true)), Entry(IntKey(3), Null)])) == "String, 123, 1"
  {
    var v := Arr([Entry(IntKey(0), Str("String")), Entry(IntKey(1), Int(123)),
                  Entry(IntKey(2), Bool(true)), Entry(IntKey(3), Null)]);
    IntToString123();
    assert Piece(Int(123)) == "123";
    ThreeTruthyPiecesThenEmpty(v, "String", "123", "1");
  }
}
