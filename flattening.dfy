/** The record flattener (app.py:25-40): one row per review, in course order and
    then review order, carrying the parent course's identifier and title and
    every review field read with `dict.get` and its default.

    The source is a nested `for` loop appending to a list; `FlattenCourses`
    is that loop, proved equal to the specification function `Flatten`, and
    the lemmas below state what `Flatten` promises. */
module Flattening {
  import opened Json

  /** The Python exceptions the loop raises on malformed input. */
  datatype Exception =
    | KeyError(key: string)  // `course['courseId']` or `course['title']` on a course without that key
    | AttributeError         // `.get` on a course or review that is not a JSON object
    | TypeError              // iterating a `reviews` value that is null, a boolean or a number

  /** One flattened row: the dictionary built at app.py:28-40, one field per key. */
  datatype Row = Row(
    courseId: Value,
    title: Value,
    overallRating: Value,
    difficulty: Value,
    usefulness: Value,
    major: Value,
    anonymous: Value,
    additionalComments: Value,
    tips: Value,
    professor: Value,
    date: Value)

  /** The row built for `review` under a course with the given identifier and title. */
  function MakeRow(courseId: Value, title: Value, review: map<string, Value>): Row
  {
    Row(
      courseId,
      title,
      Get(review, "overall", JNull),
      Get(review, "difficulty", JNull),
      Get(review, "usefulness", JNull),
      Get(review, "major", JStr("Unknown")),
      Get(review, "anonymous", JStr("false")),
      Get(review, "additionalComments", JNull),
      Get(review, "tips", JNull),
      Get(review, "professor", JStr("Unknown")),
      Get(review, "createdAt", JNull))
  }

  /** `course.get('reviews', [])`. */
  function ReviewsOf(course: map<string, Value>): Value
  {
    Get(course, "reviews", JArr([]))
  }

  /** The exception raised while building a row for an item that is not a JSON
      object: the dictionary literal looks up `courseId`, then `title`, and only
      then calls `review.get`. */
  function ItemError(course: map<string, Value>): Exception
  {
    if "courseId" !in course then KeyError("courseId")
    else if "title" !in course then KeyError("title")
    else AttributeError
  }

  /** Building the row for one item of a course's `reviews`. */
  function BuildRow(course: map<string, Value>, item: Value): Result<Row, Exception>
  {
    if "courseId" in course && "title" in course && item.JObj? then
      Ok(MakeRow(course["courseId"], course["title"], item.fields))
    else
      Err(ItemError(course))
  }

  /** The rows of the items of one course's `reviews` list, in list order;
      the first item that fails stops the run with its exception. */
  function RowsFor(course: map<string, Value>, items: seq<Value>): Result<seq<Row>, Exception>
  {
    if items == [] then Ok([])
    else
      match RowsFor(course, items[..|items| - 1])
      case Err(e) => Err(e)
      case Ok(rows) =>
        match BuildRow(course, items[|items| - 1])
        case Err(e) => Err(e)
        case Ok(row) => Ok(rows + [row])
  }

  /** The rows of one course. A course without a `reviews` key has none. A
      `reviews` string or object is iterated as Python does (by characters, by
      keys): when empty it yields nothing, and otherwise its first item is a
      string, for which building a row fails. */
  function CourseRows(course: Value): Result<seq<Row>, Exception>
  {
    match course
    case JObj(fields) =>
      (match ReviewsOf(fields)
       case JArr(items) => RowsFor(fields, items)
       case JStr(s) => if s == "" then Ok([]) else Err(ItemError(fields))
       case JObj(m) => if m == map[] then Ok([]) else Err(ItemError(fields))
       case _ => Err(TypeError))
    case _ => Err(AttributeError)
  }

  /** The whole flattened list: the rows of each course in course order; the
      first course that fails stops the run with its exception. */
  function Flatten(coursesData: seq<Value>): Result<seq<Row>, Exception>
  {
    if coursesData == [] then Ok([])
    else
      match Flatten(coursesData[..|coursesData| - 1])
      case Err(e) => Err(e)
      case Ok(rows) =>
        match CourseRows(coursesData[|coursesData| - 1])
        case Err(e) => Err(e)
        case Ok(more) => Ok(rows + more)
  }

  // ----- Reference definitions -----

  /** The number of reviews a course lists: the length of its `reviews`
      array, and zero when it has no such array. */
  function ReviewCount(course: Value): nat
  {
    if course.JObj? && ReviewsOf(course.fields).JArr? then |ReviewsOf(course.fields).elems| else 0
  }

  /** The sum of `ReviewCount` over a list of courses. */
  function TotalReviews(coursesData: seq<Value>): nat
  {
    if coursesData == [] then 0
    else TotalReviews(coursesData[..|coursesData| - 1]) + ReviewCount(coursesData[|coursesData| - 1])
  }

  /** A course the loop can flatten without raising: an object whose
      `reviews` is absent, an array of objects (with `courseId` and `title`
      present when the array is non-empty), or an empty string or object. */
  predicate Flattenable(course: Value)
  {
    && course.JObj?
    && match ReviewsOf(course.fields)
       case JArr(items) =>
         && (items != [] ==> "courseId" in course.fields && "title" in course.fields)
         && forall j :: 0 <= j < |items| ==> items[j].JObj?
       case JStr(s) => s == ""
       case JObj(m) => m == map[]
       case _ => false
  }

  /** `v` is `review[key]` when the key is present, and `default` otherwise. */
  predicate Copied(v: Value, review: map<string, Value>, key: string, default: Value)
  {
    if key in review then v == review[key] else v == default
  }

  /** `row` is the row for `review` of `course`: the course's identifier and
      title, each review field copied when present (even when it is null), and
      otherwise "Unknown" for major and professor, the string "false" for
      anonymous and null for the rest. */
  predicate Describes(row: Row, course: map<string, Value>, review: map<string, Value>)
  {
    && "courseId" in course && row.courseId == course["courseId"]
    && "title" in course && row.title == course["title"]
    && Copied(row.overallRating, review, "overall", JNull)
    && Copied(row.difficulty, review, "difficulty", JNull)
    && Copied(row.usefulness, review, "usefulness", JNull)
    && Copied(row.major, review, "major", JStr("Unknown"))
    && Copied(row.anonymous, review, "anonymous", JStr("false"))
    && Copied(row.additionalComments, review, "additionalComments", JNull)
    && Copied(row.tips, review, "tips", JNull)
    && Copied(row.professor, review, "professor", JStr("Unknown"))
    && Copied(row.date, review, "createdAt", JNull)
  }

  // ----- The loop -----

  /** The flattening loop of app.py:25-40, with the exceptions it can raise
      returned as errors. */
  method FlattenCourses(coursesData: seq<Value>) returns (r: Result<seq<Row>, Exception>)
    ensures r == Flatten(coursesData)
  {
    var courses: seq<Row> := [];
    for i := 0 to |coursesData|
      invariant Flatten(coursesData[..i]) == Ok(courses)
    {
      assert coursesData[..i + 1][..i] == coursesData[..i];
      var rows := AppendCourseRows(coursesData[i], courses);
      if rows.Err? {
        FlattenErrorPersists(coursesData, i + 1);
        return Err(rows.error);
      }
      courses := rows.value;
    }
    assert coursesData[..|coursesData|] == coursesData;
    return Ok(courses);
  }

  /** One pass of the outer loop: the rows of `course` appended to the rows
      collected so far, or the exception raised on the way. */
  method AppendCourseRows(course: Value, courses: seq<Row>) returns (r: Result<seq<Row>, Exception>)
    ensures CourseRows(course).Err? ==> r == Err(CourseRows(course).error)
    ensures CourseRows(course).Ok? ==> r == Ok(courses + CourseRows(course).value)
  {
    if !course.JObj? {
      return Err(AttributeError);
    }
    var fields := course.fields;
    var reviews := Get(fields, "reviews", JArr([]));
    match reviews {
      case JArr(items) =>
        var acc := courses;
        for j := 0 to |items|
          invariant RowsFor(fields, items[..j]).Ok?
          invariant acc == courses + RowsFor(fields, items[..j]).value
        {
          assert items[..j + 1][..j] == items[..j];
          var review := items[j];
          if "courseId" !in fields {
            RowsForErrorPersists(fields, items, j + 1);
            return Err(KeyError("courseId"));
          }
          if "title" !in fields {
            RowsForErrorPersists(fields, items, j + 1);
            return Err(KeyError("title"));
          }
          if !review.JObj? {
            RowsForErrorPersists(fields, items, j + 1);
            return Err(AttributeError);
          }
          acc := acc + [MakeRow(fields["courseId"], fields["title"], review.fields)];
        }
        assert items[..|items|] == items;
        return Ok(acc);
      case JStr(s) =>
        if s != "" {
          return Err(ItemError(fields));
        }
        return Ok(courses + []);
      case JObj(m) =>
        if m != map[] {
          return Err(ItemError(fields));
        }
        return Ok(courses + []);
      case _ =>
        return Err(TypeError);
    }
  }

  /** Once a prefix of the items fails, the whole course fails with the same exception. */
  lemma {:induction false} RowsForErrorPersists(course: map<string, Value>, items: seq<Value>, k: nat)
    requires k <= |items| && RowsFor(course, items[..k]).Err?
    ensures RowsFor(course, items) == RowsFor(course, items[..k])
  {
    if k == |items| {
      assert items[..k] == items;
    } else {
      var front := items[..|items| - 1];
      assert front[..k] == items[..k];
      RowsForErrorPersists(course, front, k);
    }
  }

  /** Once a prefix of the courses fails, the whole run fails with the same exception. */
  lemma {:induction false} FlattenErrorPersists(coursesData: seq<Value>, k: nat)
    requires k <= |coursesData| && Flatten(coursesData[..k]).Err?
    ensures Flatten(coursesData) == Flatten(coursesData[..k])
  {
    if k == |coursesData| {
      assert coursesData[..k] == coursesData;
    } else {
      var front := coursesData[..|coursesData| - 1];
      assert front[..k] == coursesData[..k];
      FlattenErrorPersists(front, k);
    }
  }

  // ----- What the flattened list promises -----

  /** The items of one course flatten exactly when the course's identifier and
      title are present (if there is any item) and every item is an object;
      then there is one row per item, in item order, each describing its item. */
  lemma {:induction false} RowsForSpec(course: map<string, Value>, items: seq<Value>)
    ensures RowsFor(course, items).Ok? <==>
              && (items != [] ==> "courseId" in course && "title" in course)
              && forall j :: 0 <= j < |items| ==> items[j].JObj?
    ensures RowsFor(course, items).Ok? ==>
              && |RowsFor(course, items).value| == |items|
              && forall j :: 0 <= j < |items| ==>
                   items[j].JObj? && Describes(RowsFor(course, items).value[j], course, items[j].fields)
  {
    if items != [] {
      var front := items[..|items| - 1];
      RowsForSpec(course, front);
      assert forall j :: 0 <= j < |front| ==> front[j] == items[j];
    }
  }

  /** A course flattens without raising exactly when it is `Flattenable`;
      then it yields `ReviewCount` rows, row j describing review j. */
  lemma CourseRowsSpec(course: Value)
    ensures CourseRows(course).Ok? <==> Flattenable(course)
    ensures CourseRows(course).Ok? ==>
              && |CourseRows(course).value| == ReviewCount(course)
              && forall j :: 0 <= j < ReviewCount(course) ==>
                   var review := ReviewsOf(course.fields).elems[j];
                   review.JObj? && Describes(CourseRows(course).value[j], course.fields, review.fields)
  {
    if course.JObj? && ReviewsOf(course.fields).JArr? {
      RowsForSpec(course.fields, ReviewsOf(course.fields).elems);
    }
  }

  /** The loop raises no exception exactly when every course is `Flattenable`. */
  lemma {:induction false} FlattenOkIff(coursesData: seq<Value>)
    ensures Flatten(coursesData).Ok? <==> forall i :: 0 <= i < |coursesData| ==> Flattenable(coursesData[i])
  {
    if coursesData != [] {
      var front := coursesData[..|coursesData| - 1];
      FlattenOkIff(front);
      CourseRowsSpec(coursesData[|coursesData| - 1]);
      assert forall i :: 0 <= i < |front| ==> front[i] == coursesData[i];
    }
  }

  /** The number of rows is the total number of reviews over all courses. */
  lemma {:induction false} FlattenCount(coursesData: seq<Value>)
    requires Flatten(coursesData).Ok?
    ensures |Flatten(coursesData).value| == TotalReviews(coursesData)
  {
    if coursesData != [] {
      FlattenCount(coursesData[..|coursesData| - 1]);
      CourseRowsSpec(coursesData[|coursesData| - 1]);
    }
  }

  /** Review j of course i lands at position `TotalReviews(coursesData[..i]) + j`:
      after every row of the earlier courses, after the earlier reviews of its
      own course, and before every row of the later courses; that row carries
      the course's identifier and title and the review's fields. */
  lemma {:induction false} FlattenRowAt(coursesData: seq<Value>, i: nat, j: nat)
    requires Flatten(coursesData).Ok?
    requires i < |coursesData| && j < ReviewCount(coursesData[i])
    ensures TotalReviews(coursesData[..i]) + j < |Flatten(coursesData).value|
    ensures var review := ReviewsOf(coursesData[i].fields).elems[j];
            && review.JObj?
            && Describes(Flatten(coursesData).value[TotalReviews(coursesData[..i]) + j],
                         coursesData[i].fields, review.fields)
  {
    var n := |coursesData|;
    var front := coursesData[..n - 1];
    var rows := Flatten(front).value;
    var more := CourseRows(coursesData[n - 1]).value;
    assert Flatten(coursesData).value == rows + more;
    CourseRowsSpec(coursesData[n - 1]);
    FlattenCount(front);
    if i < n - 1 {
      assert front[i] == coursesData[i];
      assert front[..i] == coursesData[..i];
      FlattenRowAt(front, i, j);
    } else {
      assert coursesData[..i] == front;
    }
  }

  /** Every row comes from some review: row k is review j of course i, with
      i and j as in `FlattenRowAt`. */
  lemma {:induction false} FlattenRowOrigin(coursesData: seq<Value>, k: nat) returns (i: nat, j: nat)
    requires Flatten(coursesData).Ok? && k < |Flatten(coursesData).value|
    ensures i < |coursesData| && j < ReviewCount(coursesData[i])
    ensures k == TotalReviews(coursesData[..i]) + j
  {
    var n := |coursesData|;
    var front := coursesData[..n - 1];
    FlattenCount(coursesData);
    FlattenCount(front);
    assert coursesData[..n - 1] == front;
    if k < TotalReviews(front) {
      i, j := FlattenRowOrigin(front, k);
      assert front[i] == coursesData[i];
      assert front[..i] == coursesData[..i];
    } else {
      i, j := n - 1, k - TotalReviews(front);
    }
  }

  /** Courses that carry no reviews, having no `reviews` key or an empty list,
      flatten to nothing, whatever else they lack. */
  lemma {:induction false} NoReviewsNoRows(coursesData: seq<Value>)
    requires forall i :: 0 <= i < |coursesData| ==>
               coursesData[i].JObj? && ReviewsOf(coursesData[i].fields) == JArr([])
    ensures Flatten(coursesData) == Ok([])
  {
    if coursesData != [] {
      var front := coursesData[..|coursesData| - 1];
      assert forall i :: 0 <= i < |front| ==> front[i] == coursesData[i];
      NoReviewsNoRows(front);
      var last := coursesData[|coursesData| - 1];
      assert last.JObj? && ReviewsOf(last.fields) == JArr([]);
      assert CourseRows(last) == RowsFor(last.fields, []) == Ok([]);
      var none: seq<Row> := [];
      assert none + none == none;
      assert Flatten(coursesData) == Ok(none + none);
    }
  }

  /** Appending a course without a `reviews` key changes nothing and raises
      nothing, even when it has no `courseId` or `title`. */
  lemma CourseWithoutReviewsAddsNothing(coursesData: seq<Value>, course: map<string, Value>)
    requires "reviews" !in course
    ensures Flatten(coursesData + [JObj(course)]) == Flatten(coursesData)
  {
    assert (coursesData + [JObj(course)])[..|coursesData|] == coursesData;
    assert CourseRows(JObj(course)) == Ok([]);
    if Flatten(coursesData).Ok? {
      assert Flatten(coursesData).value + [] == Flatten(coursesData).value;
    }
  }

  /** The flattened list is empty exactly when no exception is raised and the
      courses list no reviews at all. */
  lemma FlattenEmptyIff(coursesData: seq<Value>)
    ensures Flatten(coursesData) == Ok([]) <==>
              (forall i :: 0 <= i < |coursesData| ==> Flattenable(coursesData[i])) && TotalReviews(coursesData) == 0
  {
    FlattenOkIff(coursesData);
    if Flatten(coursesData).Ok? {
      FlattenCount(coursesData);
    }
  }
}
