/** The preparation of the table the charts are drawn from: the fetched
    course list (app.py:17-22), its flattening (app.py:25-43), the empty-table
    guard (app.py:46-48) and the `Is Anonymous` column (app.py:62-66). */
module Pipeline {
  import opened Json
  import opened Anonymity
  import opened Flattening

  /** Why a run stops before any chart is built. */
  datatype Failure =
    | Raised(exception: Exception)  // the flattening loop raised
    | NoData                        // "No data available for analysis."

  /** The prepared table: the flattened rows and, beside them, the derived
      `Is Anonymous` column. */
  datatype Table = Table(rows: seq<Row>, isAnonymous: seq<string>)

  /** The course list the program works on: the decoded body of a response
      with status 200, and the empty list for any other status. */
  function CoursesData(status: int, body: seq<Value>): seq<Value>
  {
    if status == 200 then body else []
  }

  /** The column names of the data frame built from `rows`: the keys of the
      row dictionaries, and none at all for a frame built from no rows. */
  function Columns(rows: seq<Row>): set<string>
  {
    if rows == [] then {}
    else {"Course ID", "Title", "Overall Rating", "Difficulty", "Usefulness", "Major",
          "Anonymous", "Additional Comments", "Tips", "Professor", "Date"}
  }

  /** Every row dictionary carries the `Anonymous` key, so the frame has
      that column exactly when it has a row: once the empty-table guard has
      passed, the fallback branch of app.py:64-66 cannot be taken. */
  lemma AnonymousColumnPresent(rows: seq<Row>)
    ensures "Anonymous" in Columns(rows) <==> rows != []
  {
  }

  /** The `Is Anonymous` column (app.py:62-66): `anongroup` of each row's
      `Anonymous` value when that column exists, and "false" in every row
      otherwise. Either way there is one label per row, each "true" or "false". */
  method AnonymityColumn(rows: seq<Row>) returns (labels: seq<string>)
    ensures |labels| == |rows|
    ensures forall k :: 0 <= k < |rows| ==> labels[k] == Classify(rows[k].anonymous)
    ensures forall k :: 0 <= k < |rows| ==> labels[k] == "true" || labels[k] == "false"
  {
    if "Anonymous" in Columns(rows) {
      labels := [];
      for k := 0 to |rows|
        invariant |labels| == k
        invariant forall m :: 0 <= m < k ==> labels[m] == Classify(rows[m].anonymous)
      {
        labels := labels + [Classify(rows[k].anonymous)];
      }
    } else {
      // "Warning: 'Anonymous' column not found."
      labels := seq(|rows|, _ => "false");
    }
  }

  /** One run up to the charts: fetch outcome, flattening, the empty-table
      guard and the `Is Anonymous` column. A raised exception or an empty
      table stops the run before any chart; otherwise the table holds the
      flattened rows and their labels. */
  method PrepareTable(status: int, body: seq<Value>) returns (r: Result<Table, Failure>)
    ensures Flatten(CoursesData(status, body)).Err? ==>
              r == Err(Raised(Flatten(CoursesData(status, body)).error))
    ensures Flatten(CoursesData(status, body)) == Ok([]) ==> r == Err(NoData)
    ensures r.Ok? <==> Flatten(CoursesData(status, body)).Ok? && Flatten(CoursesData(status, body)).value != []
    ensures r.Ok? ==>
              && r.value.rows == Flatten(CoursesData(status, body)).value
              && |r.value.isAnonymous| == |r.value.rows|
              && forall k :: 0 <= k < |r.value.rows| ==>
                   r.value.isAnonymous[k] == Classify(r.value.rows[k].anonymous)
  {
    var coursesData := CoursesData(status, body);
    var courses := FlattenCourses(coursesData);
    if courses.Err? {
      return Err(Raised(courses.error));
    }
    var df := courses.value;
    if df == [] {
      // "No data available for analysis."
      return Err(NoData);
    }
    var isAnonymous := AnonymityColumn(df);
    return Ok(Table(df, isAnonymous));
  }

  /** A fetch that does not answer with status 200 gives an empty course
      list, which flattens to no rows: the run reports that there is no data. */
  lemma FailedFetchHasNoRows(status: int, body: seq<Value>)
    requires status != 200
    ensures Flatten(CoursesData(status, body)) == Ok([])
  {
  }

  /** A row whose review had no `anonymous` key holds the string "false",
      which the classifier labels "false". */
  lemma DefaultedAnonymousIsFalse(row: Row, course: map<string, Value>, review: map<string, Value>)
    requires Describes(row, course, review) && "anonymous" !in review
    ensures Classify(row.anonymous) == "false"
  {
  }

  /** An example course with one review marked "anon". */
  function ExampleCourse(): Value
  {
    JObj(map["courseId" := JStr("C1"), "title" := JStr("Intro"),
             "reviews" := JArr([JObj(map["overall" := JNum(4.0), "difficulty" := JNum(3.0),
                                         "usefulness" := JNum(5.0), "major" := JStr("CS"),
                                         "anonymous" := JStr("anon")])])])
  }

  /** The example course yields one row: its identifier and title, the
      review's values, "Unknown" for the missing professor and null for the
      other missing fields; its `Anonymous` value is labelled "true". */
  lemma ExampleFlattens()
    ensures Flatten([ExampleCourse()]) ==
              Ok([Row(JStr("C1"), JStr("Intro"), JNum(4.0), JNum(3.0), JNum(5.0), JStr("CS"),
                      JStr("anon"), JNull, JNull, JStr("Unknown"), JNull)])
    ensures Classify(Flatten([ExampleCourse()]).value[0].anonymous) == "true"
  {
    var course := ExampleCourse();
    var review := ReviewsOf(course.fields).elems[0];
    var row := Row(JStr("C1"), JStr("Intro"), JNum(4.0), JNum(3.0), JNum(5.0), JStr("CS"),
                   JStr("anon"), JNull, JNull, JStr("Unknown"), JNull);
    var none: seq<Row> := [];
    assert BuildRow(course.fields, review) == Ok(row);
    assert RowsFor(course.fields, [review]) == Ok(none + [row]) by {
      assert [review][..0] == [];
    }
    assert ReviewsOf(course.fields) == JArr([review]);
    assert none + [row] == [row];
    assert CourseRows(course) == Ok([row]);
    assert Flatten([course]) == Ok(none + [row]) by {
      assert [course][..0] == [];
    }
  }

  /** Preparing the table from a status-200 response holding the example
      course: the one row of `ExampleFlattens`, labelled "true". */
  method ExampleTable() returns (r: Result<Table, Failure>)
    ensures r == Ok(Table([Row(JStr("C1"), JStr("Intro"), JNum(4.0), JNum(3.0), JNum(5.0), JStr("CS"),
                               JStr("anon"), JNull, JNull, JStr("Unknown"), JNull)], ["true"]))
  {
    r := PrepareTable(200, [ExampleCourse()]);
    ExampleFlattens();
    var row := Row(JStr("C1"), JStr("Intro"), JNum(4.0), JNum(3.0), JNum(5.0), JStr("CS"),
                   JStr("anon"), JNull, JNull, JStr("Unknown"), JNull);
    assert r.Ok? && r.value.rows == [row];
    var table := r.value;
    assert table.isAnonymous[0] == Classify(table.rows[0].anonymous) == "true";
    assert table.isAnonymous == ["true"];
  }
}
