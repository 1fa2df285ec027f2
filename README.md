# Course-review flattening and anonymity labelling

A Dafny model of the data preparation in the course-review dashboard
(`app.py`): the course list returned by the review API is flattened into one
row per review, the run stops when no row results, and each row receives an
`Is Anonymous` label derived from its `anonymous` field. The charts and the
web page drawn from that table are not modelled.

Files and modules:

- `json.dfy`, module `Json`: decoded JSON values (`Value`), Python's
  `dict.get` (`Get`) and a `Result` type. A JSON object is a map, so a key
  that is absent and a key present with null stay distinct.
- `anonymity.dfy`, module `Anonymity`: `anongroup` as the function
  `Classify` over the tagged `Value`, with ASCII lower-casing.
- `flattening.dfy`, module `Flattening`: the row record, the Python
  exceptions the loop can raise, the specification function `Flatten`, the
  nested loop itself (`FlattenCourses`, `AppendCourseRows`) proved equal to
  it, and the lemmas on what the flattened list promises: its length, its
  order, each row's provenance and field defaults, and exactly when no
  exception is raised.
- `pipeline.dfy`, module `Pipeline`: the fetch outcome as a course list,
  the empty-table guard as the error `NoData` instead of a process exit, the
  `Is Anonymous` column, and an example run.

Malformed input raises as the code does: `course['courseId']` and
`course['title']` raise `KeyError` as soon as a course has a review (and a review that is not an object raises
`AttributeError`; a `reviews` value that is null, a boolean or a number raises
`TypeError`). These are modelled as `Err` results of `Flatten`; a course with
no `reviews` key, or with an empty list, contributes no rows and raises nothing
even without `courseId` or `title`.

## Model

| member | source | states |
|---|---|---|
| `Anonymity.Lower` | app.py:54 | lower-casing keeps the length and maps each character through ASCII lower-casing |
| `Anonymity.LowerIsAnon` | app.py:54 | a string lower-cases to "anon" exactly when it is one of the sixteen case spellings of "anon" |
| `Anonymity.Classify` | app.py:51-59 | the label is always "true" or "false", and it is "true" exactly for a case spelling of "anon" or for the boolean true; null, numbers, false, other strings, arrays and objects give "false" |
| `Anonymity.ClassifyExamples` | app.py:51-59 | "Anon", "ANON", "anon" and true give "true"; "Bob", false, null, a number and the default string "false" give "false" |
| `Flattening.FlattenCourses` | app.py:25-40 | the nested loop returns exactly `Flatten` of its input: the rows or the first exception raised |
| `Flattening.AppendCourseRows` | app.py:26-40 | one pass of the outer loop appends exactly the rows of that course to those collected so far, or returns the course's exception |
| `Flattening.RowsForErrorPersists` | app.py:27-40 | once an item of a course raises, the whole course raises the same exception |
| `Flattening.FlattenErrorPersists` | app.py:26-40 | once a course raises, the whole run raises the same exception |
| `Flattening.RowsForSpec` | app.py:27-40 | the items of a course flatten exactly when every item is an object and, if there is any, the course has `courseId` and `title`; then there is one row per item in item order, each carrying the course's identifier and title and the item's fields with their defaults |
| `Flattening.CourseRowsSpec` | app.py:26-40 | a course flattens without raising exactly when it is an object whose `reviews` is absent, an array of objects (with identifier and title if non-empty), or empty; then it yields one row per listed review, row j describing review j |
| `Flattening.FlattenOkIff` | app.py:26-40 | the loop raises nothing exactly when every course can be flattened |
| `Flattening.FlattenCount` | app.py:25-28 | the number of rows is the sum over the courses of the length of their `reviews` list, counting zero for a course without one |
| `Flattening.FlattenRowAt` | app.py:26-39 | review j of course i is the row at position (reviews of the earlier courses) + j, so course order and then review order are kept; that row holds the course's `courseId` and `title`, each present review field copied unchanged (null included), and for absent ones "Unknown" (major, professor), the string "false" (anonymous) or null (overall, difficulty, usefulness, additionalComments, tips, createdAt) |
| `Flattening.FlattenRowOrigin` | app.py:26-28 | every row is the row of some review j of some course i, at the position `FlattenRowAt` gives |
| `Flattening.NoReviewsNoRows` | app.py:26-27 | courses with no `reviews` key or an empty list flatten to no rows, whatever else they lack |
| `Flattening.CourseWithoutReviewsAddsNothing` | app.py:27 | appending a course without a `reviews` key changes neither the rows nor the error, even when it lacks `courseId` and `title` |
| `Flattening.FlattenEmptyIff` | app.py:25-48 | the flattened list is empty exactly when nothing raises and the courses list no reviews at all |
| `Pipeline.AnonymousColumnPresent` | app.py:62-66 | the frame has an `Anonymous` column exactly when it has a row, so past the empty-table guard the fallback branch cannot be taken |
| `Pipeline.AnonymityColumn` | app.py:62-66 | the label column has one entry per row, entry k being `Classify` of row k's `Anonymous` value, and every entry is "true" or "false" |
| `Pipeline.PrepareTable` | app.py:17-66 | a raised exception stops the run with that exception; no rows stops it with `NoData`; otherwise the table holds exactly the flattened rows and their labels |
| `Pipeline.FailedFetchHasNoRows` | app.py:17-22 | a response whose status is not 200 gives an empty course list and so no rows |
| `Pipeline.DefaultedAnonymousIsFalse` | app.py:35 | a row whose review had no `anonymous` key is labelled "false" |
| `Pipeline.ExampleFlattens` | app.py:28-40 | a course C1/Intro with one review marked "anon" yields exactly one row with its values, "Unknown" for the professor, null for the missing fields, and that row's `Anonymous` value is labelled "true" |
| `Pipeline.ExampleTable` | app.py:17-66 | preparing the table from a status-200 response holding that course gives exactly that one row with the label column ["true"] |

## Left out

- The HTTP request to the review API (app.py:13-22): network I/O. Its
  outcome enters as a status code and an already decoded course list.
- A decoded response body that is not a JSON array: the course list is
  taken to be a sequence of JSON values.
- The `print` messages (app.py:19, 21, 47, 65): console output.
- The `exit()` of app.py:48: it becomes the error result `NoData`.
- The pandas data frame (app.py:43): it is the sequence of rows; the type
  coercions pandas applies to a column (null to NaN in a numeric column, for
  one) are not modelled; they never turn a value into a string or a boolean,
  so they do not change a label.
- All chart construction and HTML serialisation (app.py:69-89) and the Flask
  route and page (app.py:7-8, 92-115): foreign library calls, floating-point
  statistics and markup with no specification to state.
- `Anonymity.Lower`: `str.lower()` is modelled over the ASCII letters only;
  other characters are left as they are.
- JSON numbers are modelled as `real`; the integer/float distinction of the
  decoder plays no part in the core. Python's JSON decoder also accepts `NaN`,
  `Infinity` and `-Infinity`, and turns an overflowing exponent into `inf`;
  no `real` holds those. The core only copies such values into rows, and the
  classifier labels every number "false", so nothing modelled depends on them.
- `Flattening.CourseRows`: a `reviews` value that is a non-empty string or
  object is iterated by Python as characters or keys; the model only records
  that its first item is a string, for which building a row raises, and not
  which string it is (Dafny maps have no key order).
