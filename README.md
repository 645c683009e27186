# GPA calculator: course ledger and GPA aggregation

A Dafny model of a small REST service that keeps per-student course records
(course name, letter grade, credit weight) and derives a credit-weighted Grade
Point Average from them. The HTTP and database layers are replaced by an
in-memory table; what remains is the logic of `gpa_calculator.py`:

- `grade_policy.dfy` — module `GradePolicy`: the fixed table from the twelve
  letter grades to grade points, and the lookup with its 0.0 fallback.
- `course.dfy` — module `CourseRecord`: the `Course` record and the validity
  every stored record keeps (grade in the table, credits > 0).
- `gpa.dfy` — module `GpaCalc`: the GPA as a specification function over a
  sequence of records, the accumulator loop of `calculate_gpa` proved against
  it, and its properties (reordering, bounds, the unused fallback).
- `ledger.dfy` — module `Ledger`: request bodies with optional fields, the
  validation of add and update requests, the partial overwrite, the listing
  filter, and the class `CourseLedger` whose methods are the add, GPA query,
  update and delete handlers acting on a `map<nat, Course>` and an id counter.
- `scenarios.dfy` — module `LedgerScenarios`: the service's usage examples
  driven through the ledger's contracts.

Credits and points are exact `real`s, so the GPA is an exact quotient.
Request bodies are records of `Option` fields: a key that is absent from the
JSON body is `None`. Error responses are the `Error` datatype (`MissingField`,
`InvalidGrade`, `InvalidCredits`, `NotFound`) inside a `Result`.

Where the service's design description and the code differ, the model follows
the code:
- the code never checks that `course_name` is non-empty, so neither does the model;
- `calculate_gpa` returns 0.0 whenever the credit total is not positive (not only when it is zero);
- an update validates only the fields it supplies rather than the whole resulting
  record; `Ledger.CheckPatch` proves that, on a valid record, this is the same thing.

## Model

| member | source | states |
|---|---|---|
| GradePolicy.PointsOrZero | gpa_calculator.py:48 | the lookup yields the table's value for a known grade, 0.0 for any other string, and always lies in [0.0, 4.0] |
| GradePolicy.PolicyDomain | gpa_calculator.py:15-20 | the table's keys are exactly the twelve grades A+, A, A-, B+, B, B-, C+, C, C-, D+, D, F |
| GradePolicy.PolicyAnchors | gpa_calculator.py:15-20 | A+ and A are both 4.0, B- is 2.7 and F is 0.0 |
| GradePolicy.PolicyBounds | gpa_calculator.py:15-20 | every value in the table lies between 0.0 and 4.0 |
| GradePolicy.PolicyMonotone | gpa_calculator.py:15-20 | a higher letter grade never earns fewer points than a lower one |
| GpaCalc.Gpa | gpa_calculator.py:50 | when the credit total is positive the GPA times the credit total is the points total; otherwise the GPA is 0.0 |
| GpaCalc.CalculateGpa | gpa_calculator.py:44-50 | the two-accumulator loop returns exactly the specified GPA of its input |
| GpaCalc.GpaOfEmpty | gpa_calculator.py:45-50 | the GPA of no records is 0.0 |
| GpaCalc.TotalsAppend | gpa_calculator.py:47-49 | points and credit totals are additive over concatenation |
| GpaCalc.TotalsReorder | gpa_calculator.py:47-49 | any permutation of the records has the same points and credit totals |
| GpaCalc.GpaReorder | gpa_calculator.py:44-50 | the GPA does not change when the records are reordered |
| GpaCalc.TotalsBounds | gpa_calculator.py:47-49 | on valid records the credit total is positive when there is a record and the points total lies in [0, 4 × credits] |
| GpaCalc.GpaBounds | gpa_calculator.py:44-50 | on valid records the GPA lies in [0.0, 4.0] |
| GpaCalc.FallbackUnused | gpa_calculator.py:48 | when every grade is in the table the points total equals the sum taken with the table alone, so the 0.0 default never contributes |
| GpaCalc.ScenarioGpa | gpa_calculator.py:44-50 | an A with 3 credits and a B- with 4 give 22.8 / 7, which lies in [3.255, 3.265) and so rounds to 3.26 |
| Ledger.CheckNew | gpa_calculator.py:56-61 | an add request fails with MissingField iff a required key is absent, else InvalidGrade iff the grade is unknown, else InvalidCredits iff credits ≤ 0; it passes iff the record it builds is valid |
| Ledger.CheckPatch | gpa_calculator.py:90-93 | an update fails with InvalidGrade iff it supplies an unknown grade, else InvalidCredits iff it supplies credits ≤ 0; it passes iff applying it to any valid record keeps the record valid |
| Ledger.ApplyPatch | gpa_calculator.py:95-97 | id and student_id are kept; each of course_name, grade and credits is the supplied value when supplied and the old one otherwise |
| Ledger.EmptyPatchIdentity | gpa_calculator.py:90-97 | an update with no fields passes validation and leaves the record identical |
| Ledger.PatchIdempotent | gpa_calculator.py:95-97 | applying the same update twice equals applying it once |
| Ledger.Listing | gpa_calculator.py:75 | the filter holds exactly the stored records of the student with id below the bound, in strictly increasing id order |
| Ledger.CourseLedger.constructor | gpa_calculator.py:39-41 | a new ledger is empty and satisfies the invariant |
| Ledger.CourseLedger.ListByStudent | gpa_calculator.py:73-76 | the listing holds exactly the stored records whose student_id matches (possibly none), each valid, each once |
| Ledger.CourseLedger.Add | gpa_calculator.py:53-71 | on a validation error the ledger is unchanged and the error is the first failing check; on success exactly one record with the supplied fields is inserted under an id not previously stored, nothing else changes, the invariant is kept, and listing the student afterwards contains it |
| Ledger.CourseLedger.QueryGpa | gpa_calculator.py:78-84 | NotFound iff the student has no records (never 0.0 for them); otherwise the GPA of the student's records, which lies in [0.0, 4.0] |
| Ledger.CourseLedger.Update | gpa_calculator.py:86-99 | NotFound and no change on an absent id; the validation error and no change on a bad supplied field; otherwise only that record is replaced by the patched one and the invariant is kept |
| Ledger.CourseLedger.Delete | gpa_calculator.py:101-106 | NotFound and no change on an absent id; otherwise exactly that id is removed |
| LedgerScenarios.RejectionScenario | gpa_calculator.py:56-61 | on an empty ledger the GPA query is NotFound, zero credits give InvalidCredits, grade "A++" gives InvalidGrade and a missing course name gives MissingField |
| LedgerScenarios.TwoCourseScenario | gpa_calculator.py:53-84 | adding A/3 credits and B-/4 credits for one student makes the GPA query return 22.8 / 7 |
| LedgerScenarios.ListOfTwo | gpa_calculator.py:75 | an id-ordered listing whose elements are exactly two records with different ids is a permutation of those two |

## Left out

- Flask routing, `request.get_json`, `jsonify` and HTTP status codes: each handler returns the `Result` value that the status code and body encode.
- SQLAlchemy sessions, `commit`, `create_all` and the migration tool: the table is an in-memory map inside `CourseLedger`.
- The exact id the database assigns: the model hands out ids from a counter, and its contracts promise only that a new id is not already in the table.
- The order of the database query: the model lists in increasing id order, one of the orders the query may return.
- `round(..., 2)` and floating-point arithmetic: the GPA is the exact real quotient; `GpaCalc.ScenarioGpa` shows the documented example lies in the interval that rounds to 3.26.
- `to_dict`: a `Course` value is itself the response record.
- Runtime type errors for non-numeric credits, a `null` value or a non-dict body; request keys outside the four fields, which the code ignores; the column length limits of `student_id`, `course_name` and `grade`.
- Concurrency between requests: each operation is one atomic method call.
