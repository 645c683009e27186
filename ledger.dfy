/**
 * The course ledger: one table of course records keyed by id, with the add,
 * list, GPA-query, partial-update and delete operations of the service, each
 * reduced to its effect on the table and its result or error.
 */
module Ledger {
  import opened Optional
  import opened GradePolicy
  import opened CourseRecord
  import opened GpaCalc

  /** The error responses the operations return. */
  datatype Error = MissingField | InvalidGrade | InvalidCredits | NotFound

  datatype Result<+T> = Ok(value: T) | Err(error: Error)

  /** The body of an add request: each of the four required keys may be absent. */
  datatype NewCourse = NewCourse(studentId: Option<string>, courseName: Option<string>,
                                 grade: Option<string>, credits: Option<real>)

  /** The body of an update request: any subset of the three updatable fields. */
  datatype CoursePatch = CoursePatch(courseName: Option<string>, grade: Option<string>,
                                     credits: Option<real>)

  /** The update that supplies no field. */
  const EmptyPatch := CoursePatch(None, None, None)

  /** All four required keys are present. */
  predicate IsComplete(req: NewCourse) {
    req.studentId.Some? && req.courseName.Some? && req.grade.Some? && req.credits.Some?
  }

  /** The record an accepted add request stores under `id`. */
  function Build(req: NewCourse, id: nat): Course
    requires IsComplete(req)
  {
    Course(id, req.studentId.value, req.courseName.value, req.grade.value, req.credits.value)
  }

  /**
   * Validation of an add request (gpa_calculator.py:56-61): missing keys are
   * reported first, then an unknown grade, then non-positive credits.
   */
  function CheckNew(req: NewCourse): (r: Option<Error>)
    ensures r == Some(MissingField) <==> !IsComplete(req)
    ensures r == Some(InvalidGrade) <==> IsComplete(req) && !IsGrade(req.grade.value)
    ensures r == Some(InvalidCredits) <==> IsComplete(req) && IsGrade(req.grade.value) && req.credits.value <= 0.0
    ensures r.None? <==> IsComplete(req) && forall id: nat :: ValidRecord(Build(req, id))
  {
    if !IsComplete(req) then Some(MissingField)
    else if req.grade.value !in GradePoints then
      assert !ValidRecord(Build(req, 0));
      Some(InvalidGrade)
    else if req.credits.value <= 0.0 then
      assert !ValidRecord(Build(req, 0));
      Some(InvalidCredits)
    else
      assert IsComplete(req) && ValidRecord(Build(req, 0));
      None
  }

  /**
   * Validation of an update request (gpa_calculator.py:90-93): only the supplied
   * fields are checked, the grade before the credits.
   */
  function CheckPatch(p: CoursePatch): (r: Option<Error>)
    ensures r == Some(InvalidGrade) <==> p.grade.Some? && !IsGrade(p.grade.value)
    ensures r == Some(InvalidCredits) <==> (p.grade.Some? ==> IsGrade(p.grade.value)) && p.credits.Some? && p.credits.value <= 0.0
    ensures r.None? <==> forall c :: ValidRecord(c) ==> ValidRecord(ApplyPatch(c, p))
    ensures r != Some(MissingField) && r != Some(NotFound)
  {
    if p.grade.Some? && p.grade.value !in GradePoints then
      assert !ValidRecord(ApplyPatch(Course(0, "", "", "A", 1.0), p));
      Some(InvalidGrade)
    else if p.credits.Some? && p.credits.value <= 0.0 then
      assert !ValidRecord(ApplyPatch(Course(0, "", "", "A", 1.0), p));
      Some(InvalidCredits)
    else None
  }

  /**
   * The overwrite of an update (gpa_calculator.py:95-97): each supplied field
   * replaces the stored one, the others keep their value.
   */
  function ApplyPatch(c: Course, p: CoursePatch): (r: Course)
    ensures r.id == c.id && r.studentId == c.studentId
    ensures r.courseName == (if p.courseName.Some? then p.courseName.value else c.courseName)
    ensures r.grade == (if p.grade.Some? then p.grade.value else c.grade)
    ensures r.credits == (if p.credits.Some? then p.credits.value else c.credits)
  {
    c.(courseName := p.courseName.GetOr(c.courseName),
       grade := p.grade.GetOr(c.grade),
       credits := p.credits.GetOr(c.credits))
  }

  /** An update that supplies no field passes validation and leaves the record identical. */
  lemma EmptyPatchIdentity(c: Course)
    ensures CheckPatch(EmptyPatch) == None
    ensures ApplyPatch(c, EmptyPatch) == c
  {
  }

  /** Applying the same update twice is the same as applying it once. */
  lemma PatchIdempotent(c: Course, p: CoursePatch)
    ensures ApplyPatch(ApplyPatch(c, p), p) == ApplyPatch(c, p)
  {
  }

  /** Every key of the table is the id of the record stored under it. */
  ghost predicate KeysMatchIds(m: map<nat, Course>) {
    forall k :: k in m ==> m[k].id == k
  }

  /**
   * The records of student `sid` among those with id below `n`, in increasing
   * id order: the filter of gpa_calculator.py:75 and 80.
   */
  function Listing(m: map<nat, Course>, sid: string, n: nat): (r: seq<Course>)
    requires KeysMatchIds(m)
    ensures forall c :: c in r <==> c.id < n && c.id in m && m[c.id] == c && c.studentId == sid
    ensures forall i, j :: 0 <= i < j < |r| ==> r[i].id < r[j].id
  {
    if n == 0 then []
    else
      var prev := Listing(m, sid, n - 1);
      if n - 1 in m && m[n - 1].studentId == sid then prev + [m[n - 1]] else prev
  }

  /** The course table together with the counter that hands out fresh ids. */
  class CourseLedger {
    var courses: map<nat, Course>
    var nextId: nat

    /** Keys are ids, every id is below the counter, every record is valid. */
    ghost predicate Valid()
      reads this
    {
      && KeysMatchIds(courses)
      && (forall k :: k in courses ==> k < nextId)
      && (forall k :: k in courses ==> ValidRecord(courses[k]))
    }

    /** An empty table. */
    constructor ()
      ensures Valid() && courses == map[]
    {
      courses := map[];
      nextId := 1;
    }

    /** The records of student `sid` (gpa_calculator.py:73-76); empty when there are none. */
    function ListByStudent(sid: string): (r: seq<Course>)
      reads this
      requires Valid()
      ensures forall c :: c in r <==> c.id in courses && courses[c.id] == c && c.studentId == sid
      ensures forall i :: 0 <= i < |r| ==> ValidRecord(r[i])
      ensures forall i, j :: 0 <= i < j < |r| ==> r[i].id < r[j].id
    {
      var r := Listing(courses, sid, nextId);
      assert forall i :: 0 <= i < |r| ==> r[i] in r;
      r
    }

    /** `add_course` (gpa_calculator.py:53-71). */
    method Add(req: NewCourse) returns (r: Result<Course>)
      requires Valid()
      modifies this
      ensures Valid()
      ensures r.Err? <==> CheckNew(req).Some?
      ensures r.Err? ==> r.error == CheckNew(req).value && unchanged(this)
      ensures r.Ok? ==> && IsComplete(req)
                        && r.value == Build(req, r.value.id)
                        && r.value.id !in old(courses)
                        && courses == old(courses)[r.value.id := r.value]
      ensures r.Ok? ==> r.value in ListByStudent(req.studentId.value)
    {
      var e := CheckNew(req);
      if e.Some? {
        return Err(e.value);
      }
      var course := Build(req, nextId);
      assert ValidRecord(course);
      courses := courses[nextId := course];
      nextId := nextId + 1;
      r := Ok(course);
    }

    /** `get_gpa` (gpa_calculator.py:78-84): not found when the student has no records. */
    method QueryGpa(sid: string) returns (r: Result<real>)
      requires Valid()
      ensures r == Err(NotFound) <==> ListByStudent(sid) == []
      ensures r.Ok? ==> r.value == Gpa(ListByStudent(sid)) && 0.0 <= r.value <= 4.0
      ensures r.Err? ==> r.error == NotFound
    {
      var cs := ListByStudent(sid);
      if cs == [] {
        return Err(NotFound);
      }
      var gpa := CalculateGpa(cs);
      GpaBounds(cs);
      r := Ok(gpa);
    }

    /** `update_course` (gpa_calculator.py:86-99). */
    method Update(id: nat, patch: CoursePatch) returns (r: Result<Course>)
      requires Valid()
      modifies this
      ensures Valid()
      ensures id !in old(courses) ==> r == Err(NotFound) && unchanged(this)
      ensures id in old(courses) && CheckPatch(patch).Some? ==>
                r == Err(CheckPatch(patch).value) && unchanged(this)
      ensures id in old(courses) && CheckPatch(patch).None? ==>
                && r == Ok(ApplyPatch(old(courses)[id], patch))
                && courses == old(courses)[id := r.value]
                && nextId == old(nextId)
    {
      if id !in courses {
        return Err(NotFound);
      }
      var e := CheckPatch(patch);
      if e.Some? {
        return Err(e.value);
      }
      var course := ApplyPatch(courses[id], patch);
      courses := courses[id := course];
      r := Ok(course);
    }

    /** `delete_course` (gpa_calculator.py:101-106). */
    method Delete(id: nat) returns (r: Result<()>)
      requires Valid()
      modifies this
      ensures Valid()
      ensures id !in old(courses) ==> r == Err(NotFound) && unchanged(this)
      ensures id in old(courses) ==> r == Ok(()) && courses == old(courses) - {id} && nextId == old(nextId)
    {
      if id !in courses {
        return Err(NotFound);
      }
      courses := courses - {id};
      r := Ok(());
    }
  }
}
