/** The stored course record and the validity every stored record keeps. */
module CourseRecord {
  import opened GradePolicy

  /** One row of the course table (gpa_calculator.py:23-28); `to_dict` is this record itself. */
  datatype Course = Course(id: nat, studentId: string, courseName: string, grade: string, credits: real)

  /** What validation guarantees of a record: a grade in the policy and positive credits. */
  predicate ValidRecord(c: Course) {
    IsGrade(c.grade) && c.credits > 0.0
  }
}
