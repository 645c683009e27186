/** The service's documented usage examples, replayed against the ledger's contracts. */
module LedgerScenarios {
  import opened Optional
  import opened CourseRecord
  import opened GpaCalc
  import opened Ledger

  /**
   * On an empty ledger: the GPA query is not found, an add with zero credits, one
   * with the grade "A++" and one without a course name are each rejected.
   */
  method RejectionScenario() returns (empty: Result<real>, zero: Result<Course>,
                                      bad: Result<Course>, missing: Result<Course>)
    ensures empty == Err(NotFound)
    ensures zero == Err(InvalidCredits) && bad == Err(InvalidGrade) && missing == Err(MissingField)
  {
    var ledger := new CourseLedger();
    empty := ledger.QueryGpa("s1");
    zero := ledger.Add(NewCourse(Some("s1"), Some("Art"), Some("A"), Some(0.0)));
    bad := ledger.Add(NewCourse(Some("s1"), Some("Art"), Some("A++"), Some(3.0)));
    missing := ledger.Add(NewCourse(Some("s1"), None, Some("A"), Some(3.0)));
  }

  /** Two courses for student "s1", A with 3 credits and B- with 4, give the GPA 22.8 / 7. */
  method TwoCourseScenario() returns (gpa: Result<real>)
    ensures gpa == Ok(22.8 / 7.0)
  {
    var ledger := new CourseLedger();
    var r1 := ledger.Add(NewCourse(Some("s1"), Some("Algorithms"), Some("A"), Some(3.0)));
    var r2 := ledger.Add(NewCourse(Some("s1"), Some("History"), Some("B-"), Some(4.0)));
    var c1, c2 := r1.value, r2.value;
    var list := ledger.ListByStudent("s1");
    assert c1 in list && c2 in list;
    assert forall c :: c in list ==> c == c1 || c == c2;
    ListOfTwo(list, c1, c2);
    ScenarioGpa(c1, c2);
    GpaReorder(list, [c1, c2]);
    gpa := ledger.QueryGpa("s1");
  }

  /**
   * A strictly id-ordered list whose elements are exactly two records with
   * different ids holds those two, in some order.
   */
  lemma ListOfTwo(list: seq<Course>, c1: Course, c2: Course)
    requires c1.id != c2.id
    requires c1 in list && c2 in list
    requires forall c :: c in list ==> c == c1 || c == c2
    requires forall i, j :: 0 <= i < j < |list| ==> list[i].id < list[j].id
    ensures multiset(list) == multiset([c1, c2])
  {
    if c1.id < c2.id {
      ListOfTwoOrdered(list, c1, c2);
    } else {
      ListOfTwoOrdered(list, c2, c1);
      assert multiset([c2, c1]) == multiset([c1, c2]);
    }
  }

  /** A strictly id-ordered list whose elements are exactly two records is those two in id order. */
  lemma ListOfTwoOrdered(list: seq<Course>, c1: Course, c2: Course)
    requires c1.id < c2.id
    requires c1 in list && c2 in list
    requires forall c :: c in list ==> c == c1 || c == c2
    requires forall i, j :: 0 <= i < j < |list| ==> list[i].id < list[j].id
    ensures list == [c1, c2]
  {
    var i :| 0 <= i < |list| && list[i] == c1;
    var j :| 0 <= j < |list| && list[j] == c2;
    assert list[0] in list && list[|list| - 1] in list;
    assert i == 0 && j == |list| - 1;
    assert list[1] in list;
    assert |list| == 2;
  }
}
