/**
 * GPA aggregation: the credit-weighted average of grade points over a list of
 * course records, with 0.0 when the credit total is not positive.  Credits and
 * points are exact reals, so the quotient is exact.
 */
module GpaCalc {
  import opened GradePolicy
  import opened CourseRecord

  /** What one record contributes to the points total: its grade's points times its credits. */
  function WeightedPoints(c: Course): real {
    PointsOrZero(c.grade) * c.credits
  }

  /** Sum of weighted points, accumulated front to back as the loop does. */
  function TotalPoints(cs: seq<Course>): real {
    if cs == [] then 0.0 else TotalPoints(cs[..|cs| - 1]) + WeightedPoints(cs[|cs| - 1])
  }

  /** Sum of credits, accumulated front to back. */
  function TotalCredits(cs: seq<Course>): real {
    if cs == [] then 0.0 else TotalCredits(cs[..|cs| - 1]) + cs[|cs| - 1].credits
  }

  /** The GPA the aggregator promises, before rounding. */
  function Gpa(cs: seq<Course>): (g: real)
    ensures TotalCredits(cs) > 0.0 ==> g * TotalCredits(cs) == TotalPoints(cs)
    ensures TotalCredits(cs) <= 0.0 ==> g == 0.0
  {
    if TotalCredits(cs) > 0.0 then TotalPoints(cs) / TotalCredits(cs) else 0.0
  }

  /** `calculate_gpa` (gpa_calculator.py:44-50): one pass with two accumulators. */
  method CalculateGpa(courses: seq<Course>) returns (gpa: real)
    ensures gpa == Gpa(courses)
  {
    var totalPoints := 0.0;
    var totalCredits := 0.0;
    for i := 0 to |courses|
      invariant totalPoints == TotalPoints(courses[..i])
      invariant totalCredits == TotalCredits(courses[..i])
    {
      assert courses[..i + 1][..i] == courses[..i];
      totalPoints := totalPoints + PointsOrZero(courses[i].grade) * courses[i].credits;
      totalCredits := totalCredits + courses[i].credits;
    }
    assert courses[..|courses|] == courses;
    gpa := if totalCredits > 0.0 then totalPoints / totalCredits else 0.0;
  }

  /** With no records there is nothing to average: the GPA is 0.0. */
  lemma GpaOfEmpty()
    ensures Gpa([]) == 0.0
  {
  }

  /** Both totals split over a concatenation. */
  lemma {:induction false} TotalsAppend(a: seq<Course>, b: seq<Course>)
    ensures TotalPoints(a + b) == TotalPoints(a) + TotalPoints(b)
    ensures TotalCredits(a + b) == TotalCredits(a) + TotalCredits(b)
    decreases |b|
  {
    if b == [] {
      assert a + b == a;
    } else {
      var b' := b[..|b| - 1];
      assert (a + b)[..|a + b| - 1] == a + b';
      TotalsAppend(a, b');
    }
  }

  /** Both totals are the same for any reordering of the records. */
  lemma {:induction false} TotalsReorder(a: seq<Course>, b: seq<Course>)
    requires multiset(a) == multiset(b)
    ensures TotalPoints(a) == TotalPoints(b)
    ensures TotalCredits(a) == TotalCredits(b)
    decreases |a|
  {
    if a == [] {
      assert |b| == |multiset(b)| == 0;
    } else {
      var x := a[|a| - 1];
      var a' := a[..|a| - 1];
      assert a == a' + [x];
      assert multiset(a) == multiset(a') + multiset{x};
      assert x in multiset(b);
      var i :| 0 <= i < |b| && b[i] == x;
      var b' := b[..i] + b[i + 1..];
      assert b == b[..i] + [x] + b[i + 1..];
      assert multiset(b) == multiset(b[..i]) + multiset{x} + multiset(b[i + 1..]);
      assert multiset(b') == multiset(b[..i]) + multiset(b[i + 1..]);
      assert multiset(b') == multiset(b) - multiset{x};
      assert multiset(a') == multiset(a) - multiset{x};
      TotalsReorder(a', b');
      TotalsAppend(b[..i], [x]);
      TotalsAppend(b[..i] + [x], b[i + 1..]);
      TotalsAppend(b[..i], b[i + 1..]);
      assert TotalPoints([x]) == WeightedPoints(x) by { assert [x][..0] == []; }
      assert TotalCredits([x]) == x.credits by { assert [x][..0] == []; }
    }
  }

  /** The GPA does not depend on the order of the records. */
  lemma GpaReorder(a: seq<Course>, b: seq<Course>)
    requires multiset(a) == multiset(b)
    ensures Gpa(a) == Gpa(b)
  {
    TotalsReorder(a, b);
  }

  /**
   * On valid records both totals are bounded: credits are positive when there is
   * a record, and the points never exceed four per credit.
   */
  lemma {:induction false} TotalsBounds(cs: seq<Course>)
    requires forall i :: 0 <= i < |cs| ==> ValidRecord(cs[i])
    ensures cs != [] ==> TotalCredits(cs) > 0.0
    ensures 0.0 <= TotalPoints(cs) <= 4.0 * TotalCredits(cs)
  {
    if cs != [] {
      var cs' := cs[..|cs| - 1];
      var c := cs[|cs| - 1];
      assert forall i :: 0 <= i < |cs'| ==> cs'[i] == cs[i];
      TotalsBounds(cs');
      assert 0.0 <= WeightedPoints(c) <= 4.0 * c.credits;
    }
  }

  /** A product of two positive reals is positive. */
  lemma ProductPositive(x: real, y: real)
    requires x > 0.0 && y > 0.0
    ensures x * y > 0.0
  {
  }

  /** On valid records the GPA lies between 0.0 and 4.0. */
  lemma GpaBounds(cs: seq<Course>)
    requires forall i :: 0 <= i < |cs| ==> ValidRecord(cs[i])
    ensures 0.0 <= Gpa(cs) <= 4.0
  {
    TotalsBounds(cs);
    if cs != [] {
      var g, p, k := Gpa(cs), TotalPoints(cs), TotalCredits(cs);
      assert g * k == p && 0.0 <= p <= 4.0 * k && k > 0.0;
      if g > 4.0 {
        ProductPositive(g - 4.0, k);
        assert false;
      }
      if g < 0.0 {
        ProductPositive(0.0 - g, k);
        assert false;
      }
    }
  }

  /** The weighted sum as the policy defines it, over records whose grades are all known. */
  function PolicyPoints(cs: seq<Course>): real
    requires forall i :: 0 <= i < |cs| ==> IsGrade(cs[i].grade)
  {
    if cs == [] then 0.0
    else
      var c := cs[|cs| - 1];
      assert IsGrade(c.grade);
      PolicyPoints(cs[..|cs| - 1]) + GradePoints[c.grade] * c.credits
  }

  /** On records with known grades the 0.0 fallback of the lookup never contributes. */
  lemma {:induction false} FallbackUnused(cs: seq<Course>)
    requires forall i :: 0 <= i < |cs| ==> IsGrade(cs[i].grade)
    ensures TotalPoints(cs) == PolicyPoints(cs)
  {
    if cs != [] {
      var cs' := cs[..|cs| - 1];
      assert forall i :: 0 <= i < |cs'| ==> cs'[i] == cs[i];
      FallbackUnused(cs');
    }
  }

  /**
   * The two-course example: A with 3 credits and B- with 4 give 22.8 / 7, which
   * rounds to 3.26; the other fields of the records play no part.
   */
  lemma ScenarioGpa(c1: Course, c2: Course)
    requires c1.grade == "A" && c1.credits == 3.0
    requires c2.grade == "B-" && c2.credits == 4.0
    ensures Gpa([c1, c2]) == 22.8 / 7.0
    ensures 3.255 <= Gpa([c1, c2]) < 3.265
  {
    assert [c1, c2][..1] == [c1];
    assert [c1][..0] == [];
    assert TotalPoints([c1]) == 12.0 && TotalCredits([c1]) == 3.0;
    assert TotalPoints([c1, c2]) == 22.8 && TotalCredits([c1, c2]) == 7.0;
  }
}
