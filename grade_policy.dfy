/**
 * The grade-points policy: a fixed table from the twelve letter grades of the
 * usual U.S. scale to their point values.
 */
module GradePolicy {

  /** The policy table (gpa_calculator.py:15-20). */
  const GradePoints: map<string, real> := map[
    "A+" := 4.0, "A" := 4.0, "A-" := 3.7,
    "B+" := 3.3, "B" := 3.0, "B-" := 2.7,
    "C+" := 2.3, "C" := 2.0, "C-" := 1.7,
    "D+" := 1.3, "D" := 1.0, "F" := 0.0
  ]

  /** The twelve letter grades the policy knows, written out independently of the table. */
  const Grades: set<string> := {"A+", "A", "A-", "B+", "B", "B-", "C+", "C", "C-", "D+", "D", "F"}

  /** A grade the validator accepts: a key of the table. */
  predicate IsGrade(g: string) {
    g in GradePoints
  }

  /**
   * The lookup the aggregator performs: the table's value for a known grade
   * and 0.0 for anything else.
   */
  function PointsOrZero(g: string): (p: real)
    ensures IsGrade(g) ==> p == GradePoints[g]
    ensures !IsGrade(g) ==> p == 0.0
    ensures 0.0 <= p <= 4.0
  {
    if g in GradePoints then GradePoints[g] else 0.0
  }

  /** The table holds exactly the twelve grades. */
  lemma PolicyDomain()
    ensures GradePoints.Keys == Grades
  {
  }

  /** The fixed values the policy documents at its top and bottom, and B- as a sample in between. */
  lemma PolicyAnchors()
    ensures GradePoints["A+"] == GradePoints["A"] == 4.0
    ensures GradePoints["B-"] == 2.7
    ensures GradePoints["F"] == 0.0
  {
  }

  /** Every value in the table lies between 0.0 and 4.0. */
  lemma PolicyBounds()
    ensures forall g :: g in GradePoints ==> 0.0 <= GradePoints[g] <= 4.0
  {
  }

  /** The table is ordered with the letters: a higher grade never earns fewer points. */
  lemma PolicyMonotone()
    ensures GradePoints["A+"] >= GradePoints["A"] >= GradePoints["A-"] >= GradePoints["B+"]
            >= GradePoints["B"] >= GradePoints["B-"] >= GradePoints["C+"] >= GradePoints["C"]
            >= GradePoints["C-"] >= GradePoints["D+"] >= GradePoints["D"] >= GradePoints["F"]
  {
  }
}
