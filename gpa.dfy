/**
 * The GPA calculator: an editable list of courses (name, letter grade,
 * credits as typed), a 4.0 or 5.0 grade scale, and the credit-weighted
 * grade point average of the courses that can be counted.
 */
module GpaCalculator {
  import opened Common
  import opened JsMath

  datatype Course = Course(id: int, name: string, grade: string, credits: string)

  /** The two grade scales of the scale selector ("4.0" and "5.0"). */
  datatype Scale = Four | Five

  /** The field of a course the inputs edit. */
  datatype Field = Name | Grade | Credits

  /** The letter grades, in the order of the grade selector. */
  const Grades: seq<string> := ["A+", "A", "A-", "B+", "B", "B-", "C+", "C", "C-", "D+", "D", "D-", "F"]

  /** A table of (grade, points) entries, as an object literal lists them. */
  type PointTable = seq<(string, real)>

  /** The "4.0" table, from "A+" down to "F". */
  const FourPointTable: PointTable :=
    [("A+", 4.0), ("A", 4.0), ("A-", 3.7), ("B+", 3.3), ("B", 3.0), ("B-", 2.7), ("C+", 2.3),
     ("C", 2.0), ("C-", 1.7), ("D+", 1.3), ("D", 1.0), ("D-", 0.7), ("F", 0.0)]

  /** The "5.0" table: the same entries but 5.0 for "A+". */
  const FivePointTable: PointTable := [("A+", 5.0)] + FourPointTable[1..]

  function Table(scale: Scale): PointTable
  {
    if scale == Four then FourPointTable else FivePointTable
  }

  /** The points a table gives a grade; None for a grade it does not list. */
  function Lookup(table: PointTable, grade: string): Option<real>
  {
    if table == [] then None
    else if table[0].0 == grade then Some(table[0].1)
    else Lookup(table[1..], grade)
  }

  /** The lookup gradePoints[scale][grade]. */
  function GradePoints(scale: Scale, grade: string): Option<real>
  {
    Lookup(Table(scale), grade)
  }

  function MaxPoints(scale: Scale): real
  {
    if scale == Four then 4.0 else 5.0
  }

  /** A lookup finds exactly the listed grades. */
  lemma {:induction false} LookupKeys(table: PointTable, grade: string)
    ensures Lookup(table, grade).Some? <==> exists i :: 0 <= i < |table| && table[i].0 == grade
  {
    if table != [] {
      LookupKeys(table[1..], grade);
      if table[0].0 != grade {
        assert forall i :: 0 < i < |table| ==> table[i] == table[1..][i - 1];
      }
    }
  }

  /** A lookup returns one of the table's point values, so any bound on them all. */
  lemma {:induction false} LookupBound(table: PointTable, grade: string, hi: real)
    requires forall i :: 0 <= i < |table| ==> 0.0 <= table[i].1 <= hi
    ensures Lookup(table, grade).Some? ==> 0.0 <= Lookup(table, grade).value <= hi
  {
    if table != [] && table[0].0 != grade {
      assert forall i :: 0 <= i < |table[1..]| ==> table[1..][i] == table[i + 1];
      LookupBound(table[1..], grade, hi);
    }
  }

  /**
   * The table has exactly the thirteen letter grades; the scales agree on every
   * grade but A+, and every grade is worth 0 to the scale's maximum.
   */
  lemma GradeTable(grade: string)
    ensures forall s: Scale :: GradePoints(s, grade).Some? <==> grade in Grades
    ensures GradePoints(Four, grade) != GradePoints(Five, grade) <==> grade == "A+"
    ensures GradePoints(Four, "A+") == Some(4.0) && GradePoints(Five, "A+") == Some(5.0)
    ensures forall s: Scale :: GradePoints(s, grade).Some? ==>
      0.0 <= GradePoints(s, grade).value <= MaxPoints(s)
  {
    TableLetters();
    LookupKeys(FourPointTable, grade);
    LookupKeys(FivePointTable, grade);
    PointsInRange(Four, grade);
    PointsInRange(Five, grade);
    assert FivePointTable[1..] == FourPointTable[1..];
  }

  /** Both tables list the letter grades in order. */
  lemma TableLetters()
    ensures |FourPointTable| == |FivePointTable| == |Grades|
    ensures forall i :: 0 <= i < |Grades| ==> FourPointTable[i].0 == Grades[i] && FivePointTable[i].0 == Grades[i]
  {
  }

  /** Every grade a scale knows is worth 0 to the scale's maximum. */
  lemma PointsInRange(scale: Scale, grade: string)
    ensures GradePoints(scale, grade).Some? ==> 0.0 <= GradePoints(scale, grade).value <= MaxPoints(scale)
  {
    TableBounds(scale);
    LookupBound(Table(scale), grade, MaxPoints(scale));
  }

  lemma TableBounds(scale: Scale)
    ensures forall i :: 0 <= i < |Table(scale)| ==> 0.0 <= Table(scale)[i].1 <= MaxPoints(scale)
  {
  }

  /**
   * What one course adds to the totals, as (points * credits, credits): nothing
   * unless grade and credits are non-empty, the credits parse and the grade is
   * in the scale's table.
   */
  function Counted(course: Course, table: PointTable, parse: string -> Option<real>): Option<(real, real)>
  {
    if course.grade != "" && course.credits != ""
       && parse(course.credits).Some? && Lookup(table, course.grade).Some?
    then
      var credits := parse(course.credits).value;
      Some((Lookup(table, course.grade).value * credits, credits))
    else None
  }

  /** The sum of the counted points over the list. */
  function TotalPoints(courses: seq<Course>, table: PointTable, parse: string -> Option<real>): real
  {
    if courses == [] then 0.0
    else
      var last := Counted(courses[|courses| - 1], table, parse);
      TotalPoints(courses[..|courses| - 1], table, parse) + (if last.Some? then last.value.0 else 0.0)
  }

  /** The sum of the counted credits over the list. */
  function TotalCredits(courses: seq<Course>, table: PointTable, parse: string -> Option<real>): real
  {
    if courses == [] then 0.0
    else
      var last := Counted(courses[|courses| - 1], table, parse);
      TotalCredits(courses[..|courses| - 1], table, parse) + (if last.Some? then last.value.1 else 0.0)
  }

  /** The accumulation loop of the Calculate button, over the table of the chosen scale. */
  method Totals(courses: seq<Course>, table: PointTable, parse: string -> Option<real>)
    returns (totalPoints: real, totalCredits: real)
    ensures totalPoints == TotalPoints(courses, table, parse)
    ensures totalCredits == TotalCredits(courses, table, parse)
  {
    totalPoints, totalCredits := 0.0, 0.0;
    var i := 0;
    while i < |courses|
      invariant 0 <= i <= |courses|
      invariant totalPoints == TotalPoints(courses[..i], table, parse)
      invariant totalCredits == TotalCredits(courses[..i], table, parse)
    {
      var course := courses[i];
      TotalsStep(courses, i, table, parse);
      if course.grade != "" && course.credits != "" {
        var credits := parse(course.credits);
        var points := Lookup(table, course.grade);
        if credits.Some? && points.Some? {
          totalPoints := totalPoints + points.value * credits.value;
          totalCredits := totalCredits + credits.value;
        }
      }
      i := i + 1;
    }
    assert courses[..i] == courses;
  }

  /** The totals over the first i + 1 courses add course i's contribution to those over the first i. */
  lemma TotalsStep(courses: seq<Course>, i: nat, table: PointTable, parse: string -> Option<real>)
    requires i < |courses|
    ensures var last := Counted(courses[i], table, parse);
      && TotalPoints(courses[..i + 1], table, parse)
        == TotalPoints(courses[..i], table, parse) + (if last.Some? then last.value.0 else 0.0)
      && TotalCredits(courses[..i + 1], table, parse)
        == TotalCredits(courses[..i], table, parse) + (if last.Some? then last.value.1 else 0.0)
  {
    assert courses[..i + 1][..i] == courses[..i];
  }

  datatype GpaResult = GpaResult(gpa: real, totalCredits: real, totalPoints: real)

  /** The result: produced only when the counted credits are positive. */
  function Gpa(courses: seq<Course>, scale: Scale, parse: string -> Option<real>): (r: Option<GpaResult>)
    ensures r.Some? <==> TotalCredits(courses, Table(scale), parse) > 0.0
    ensures r.Some? ==>
      && r.value.totalCredits == TotalCredits(courses, Table(scale), parse)
      && r.value.totalPoints == TotalPoints(courses, Table(scale), parse)
      && r.value.gpa * r.value.totalCredits == r.value.totalPoints
  {
    var credits := TotalCredits(courses, Table(scale), parse);
    var points := TotalPoints(courses, Table(scale), parse);
    if credits > 0.0 then Some(GpaResult(points / credits, credits, points)) else None
  }

  /** Every course whose credits are counted has non-negative credits. */
  predicate NonNegativeCredits(courses: seq<Course>, table: PointTable, parse: string -> Option<real>)
  {
    forall i :: 0 <= i < |courses| && Counted(courses[i], table, parse).Some? ==>
      Counted(courses[i], table, parse).value.1 >= 0.0
  }

  lemma NonNegativeInit(courses: seq<Course>, table: PointTable, parse: string -> Option<real>)
    requires |courses| > 0 && NonNegativeCredits(courses, table, parse)
    ensures NonNegativeCredits(courses[..|courses| - 1], table, parse)
    ensures var last := Counted(courses[|courses| - 1], table, parse);
      last.Some? ==> last.value.1 >= 0.0
  {
    var init := courses[..|courses| - 1];
    forall i | 0 <= i < |init| ensures init[i] == courses[i] { }
  }

  /** With every point value in [0, m], the points are at most m times the credits. */
  lemma {:induction false} TotalsBound(courses: seq<Course>, table: PointTable, parse: string -> Option<real>, m: real)
    requires forall i :: 0 <= i < |table| ==> 0.0 <= table[i].1 <= m
    requires NonNegativeCredits(courses, table, parse)
    ensures 0.0 <= TotalPoints(courses, table, parse) <= m * TotalCredits(courses, table, parse)
    ensures 0.0 <= TotalCredits(courses, table, parse)
  {
    if courses != [] {
      var init := courses[..|courses| - 1];
      NonNegativeInit(courses, table, parse);
      TotalsBound(init, table, parse, m);
      LastCourseBound(courses[|courses| - 1], table, parse, m,
                      TotalPoints(init, table, parse), TotalCredits(init, table, parse));
    }
  }

  /** Adding the last course's contribution keeps both bounds. */
  lemma LastCourseBound(course: Course, table: PointTable, parse: string -> Option<real>, m: real,
                        points: real, credits: real)
    requires forall i :: 0 <= i < |table| ==> 0.0 <= table[i].1 <= m
    requires 0.0 <= points <= m * credits && 0.0 <= credits
    requires Counted(course, table, parse).Some? ==> Counted(course, table, parse).value.1 >= 0.0
    ensures var last := Counted(course, table, parse);
      && 0.0 <= points + (if last.Some? then last.value.0 else 0.0)
      && points + (if last.Some? then last.value.0 else 0.0) <= m * (credits + (if last.Some? then last.value.1 else 0.0))
      && 0.0 <= credits + (if last.Some? then last.value.1 else 0.0)
  {
    if Counted(course, table, parse).Some? {
      LookupBound(table, course.grade, m);
      StepBound(points, credits, Lookup(table, course.grade).value, parse(course.credits).value, m);
    }
  }

  /** One more course keeps the points between 0 and the maximum times the credits. */
  lemma StepBound(points: real, credits: real, p: real, c: real, m: real)
    requires 0.0 <= points <= m * credits && 0.0 <= p <= m && c >= 0.0
    ensures 0.0 <= points + p * c <= m * (credits + c)
  {
    MulMonotone(c, m, p);
    MulMonotone(c, p, 0.0);
    assert m * (credits + c) == m * credits + c * m;
    assert p * c == c * p;
  }

  lemma QuotientBound(p: real, c: real, m: real)
    requires c > 0.0 && 0.0 <= p <= m * c
    ensures 0.0 <= p / c <= m
  {
  }

  /** With non-negative credits, the average lies between 0 and the scale's maximum. */
  lemma GpaBounds(courses: seq<Course>, scale: Scale, parse: string -> Option<real>)
    requires NonNegativeCredits(courses, Table(scale), parse) && Gpa(courses, scale, parse).Some?
    ensures 0.0 <= Gpa(courses, scale, parse).value.gpa <= MaxPoints(scale)
  {
    TableBounds(scale);
    TotalsBound(courses, Table(scale), parse, MaxPoints(scale));
    QuotientBound(TotalPoints(courses, Table(scale), parse), TotalCredits(courses, Table(scale), parse), MaxPoints(scale));
  }

  /** The largest id of a non-empty list. */
  function MaxId(courses: seq<Course>): (r: int)
    requires |courses| > 0
    ensures forall i :: 0 <= i < |courses| ==> courses[i].id <= r
    ensures exists i :: 0 <= i < |courses| && courses[i].id == r
  {
    if |courses| == 1 then courses[0].id
    else
      var rest := MaxId(courses[1..]);
      assert forall i :: 1 <= i < |courses| ==> courses[i] == courses[1..][i - 1];
      if courses[0].id >= rest then courses[0].id else rest
  }

  /** The list without the courses with the given id, in the original order. */
  function RemoveId(courses: seq<Course>, id: int): (r: seq<Course>)
    ensures forall c :: c in r <==> c in courses && c.id != id
  {
    if courses == [] then []
    else if courses[0].id == id then RemoveId(courses[1..], id)
    else [courses[0]] + RemoveId(courses[1..], id)
  }

  predicate UniqueIds(courses: seq<Course>)
  {
    forall i, j :: 0 <= i < j < |courses| ==> courses[i].id != courses[j].id
  }

  /** The tail of a list with unique ids has unique ids, none of them the head's. */
  lemma UniqueTail(courses: seq<Course>)
    requires |courses| > 0 && UniqueIds(courses)
    ensures UniqueIds(courses[1..])
    ensures forall c :: c in courses[1..] ==> c.id != courses[0].id
  {
    var rest := courses[1..];
    forall i, j | 0 <= i < j < |rest| ensures rest[i].id != rest[j].id {
      assert rest[i] == courses[i + 1] && rest[j] == courses[j + 1];
    }
    forall c | c in rest ensures c.id != courses[0].id {
      var k :| 0 <= k < |rest| && rest[k] == c;
      assert courses[k + 1] == c;
    }
  }

  /** A course put in front of a list with unique ids it does not share keeps them unique. */
  lemma UniqueCons(c: Course, r: seq<Course>)
    requires UniqueIds(r) && forall x :: x in r ==> x.id != c.id
    ensures UniqueIds([c] + r)
  {
    var out := [c] + r;
    forall i, j | 0 <= i < j < |out| ensures out[i].id != out[j].id {
      assert out[j] == r[j - 1];
      if i > 0 {
        assert out[i] == r[i - 1];
      }
    }
  }

  /** With unique ids, removing one id removes at most one course. */
  lemma {:induction false} RemoveIdLength(courses: seq<Course>, id: int)
    requires UniqueIds(courses)
    ensures |RemoveId(courses, id)| >= |courses| - 1
    ensures UniqueIds(RemoveId(courses, id))
  {
    if courses != [] {
      UniqueTail(courses);
      RemoveIdLength(courses[1..], id);
      if courses[0].id == id {
        NoneRemoved(courses[1..], id);
      } else {
        UniqueCons(courses[0], RemoveId(courses[1..], id));
      }
    }
  }

  /** Removing an id no course has keeps the whole list. */
  lemma {:induction false} NoneRemoved(courses: seq<Course>, id: int)
    requires forall c :: c in courses ==> c.id != id
    ensures RemoveId(courses, id) == courses
  {
    if courses != [] {
      assert courses[0] in courses;
      assert forall c :: c in courses[1..] ==> c in courses;
      NoneRemoved(courses[1..], id);
    }
  }

  function SetField(course: Course, field: Field, value: string): Course
  {
    match field
    case Name => course.(name := value)
    case Grade => course.(grade := value)
    case Credits => course.(credits := value)
  }

  /** The list with the given field of the course(s) with the given id replaced. */
  function UpdateId(courses: seq<Course>, id: int, field: Field, value: string): (r: seq<Course>)
    ensures |r| == |courses|
    ensures forall i :: 0 <= i < |r| ==>
      r[i] == if courses[i].id == id then SetField(courses[i], field, value) else courses[i]
  {
    if courses == [] then []
    else
      var head := if courses[0].id == id then SetField(courses[0], field, value) else courses[0];
      [head] + UpdateId(courses[1..], id, field, value)
  }

  /** The page: the course list, the scale and the last result. */
  class GpaPage {
    var courses: seq<Course>
    var gradeScale: Scale
    var results: Option<GpaResult>

    /** The list is never empty and no two courses share an id. */
    predicate Valid()
      reads this
    {
      |courses| > 0 && UniqueIds(courses)
    }

    constructor ()
      ensures courses == [Course(1, "", "", "")] && gradeScale == Four && results == None
      ensures Valid()
    {
      courses := [Course(1, "", "", "")];
      gradeScale := Four;
      results := None;
    }

    /** "Add Course": an empty course with the next id after the largest. */
    method AddCourse()
      requires Valid()
      modifies this
      ensures Valid()
      ensures courses == old(courses) + [Course(MaxId(old(courses)) + 1, "", "", "")]
      ensures gradeScale == old(gradeScale) && results == old(results)
    {
      var newId := MaxId(courses) + 1;
      courses := courses + [Course(newId, "", "", "")];
    }

    /** The delete button; the last remaining course cannot be removed. */
    method RemoveCourse(id: int)
      requires Valid()
      modifies this
      ensures Valid()
      ensures courses == if |old(courses)| > 1 then RemoveId(old(courses), id) else old(courses)
      ensures gradeScale == old(gradeScale) && results == old(results)
    {
      if |courses| > 1 {
        RemoveIdLength(courses, id);
        courses := RemoveId(courses, id);
      }
    }

    /** Editing one input of one course. */
    method UpdateCourse(id: int, field: Field, value: string)
      requires Valid()
      modifies this
      ensures Valid()
      ensures courses == UpdateId(old(courses), id, field, value)
      ensures gradeScale == old(gradeScale) && results == old(results)
    {
      var updated := UpdateId(courses, id, field, value);
      assert forall i :: 0 <= i < |updated| ==> updated[i].id == courses[i].id;
      courses := updated;
    }

    /** The scale selector. */
    method SetGradeScale(scale: Scale)
      requires Valid()
      modifies this
      ensures Valid()
      ensures gradeScale == scale && courses == old(courses) && results == old(results)
    {
      gradeScale := scale;
    }

    /** The Calculate button; without positive counted credits nothing changes. */
    method CalculateGpa(parse: string -> Option<real>)
      requires Valid()
      modifies this
      ensures Valid()
      ensures courses == old(courses) && gradeScale == old(gradeScale)
      ensures Gpa(courses, gradeScale, parse).None? ==> results == old(results)
      ensures Gpa(courses, gradeScale, parse).Some? ==> results == Gpa(courses, gradeScale, parse)
    {
      var totalPoints, totalCredits := Totals(courses, Table(gradeScale), parse);
      if totalCredits > 0.0 {
        results := Some(GpaResult(totalPoints / totalCredits, totalCredits, totalPoints));
      }
    }
  }
}
