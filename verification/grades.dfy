/**
 * Grade bookkeeping of `objects_and_classes/src.py`: people hold a map from
 * course name to the list of grades received in it; students rate lectures,
 * reviewers rate homework, and the average grade of a course is taken over a
 * group of people.
 *
 * Python's class hierarchy (`Student` and `Mentor` derive from `Person`,
 * `Lecturer` and `Reviewer` from `Mentor`) is modelled by composition: each
 * role object owns the `Person` that carries its name and grades.
 */
module Grades {
  import opened Wrappers

  /** What a refused rating returns. */
  const ErrorMarker: string := "Ошибка"

  /** Course name to the grades received in it, oldest first. */
  type GradeBook = map<string, seq<int>>

  /** `grades` after one more `grade` in `course`: appended to the course's
      list, or a new list holding only it. */
  function WithGrade(grades: GradeBook, course: string, grade: int): GradeBook {
    if course in grades then grades[course := grades[course] + [grade]]
    else grades[course := [grade]]
  }

  /** One grade adds exactly one entry at the end of its course's list, and
      touches no other course. */
  lemma WithGradeAppends(grades: GradeBook, course: string, grade: int)
    ensures WithGrade(grades, course, grade).Keys == grades.Keys + {course}
    ensures var before := if course in grades then grades[course] else [];
            var after := WithGrade(grades, course, grade)[course];
            |after| == |before| + 1 && after[..|before|] == before && after[|before|] == grade
    ensures forall c | c in grades && c != course :: WithGrade(grades, course, grade)[c] == grades[c]
  {
    var before := if course in grades then grades[course] else [];
    assert WithGrade(grades, course, grade)[course] == before + [grade];
  }

  /** A person: a name, a surname and the grades received. */
  class Person {
    var name: string
    var surname: string
    var grades: GradeBook

    /** A new person starts with one placeholder course `""` holding the
        grade 0. */
    constructor (name: string, surname: string)
      ensures this.name == name && this.surname == surname
      ensures grades == map["" := [0]]
    {
      this.name := name;
      this.surname := surname;
      grades := map["" := [0]];
    }
  }

  /** A lecturer: a mentor whose initial grades are given. */
  class Lecturer {
    const person: Person
    var coursesAttached: set<string>

    constructor (name: string, surname: string, grades: GradeBook)
      ensures fresh(person)
      ensures person.name == name && person.surname == surname && person.grades == grades
      ensures coursesAttached == {}
    {
      var p := new Person(name, surname);
      p.grades := grades;
      person := p;
      coursesAttached := {};
    }
  }

  /** A student: the courses finished and in progress, and the homework
      grades, which the constructor takes as given. */
  class Student {
    const person: Person
    var finishedCourses: set<string>
    var coursesInProgress: set<string>

    constructor (name: string, surname: string, grades: GradeBook)
      ensures fresh(person)
      ensures person.name == name && person.surname == surname && person.grades == grades
      ensures finishedCourses == {} && coursesInProgress == {}
    {
      var p := new Person(name, surname);
      p.grades := grades;
      person := p;
      finishedCourses := {};
      coursesInProgress := {};
    }

    /** `rate_lecture`: a student may grade a lecturer on a course that the
        student is taking and the lecturer teaches. Otherwise nothing changes
        and the error marker comes back. */
    method RateLecture(lecturer: Lecturer, course: string, grade: int) returns (error: Option<string>)
      modifies lecturer.person`grades
      ensures error.None? <==> course in coursesInProgress && course in lecturer.coursesAttached
      ensures error.Some? ==> error.value == ErrorMarker && lecturer.person.grades == old(lecturer.person.grades)
      ensures error.None? ==> lecturer.person.grades == WithGrade(old(lecturer.person.grades), course, grade)
    {
      if course in coursesInProgress && course in lecturer.coursesAttached {
        if course in lecturer.person.grades {
          lecturer.person.grades := lecturer.person.grades[course := lecturer.person.grades[course] + [grade]];
        } else {
          lecturer.person.grades := lecturer.person.grades[course := [grade]];
        }
        return None;
      }
      return Some(ErrorMarker);
    }
  }

  /** A reviewer: a mentor with the placeholder grades of a new person. */
  class Reviewer {
    const person: Person
    var coursesAttached: set<string>

    constructor (name: string, surname: string)
      ensures fresh(person)
      ensures person.name == name && person.surname == surname && person.grades == map["" := [0]]
      ensures coursesAttached == {}
    {
      person := new Person(name, surname);
      coursesAttached := {};
    }

    /** `rate_hw`: a reviewer may grade the homework of a student on a course
        that the reviewer is attached to and the student is taking.
        Otherwise nothing changes and the error marker comes back. */
    method RateHw(student: Student, course: string, grade: int) returns (error: Option<string>)
      modifies student.person`grades
      ensures error.None? <==> course in coursesAttached && course in student.coursesInProgress
      ensures error.Some? ==> error.value == ErrorMarker && student.person.grades == old(student.person.grades)
      ensures error.None? ==> student.person.grades == WithGrade(old(student.person.grades), course, grade)
    {
      if course in coursesAttached && course in student.coursesInProgress {
        if course in student.person.grades {
          student.person.grades := student.person.grades[course := student.person.grades[course] + [grade]];
        } else {
          student.person.grades := student.person.grades[course := [grade]];
        }
        return None;
      }
      return Some(ErrorMarker);
    }
  }

  /** Python's `sum` over a list of integers. */
  function Sum(xs: seq<int>): int {
    if xs == [] then 0 else Sum(xs[..|xs| - 1]) + xs[|xs| - 1]
  }

  /** The grades of `course` in one grade book, empty when it has none. */
  function CourseGrades(book: GradeBook, course: string): seq<int> {
    if course in book then book[course] else []
  }

  /** The sum of every grade of `course` over the grade books. */
  function CourseSum(books: seq<GradeBook>, course: string): int {
    if books == [] then 0
    else CourseSum(books[..|books| - 1], course) + Sum(CourseGrades(books[|books| - 1], course))
  }

  /** The number of grades of `course` over the grade books. */
  function CourseCount(books: seq<GradeBook>, course: string): nat {
    if books == [] then 0
    else CourseCount(books[..|books| - 1], course) + |CourseGrades(books[|books| - 1], course)|
  }

  /** The grade books of `persons`, in order. */
  function GradeBooks(persons: seq<Person>): (books: seq<GradeBook>)
    reads persons
    ensures |books| == |persons|
    ensures forall i | 0 <= i < |persons| :: books[i] == persons[i].grades
  {
    if persons == [] then []
    else GradeBooks(persons[..|persons| - 1]) + [persons[|persons| - 1].grades]
  }

  /** The exact mean `sum / count`, or 0 when there is nothing to average. */
  function Average(sum: int, count: nat): real {
    if count == 0 then 0.0 else sum as real / count as real
  }

  /** `calculate_avg_work_grade`: add up the grades and their number over
      every person that has grades in `course`, then divide. The final
      rounding to six decimals is not modelled: the result is the exact
      quotient. */
  method CalculateAvgWorkGrade(persons: seq<Person>, course: string) returns (average: real)
    ensures average == Average(CourseSum(GradeBooks(persons), course), CourseCount(GradeBooks(persons), course))
  {
    var totalSum := 0;
    var totalCount := 0;
    ghost var books := GradeBooks(persons);
    for k := 0 to |persons|
      invariant totalSum == CourseSum(books[..k], course)
      invariant totalCount == CourseCount(books[..k], course)
    {
      assert books[..k + 1][..k] == books[..k];
      if course in persons[k].grades {
        var work := persons[k].grades[course];
        var workSum := 0;
        for w := 0 to |work|
          invariant workSum == Sum(work[..w])
        {
          assert work[..w + 1][..w] == work[..w];
          workSum := workSum + work[w];
        }
        assert work[..|work|] == work;
        totalSum := totalSum + workSum;
        totalCount := totalCount + |work|;
      }
    }
    assert books[..|persons|] == books;
    if totalCount > 0 {
      average := totalSum as real / totalCount as real;
    } else {
      average := 0.0;
    }
  }

  /** Rating one person's grade book in `course` adds the grade to that
      course's sum and one to its count. */
  lemma {:induction false} RatingAddsToCourse(books: seq<GradeBook>, i: nat, course: string, grade: int)
    requires i < |books|
    ensures var rated := books[i := WithGrade(books[i], course, grade)];
            CourseSum(rated, course) == CourseSum(books, course) + grade &&
            CourseCount(rated, course) == CourseCount(books, course) + 1
  {
    var rated := books[i := WithGrade(books[i], course, grade)];
    var n := |books| - 1;
    if i == n {
      assert rated[..n] == books[..n];
      var before := CourseGrades(books[n], course);
      assert CourseGrades(rated[n], course) == before + [grade];
      assert (before + [grade])[..|before|] == before;
    } else {
      assert rated[..n] == books[..n][i := WithGrade(books[i], course, grade)];
      assert rated[n] == books[n];
      RatingAddsToCourse(books[..n], i, course, grade);
    }
  }

  /** Rating a grade book in one course leaves the sum and count of every
      other course as they were. */
  lemma {:induction false} RatingKeepsOtherCourses(books: seq<GradeBook>, i: nat, course: string, grade: int, other: string)
    requires i < |books| && other != course
    ensures var rated := books[i := WithGrade(books[i], course, grade)];
            CourseSum(rated, other) == CourseSum(books, other) &&
            CourseCount(rated, other) == CourseCount(books, other)
  {
    var rated := books[i := WithGrade(books[i], course, grade)];
    var n := |books| - 1;
    if i == n {
      assert rated[..n] == books[..n];
      assert CourseGrades(rated[n], other) == CourseGrades(books[n], other);
    } else {
      assert rated[..n] == books[..n][i := WithGrade(books[i], course, grade)];
      assert rated[n] == books[n];
      RatingKeepsOtherCourses(books[..n], i, course, grade, other);
    }
  }

  /** Grades bounded by `lo` and `hi` sum to between `lo` and `hi` times
      their number. */
  lemma {:induction false} SumBounds(xs: seq<int>, lo: int, hi: int)
    requires forall j | 0 <= j < |xs| :: lo <= xs[j] <= hi
    ensures lo * |xs| <= Sum(xs) <= hi * |xs|
  {
    if xs != [] {
      var m := |xs| - 1;
      SumBounds(xs[..m], lo, hi);
      assert lo * |xs| == lo * m + lo;
      assert hi * |xs| == hi * m + hi;
    }
  }

  /** Every grade of `course` in the grade books lies between `lo` and `hi`. */
  predicate GradesWithin(books: seq<GradeBook>, course: string, lo: int, hi: int) {
    forall k | 0 <= k < |books| :: forall j | 0 <= j < |CourseGrades(books[k], course)| ::
      lo <= CourseGrades(books[k], course)[j] <= hi
  }

  lemma {:induction false} CourseSumBounds(books: seq<GradeBook>, course: string, lo: int, hi: int)
    requires GradesWithin(books, course, lo, hi)
    ensures lo * CourseCount(books, course) <= CourseSum(books, course) <= hi * CourseCount(books, course)
  {
    if books != [] {
      var n := |books| - 1;
      var last := CourseGrades(books[n], course);
      assert GradesWithin(books[..n], course, lo, hi) by {
        forall k | 0 <= k < n ensures books[..n][k] == books[k] { }
      }
      assert forall j | 0 <= j < |last| :: lo <= last[j] <= hi;
      CourseSumBounds(books[..n], course, lo, hi);
      SumBounds(last, lo, hi);
      AddBounds(lo, hi, CourseCount(books[..n], course), |last|, CourseSum(books[..n], course), Sum(last));
    }
  }

  /** Bounds proportional to two counts add up. */
  lemma AddBounds(lo: int, hi: int, a: int, b: int, x: int, y: int)
    requires lo * a <= x <= hi * a && lo * b <= y <= hi * b
    ensures lo * (a + b) <= x + y <= hi * (a + b)
  {
    assert lo * (a + b) == lo * a + lo * b;
    assert hi * (a + b) == hi * a + hi * b;
  }

  /** The average of grades that all lie between `lo` and `hi` lies between
      them too, when there is at least one grade. */
  lemma AverageWithin(books: seq<GradeBook>, course: string, lo: int, hi: int)
    requires GradesWithin(books, course, lo, hi)
    requires CourseCount(books, course) > 0
    ensures lo as real <= Average(CourseSum(books, course), CourseCount(books, course)) <= hi as real
  {
    var sum, count := CourseSum(books, course), CourseCount(books, course);
    CourseSumBounds(books, course, lo, hi);
    QuotientWithin(sum, count, lo, hi);
  }

  /** Integer bounds on a sum carry over to the exact quotient. */
  lemma QuotientWithin(sum: int, count: int, lo: int, hi: int)
    requires count > 0 && lo * count <= sum <= hi * count
    ensures lo as real <= sum as real / count as real <= hi as real
  {
    var q := sum as real / count as real;
    assert q * count as real == sum as real;
    assert (lo * count) as real == lo as real * count as real;
    assert (hi * count) as real == hi as real * count as real;
  }

  /** Nobody with grades in `course` means an average of 0. */
  lemma {:induction false} NoGradesAverageZero(books: seq<GradeBook>, course: string)
    requires forall k | 0 <= k < |books| :: course !in books[k]
    ensures CourseCount(books, course) == 0
    ensures Average(CourseSum(books, course), CourseCount(books, course)) == 0.0
  {
    if books != [] {
      NoGradesAverageZero(books[..|books| - 1], course);
    }
  }
}
