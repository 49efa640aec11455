/**
 * The registration page (src/Registration/Components/HeroDash.jsx): a table of the
 * offered courses with a checkbox each, the selected list with its credit total and
 * printable bill, and the "Done" button. All changes go through the course store.
 */
module Registration {
  import opened Wrappers
  import opened Text
  import opened CourseStore

  /** The courses every student takes; shown, never selectable. */
  const MandatoryCourses: seq<Course> := [
    Course("CSE101", "Intro to Programming", 3),
    Course("MAT101", "Calculus I", 3)
  ]

  /** The table of selectable courses. */
  const AvailableCourses: seq<Course> := [
    Course("CSE201", "Data Structures", 3),
    Course("CSE202", "Algorithms", 3),
    Course("CSE203", "Database Systems", 3),
    Course("CSE204", "Operating Systems", 3),
    Course("CSE205", "Computer Networks", 3),
    Course("CSE206", "Artificial Intelligence", 3),
    Course("CSE207", "Machine Learning", 3)
  ]

  /** `selectedCourses.reduce((acc, c) => acc + c.credit, 0)`, folding from the left. */
  function TotalCredits(s: seq<Course>): int
  {
    if s == [] then 0 else TotalCredits(s[..|s| - 1]) + s[|s| - 1].credit
  }

  /** The total over a concatenation is the sum of the totals. */
  lemma {:induction false} TotalCreditsAppend(a: seq<Course>, b: seq<Course>)
    ensures TotalCredits(a + b) == TotalCredits(a) + TotalCredits(b)
  {
    if b == [] {
      assert a + b == a;
    } else {
      assert (a + b)[..|a + b| - 1] == a + b[..|b| - 1];
      TotalCreditsAppend(a, b[..|b| - 1]);
    }
  }

  /** Every offered course has its own id and is worth 3 credits. */
  lemma AvailableCoursesShape()
    ensures UniqueIds(AvailableCourses)
    ensures forall i :: 0 <= i < |AvailableCourses| ==> AvailableCourses[i].credit == 3
  {
  }

  /** A selection made from the table is worth 3 credits per course, 0 when empty. */
  lemma {:induction false} TotalCreditsFromTable(s: seq<Course>)
    requires forall i :: 0 <= i < |s| ==> s[i] in AvailableCourses
    ensures TotalCredits(s) == 3 * |s|
  {
    if s != [] {
      TotalCreditsFromTable(s[..|s| - 1]);
      var k :| 0 <= k < |AvailableCourses| && AvailableCourses[k] == s[|s| - 1];
      AvailableCoursesShape();
    }
  }

  /** The `checked` state of the checkbox in `course`'s row. */
  predicate IsChecked(selected: seq<Course>, course: Course)
  {
    HasId(selected, course.id)
  }

  /**
   * Clicking a row's checkbox flips that row and no row with another id: the
   * checkbox mirrors the store.
   */
  lemma ToggleFlipsCheckbox(s: seq<Course>, course: Course, other: Course)
    ensures IsChecked(Toggled(s, course), course) <==> !IsChecked(s, course)
    ensures other.id != course.id ==>
      (IsChecked(Toggled(s, course), other) <==> IsChecked(s, other))
  {
    if HasId(s, course.id) {
      if other.id != course.id && IsChecked(s, other) {
        var i :| 0 <= i < |s| && s[i].id == other.id;
        assert s[i] in WithoutId(s, course.id);
      }
    } else {
      ToggleAbsent(s, course);
      if IsChecked(s, other) {
        var i :| 0 <= i < |s| && s[i].id == other.id;
        assert (s + [course])[i] == s[i];
      }
    }
  }

  /** One bill line: `"<id> - <name>"`. */
  function BillLine(c: Course): string
  {
    c.id + " - " + c.name
  }

  function BillLines(s: seq<Course>): (lines: seq<string>)
    ensures |lines| == |s|
    ensures forall i :: 0 <= i < |s| ==> lines[i] == BillLine(s[i])
  {
    seq(|s|, i requires 0 <= i < |s| => BillLine(s[i]))
  }

  const BillHeader: string := "Bill Printed!\n\nSelected Courses:\n"
  const BillFooter: string := "\n\nTotal Credits: "

  /** The listing of the bill: the bill lines joined by line breaks. */
  function Listing(s: seq<Course>): string
  {
    Join(BillLines(s), "\n")
  }

  /** The text `handlePrintBill` shows. */
  function BillText(s: seq<Course>): string
  {
    BillHeader + Listing(s) + BillFooter + IntToString(TotalCredits(s))
  }

  /** Neither the id nor the name of `c` holds a line break. */
  predicate SingleLine(c: Course)
  {
    '\n' !in c.id && '\n' !in c.name
  }

  /**
   * A non-empty selection is listed one line per selected course: the listing has one
   * line break fewer than there are courses.
   */
  lemma ListingLineCount(s: seq<Course>)
    requires |s| > 0
    requires forall i :: 0 <= i < |s| ==> SingleLine(s[i])
    ensures Count('\n', Listing(s)) == |s| - 1
  {
    var lines := BillLines(s);
    forall i | 0 <= i < |lines| ensures '\n' !in lines[i] {
      assert lines[i] == s[i].id + " - " + s[i].name;
    }
    JoinLineCount(lines);
  }

  /** The listing follows the selection's order: a course selected last is listed last. */
  lemma ListingAppend(s: seq<Course>, c: Course)
    requires |s| > 0
    ensures Listing(s + [c]) == Listing(s) + "\n" + BillLine(c)
  {
    assert BillLines(s + [c]) == BillLines(s) + [BillLine(c)];
    JoinAppend(BillLines(s), BillLine(c), "\n");
  }

  /** The bill is its header, then the listing, then the footer and the credit total. */
  lemma BillTextLayout(s: seq<Course>)
    ensures var text := BillText(s);
      text[..|BillHeader|] == BillHeader
      && text[|BillHeader|..|BillHeader| + |Listing(s)|] == Listing(s)
  {
    Segments(BillHeader, Listing(s), BillFooter, IntToString(TotalCredits(s)), "");
    assert BillText(s) == BillHeader + Listing(s) + BillFooter + IntToString(TotalCredits(s)) + "";
  }

  /** The bill ends with the credit total, which reads back as that number. */
  lemma BillTextEndsWithTotal(s: seq<Course>)
    ensures var text := BillText(s); var total := IntToString(TotalCredits(s));
      |total| <= |text| && ParseNumber(text[|text| - |total|..]) == Some(TotalCredits(s))
  {
    var text := BillText(s);
    var total := IntToString(TotalCredits(s));
    assert text[|text| - |total|..] == total;
    ParseNumberOfIntToString(TotalCredits(s));
  }

  /** A row's checkbox and the "Remove" button both toggle the course in the store. */
  method ToggleCourse(store: CourseProvider, course: Course)
    requires store.Valid()
    modifies store
    ensures store.Valid()
    ensures store.selectedCourses == Toggled(old(store.selectedCourses), course)
    ensures store.enrolledCourses == old(store.enrolledCourses)
  {
    store.ToggleCourseSelection(course);
  }

  /** `handleDone`: commits the selection to the enrollment. */
  method HandleDone(store: CourseProvider)
    requires store.Valid()
    modifies store
    ensures store.Valid()
    ensures store.enrolledCourses == old(store.selectedCourses)
    ensures store.selectedCourses == []
  {
    store.EnrollInCourses();
  }
}
