/**
 * The course selection/enrollment store (src/context/CourseContext.jsx): two ordered
 * lists of course entries, the tentative selection and the confirmed enrollment.
 */
module CourseStore {

  /** A course entry `{id, name, credit}` as the registration page hands it to the store. */
  datatype Course = Course(id: string, name: string, credit: int)

  /** `s.some(c => c.id === id)`. */
  predicate HasId(s: seq<Course>, id: string)
  {
    exists i :: 0 <= i < |s| && s[i].id == id
  }

  /** The set of ids occurring in `s`. */
  function Ids(s: seq<Course>): set<string>
  {
    set i | 0 <= i < |s| :: s[i].id
  }

  /** No id occurs twice. */
  predicate UniqueIds(s: seq<Course>)
  {
    forall i, j :: 0 <= i < j < |s| ==> s[i].id != s[j].id
  }

  /** `s.filter(c => c.id !== id)`: every entry with that id is dropped. */
  function WithoutId(s: seq<Course>, id: string): (r: seq<Course>)
    ensures |r| <= |s|
    ensures !HasId(r, id)
    ensures forall c :: c in r <==> c in s && c.id != id
  {
    if s == [] then []
    else if s[0].id == id then WithoutId(s[1..], id)
    else [s[0]] + WithoutId(s[1..], id)
  }

  /** The new selection computed by `toggleCourseSelection(course)`. */
  function Toggled(s: seq<Course>, course: Course): seq<Course>
  {
    if HasId(s, course.id) then WithoutId(s, course.id) else s + [course]
  }

  /** Filtering distributes over concatenation: the kept entries stay in their order. */
  lemma {:induction false} WithoutIdAppend(a: seq<Course>, b: seq<Course>, id: string)
    ensures WithoutId(a + b, id) == WithoutId(a, id) + WithoutId(b, id)
  {
    if a == [] {
      assert a + b == b;
    } else {
      assert (a + b)[1..] == a[1..] + b;
      WithoutIdAppend(a[1..], b, id);
    }
  }

  /** Filtering out an id that does not occur changes nothing. */
  lemma {:induction false} WithoutAbsentId(s: seq<Course>, id: string)
    requires !HasId(s, id)
    ensures WithoutId(s, id) == s
  {
    if s != [] {
      assert !HasId(s[1..], id) by {
        forall i | 0 <= i < |s[1..]| ensures s[1..][i].id != id {
          assert s[1..][i] == s[i + 1];
        }
      }
      WithoutAbsentId(s[1..], id);
    }
  }

  /** Filtering keeps ids unique. */
  lemma {:induction false} WithoutIdUnique(s: seq<Course>, id: string)
    requires UniqueIds(s)
    ensures UniqueIds(WithoutId(s, id))
  {
    if s != [] {
      WithoutIdUnique(s[1..], id);
      var rest := WithoutId(s[1..], id);
      if s[0].id != id {
        forall c | c in rest ensures c.id != s[0].id {
          var k :| 0 <= k < |s[1..]| && s[1..][k] == c;
          assert s[k + 1] == c;
        }
      }
    }
  }

  /** The ids left after filtering are the old ids minus the filtered one. */
  lemma WithoutIdIds(s: seq<Course>, id: string)
    ensures Ids(WithoutId(s, id)) == Ids(s) - {id}
  {
    var r := WithoutId(s, id);
    forall x | x in Ids(s) - {id} ensures x in Ids(r) {
      var i :| 0 <= i < |s| && s[i].id == x;
      assert s[i] in r;
      var j :| 0 <= j < |r| && r[j] == s[i];
    }
    forall x | x in Ids(r) ensures x in Ids(s) - {id} {
      var j :| 0 <= j < |r| && r[j].id == x;
      assert r[j] in s;
      var i :| 0 <= i < |s| && s[i] == r[j];
    }
  }

  /** Toggling an absent id appends the course after the unchanged earlier entries. */
  lemma ToggleAbsent(s: seq<Course>, course: Course)
    requires !HasId(s, course.id)
    ensures Toggled(s, course) == s + [course]
    ensures HasId(Toggled(s, course), course.id)
  {
    assert (s + [course])[|s|] == course;
  }

  /**
   * Toggling a present id removes every entry with that id; the other entries keep
   * their order, and the set of ids loses exactly that id.
   */
  lemma TogglePresent(s: seq<Course>, course: Course)
    requires HasId(s, course.id)
    ensures Toggled(s, course) == WithoutId(s, course.id)
    ensures !HasId(Toggled(s, course), course.id)
    ensures Ids(Toggled(s, course)) == Ids(s) - {course.id}
  {
    WithoutIdIds(s, course.id);
  }

  /** Toggling keeps the ids of the selection unique. */
  lemma ToggleKeepsUnique(s: seq<Course>, course: Course)
    requires UniqueIds(s)
    ensures UniqueIds(Toggled(s, course))
  {
    if HasId(s, course.id) {
      WithoutIdUnique(s, course.id);
    } else {
      var r := s + [course];
      forall i, j | 0 <= i < j < |r| ensures r[i].id != r[j].id {
        if j == |s| {
          assert r[i] == s[i];
        } else {
          assert r[i] == s[i] && r[j] == s[j];
        }
      }
    }
  }

  /** Toggling a course whose id is absent twice restores the selection exactly. */
  lemma ToggleTwiceFromAbsent(s: seq<Course>, course: Course)
    requires !HasId(s, course.id)
    ensures Toggled(Toggled(s, course), course) == s
  {
    ToggleAbsent(s, course);
    WithoutIdAppend(s, [course], course.id);
    WithoutAbsentId(s, course.id);
  }

  /**
   * Toggling a course whose id is present twice restores the set of ids, but the
   * course now stands last, after the other entries in their old order.
   */
  lemma ToggleTwiceFromPresent(s: seq<Course>, course: Course)
    requires HasId(s, course.id)
    ensures Toggled(Toggled(s, course), course) == WithoutId(s, course.id) + [course]
    ensures Ids(Toggled(Toggled(s, course), course)) == Ids(s)
  {
    TogglePresent(s, course);
    var r := WithoutId(s, course.id) + [course];
    assert r[|r| - 1] == course;
    IdsAppend(WithoutId(s, course.id), course);
  }

  lemma IdsAppend(s: seq<Course>, course: Course)
    ensures Ids(s + [course]) == Ids(s) + {course.id}
  {
    var r := s + [course];
    assert r[|s|] == course;
    forall x | x in Ids(s) ensures x in Ids(r) {
      var i :| 0 <= i < |s| && s[i].id == x;
      assert r[i] == s[i];
    }
    forall x | x in Ids(r) ensures x in Ids(s) + {course.id} {
      var i :| 0 <= i < |r| && r[i].id == x;
      if i < |s| { assert r[i] == s[i]; }
    }
  }

  /** The shared store of `CourseProvider`. */
  class CourseProvider {
    var selectedCourses: seq<Course>
    var enrolledCourses: seq<Course>

    /** Both lists keep their ids unique. */
    predicate Valid()
      reads this
    {
      UniqueIds(selectedCourses) && UniqueIds(enrolledCourses)
    }

    /** Both lists start empty. */
    constructor ()
      ensures Valid()
      ensures selectedCourses == [] && enrolledCourses == []
    {
      selectedCourses := [];
      enrolledCourses := [];
    }

    /** `toggleCourseSelection(course)`: the enrollment is not touched. */
    method ToggleCourseSelection(course: Course)
      requires Valid()
      modifies this
      ensures Valid()
      ensures selectedCourses == Toggled(old(selectedCourses), course)
      ensures enrolledCourses == old(enrolledCourses)
    {
      ToggleKeepsUnique(selectedCourses, course);
      selectedCourses := Toggled(selectedCourses, course);
    }

    /**
     * `enrollInCourses()`: the enrollment becomes a copy of the selection as it was,
     * and the selection is emptied, even when it was already empty.
     */
    method EnrollInCourses()
      requires Valid()
      modifies this
      ensures Valid()
      ensures enrolledCourses == old(selectedCourses)
      ensures selectedCourses == []
    {
      enrolledCourses := selectedCourses;
      selectedCourses := [];
    }

    /** `clearEnrolledCourses()`: empties the enrollment and keeps the selection. */
    method ClearEnrolledCourses()
      requires Valid()
      modifies this
      ensures Valid()
      ensures enrolledCourses == []
      ensures selectedCourses == old(selectedCourses)
    {
      enrolledCourses := [];
    }
  }
}
