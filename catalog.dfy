/**
 * The "My Courses" page (src/Courses/components/Courses.jsx): the catalog entries
 * shown for the current enrollment. An enrolled id selects a catalog course when it
 * is the course's code, or when it is the FIRST key of `courseCodeMap` that maps to
 * that code. The forward lookup the map's comments describe is modelled beside it,
 * and the two are proved to differ only for CSE205.
 */
module Catalog {
  import opened Wrappers
  import opened CourseStore

  datatype CatalogCourse = CatalogCourse(
    id: int,
    courseCode: string,
    courseName: string,
    faculty: string,
    credits: int,
    schedule: string,
    semester: string)

  /** `allCoursesData`. */
  const AllCoursesData: seq<CatalogCourse> := [
    CatalogCourse(1, "CSE101", "Introduction to Programming", "Dr. Sarah Johnson", 3, "Mon, Wed 10:00 AM", "Spring 2025"),
    CatalogCourse(2, "CSE201", "Data Structures & Algorithms", "Prof. Michael Chen", 4, "Tue, Thu 2:00 PM", "Spring 2025"),
    CatalogCourse(3, "CSE301", "Database Management Systems", "Dr. Emily Rodriguez", 3, "Mon, Wed 1:00 PM", "Spring 2025"),
    CatalogCourse(4, "CSE202", "Object-Oriented Programming", "Prof. David Kim", 3, "Tue, Thu 10:00 AM", "Spring 2025"),
    CatalogCourse(5, "CSE302", "Web Development", "Dr. Lisa Anderson", 3, "Fri 9:00 AM", "Spring 2025"),
    CatalogCourse(6, "CSE401", "Artificial Intelligence", "Prof. James Wilson", 4, "Mon, Wed 3:00 PM", "Spring 2025"),
    CatalogCourse(7, "CSE303", "Computer Networks", "Dr. Maria Garcia", 3, "Tue, Thu 11:00 AM", "Spring 2025"),
    CatalogCourse(8, "CSE402", "Machine Learning", "Prof. Robert Brown", 4, "Mon, Wed 4:00 PM", "Spring 2025")
  ]

  /** `courseCodeMap` as its (key, value) entries, keys in insertion order. */
  const CourseCodeMap: seq<(string, string)> := [
    ("CSE201", "CSE201"),
    ("CSE202", "CSE202"),
    ("CSE203", "CSE301"),
    ("CSE204", "CSE303"),
    ("CSE205", "CSE303"),
    ("CSE206", "CSE401"),
    ("CSE207", "CSE402")
  ]

  /** `Object.values(m).includes(code)`. */
  predicate InValues(m: seq<(string, string)>, code: string)
  {
    exists i :: 0 <= i < |m| && m[i].1 == code
  }

  /** `Object.keys(m).find(key => m[key] === code)`. */
  function FirstKeyFor(m: seq<(string, string)>, code: string): Option<string>
  {
    if m == [] then None
    else if m[0].1 == code then Some(m[0].0)
    else FirstKeyFor(m[1..], code)
  }

  /**
   * The lookup finds a key exactly when some entry has the value `code`, and the key
   * it finds is that of the first such entry.
   */
  lemma {:induction false} FirstKeyForIsFirst(m: seq<(string, string)>, code: string)
    ensures FirstKeyFor(m, code).Some? <==> InValues(m, code)
    ensures FirstKeyFor(m, code).Some? ==>
      exists i :: 0 <= i < |m| && m[i] == (FirstKeyFor(m, code).value, code)
        && forall j :: 0 <= j < i ==> m[j].1 != code
  {
    if m != [] && m[0].1 != code {
      FirstKeyForIsFirst(m[1..], code);
      if InValues(m, code) {
        var i :| 0 <= i < |m| && m[i].1 == code;
        assert m[1..][i - 1].1 == code;
      }
      if FirstKeyFor(m, code).Some? {
        var r := FirstKeyFor(m, code).value;
        var i :| 0 <= i < |m[1..]| && m[1..][i] == (r, code) && forall j :: 0 <= j < i ==> m[1..][j].1 != code;
        assert m[i + 1] == (r, code);
        forall j | 0 <= j < i + 1 ensures m[j].1 != code {
          if j > 0 { assert m[j] == m[1..][j - 1]; }
        }
      }
    }
  }

  /** `m[key] === value` for a map whose keys are unique. */
  predicate MapsTo(m: seq<(string, string)>, key: string, value: string)
  {
    exists j :: 0 <= j < |m| && m[j] == (key, value)
  }

  /**
   * How an enrolled id is resolved through `courseCodeMap`: `FirstKey` is the lookup as
   * written (the first key whose value is the course's code must be the enrolled id);
   * `Forward` is the lookup the map's comments describe (the value stored under the
   * enrolled id must be the course's code).
   */
  datatype Lookup = FirstKey | Forward

  /** Whether the enrolled id `enrolledId` selects the catalog course `course`. */
  predicate Matches(lookup: Lookup, enrolledId: string, course: CatalogCourse)
  {
    enrolledId == course.courseCode
    || (match lookup
        case FirstKey =>
          InValues(CourseCodeMap, course.courseCode)
          && FirstKeyFor(CourseCodeMap, course.courseCode) == Some(enrolledId)
        case Forward => MapsTo(CourseCodeMap, enrolledId, course.courseCode))
  }

  /** `enrolledCourseCodes.some(enrolledId => ...)`. */
  predicate SelectedBy(lookup: Lookup, ids: seq<string>, course: CatalogCourse)
  {
    exists i :: 0 <= i < |ids| && Matches(lookup, ids[i], course)
  }

  /** `catalog.filter(course => SelectedBy(ids, course))`. */
  function FilterCatalog(catalog: seq<CatalogCourse>, lookup: Lookup, ids: seq<string>): (r: seq<CatalogCourse>)
    ensures |r| <= |catalog|
    ensures forall c :: c in r <==> c in catalog && SelectedBy(lookup, ids, c)
  {
    if catalog == [] then []
    else if SelectedBy(lookup, ids, catalog[0]) then [catalog[0]] + FilterCatalog(catalog[1..], lookup, ids)
    else FilterCatalog(catalog[1..], lookup, ids)
  }

  /** `enrolledCourses.map(c => c.id)`. */
  function EnrolledIds(enrolled: seq<Course>): (ids: seq<string>)
    ensures |ids| == |enrolled|
    ensures forall i :: 0 <= i < |enrolled| ==> ids[i] == enrolled[i].id
  {
    seq(|enrolled|, i requires 0 <= i < |enrolled| => enrolled[i].id)
  }

  /**
   * `coursesData`: nothing when nothing is enrolled; otherwise the catalog courses
   * that some enrolled id selects, never more than the catalog holds. The page uses
   * the `FirstKey` lookup.
   */
  function CoursesData(lookup: Lookup, enrolled: seq<Course>): (r: seq<CatalogCourse>)
    ensures enrolled == [] ==> r == []
    ensures |r| <= |AllCoursesData|
    ensures forall c :: c in r <==> c in AllCoursesData && exists e :: e in enrolled && Matches(lookup, e.id, c)
  {
    if |enrolled| == 0 then []
    else
      var ids := EnrolledIds(enrolled);
      assert forall c :: SelectedBy(lookup, ids, c) <==> exists e :: e in enrolled && Matches(lookup, e.id, c) by {
        forall c ensures SelectedBy(lookup, ids, c) <==> exists e :: e in enrolled && Matches(lookup, e.id, c) {
          if SelectedBy(lookup, ids, c) {
            var i :| 0 <= i < |ids| && Matches(lookup, ids[i], c);
            assert enrolled[i] in enrolled;
          }
          if exists e :: e in enrolled && Matches(lookup, e.id, c) {
            var e :| e in enrolled && Matches(lookup, e.id, c);
            var i :| 0 <= i < |enrolled| && enrolled[i] == e;
            assert Matches(lookup, ids[i], c);
          }
        }
      }
      FilterCatalog(AllCoursesData, lookup, ids)
  }

  /** `r` keeps some of the entries of `s`, in their order. */
  predicate IsSubsequence(r: seq<CatalogCourse>, s: seq<CatalogCourse>)
  {
    r == [] || (s != [] && ((r[0] == s[0] && IsSubsequence(r[1..], s[1..])) || IsSubsequence(r, s[1..])))
  }

  /** No entry occurs twice. */
  predicate Distinct(s: seq<CatalogCourse>)
  {
    forall i, j :: 0 <= i < j < |s| ==> s[i] != s[j]
  }

  /** Filtering keeps catalog order and, from a duplicate-free catalog, has no duplicates. */
  lemma {:induction false} FilterCatalogOrdered(catalog: seq<CatalogCourse>, lookup: Lookup, ids: seq<string>)
    ensures IsSubsequence(FilterCatalog(catalog, lookup, ids), catalog)
    ensures Distinct(catalog) ==> Distinct(FilterCatalog(catalog, lookup, ids))
  {
    if catalog != [] {
      FilterCatalogOrdered(catalog[1..], lookup, ids);
      var r := FilterCatalog(catalog, lookup, ids);
      var rest := FilterCatalog(catalog[1..], lookup, ids);
      if Distinct(catalog) {
        assert Distinct(catalog[1..]) by {
          forall i, j | 0 <= i < j < |catalog[1..]| ensures catalog[1..][i] != catalog[1..][j] {
            assert catalog[1..][i] == catalog[i + 1] && catalog[1..][j] == catalog[j + 1];
          }
        }
        if SelectedBy(lookup, ids, catalog[0]) {
          assert catalog[0] !in catalog[1..] by {
            forall k | 0 <= k < |catalog[1..]| ensures catalog[1..][k] != catalog[0] {
              assert catalog[1..][k] == catalog[k + 1];
            }
          }
          assert catalog[0] !in rest;
          forall i, j | 0 <= i < j < |r| ensures r[i] != r[j] {
            if i == 0 {
              assert r[j] == rest[j - 1];
              assert r[j] in rest;
            } else {
              assert r[i] == rest[i - 1] && r[j] == rest[j - 1];
            }
          }
        }
      }
      if SelectedBy(lookup, ids, catalog[0]) {
        assert r[1..] == rest;
      } else {
        assert r == rest;
      }
    }
  }

  /** The catalog lists each course once. */
  lemma AllCoursesDataDistinct()
    ensures Distinct(AllCoursesData)
  {
  }

  /** The result of `coursesData` is a subsequence of the catalog without duplicates. */
  lemma CoursesDataOrdered(lookup: Lookup, enrolled: seq<Course>)
    ensures IsSubsequence(CoursesData(lookup, enrolled), AllCoursesData)
    ensures Distinct(CoursesData(lookup, enrolled))
  {
    AllCoursesDataDistinct();
    if enrolled != [] {
      FilterCatalogOrdered(AllCoursesData, lookup, EnrolledIds(enrolled));
    }
  }

  /** Both CSE204 and CSE205 map to CSE303, and the lookup settles on the first, CSE204. */
  lemma CSE303ResolvesToCSE204()
    ensures FirstKeyFor(CourseCodeMap, "CSE303") == Some("CSE204")
    ensures CourseCodeMap[4] == ("CSE205", "CSE303")
  {
  }

  /** As written, CSE205 selects no catalog entry: the one it maps to, CSE303, is claimed by CSE204. */
  lemma CSE205SelectsNothing()
    ensures forall i :: 0 <= i < |AllCoursesData| ==> !Matches(FirstKey, "CSE205", AllCoursesData[i])
  {
    forall i | 0 <= i < |AllCoursesData| ensures !Matches(FirstKey, "CSE205", AllCoursesData[i]) {
      if i == 6 {
        CSE303ResolvesToCSE204();
      }
    }
  }

  /**
   * As written, enrolling only CSE205 shows no catalog course at all: its mapped
   * course, CSE303, resolves to the earlier key CSE204.
   */
  lemma EnrollingCSE205ShowsNothing(enrolled: seq<Course>)
    requires forall i :: 0 <= i < |enrolled| ==> enrolled[i].id == "CSE205"
    ensures CoursesData(FirstKey, enrolled) == []
  {
    if enrolled != [] {
      var ids := EnrolledIds(enrolled);
      CSE205SelectsNothing();
      FilterNothing(AllCoursesData, FirstKey, ids);
    }
  }

  /** A filter that selects no entry of the catalog yields nothing. */
  lemma {:induction false} FilterNothing(catalog: seq<CatalogCourse>, lookup: Lookup, ids: seq<string>)
    requires forall i :: 0 <= i < |catalog| ==> !SelectedBy(lookup, ids, catalog[i])
    ensures FilterCatalog(catalog, lookup, ids) == []
  {
    if catalog != [] {
      FilterNothing(catalog[1..], lookup, ids);
    }
  }

  /** CSE203 selects the CSE301 entry and no other catalog entry. */
  lemma CSE203SelectsOnlyCSE301()
    ensures Matches(FirstKey, "CSE203", AllCoursesData[2])
    ensures forall i :: 0 <= i < |AllCoursesData| && i != 2 ==> !Matches(FirstKey, "CSE203", AllCoursesData[i])
  {
    assert FirstKeyFor(CourseCodeMap, "CSE301") == Some("CSE203");
  }

  /** A duplicate-free sequence holding `x` and nothing else is `[x]`. */
  lemma OnlyElement(r: seq<CatalogCourse>, x: CatalogCourse)
    requires Distinct(r) && x in r
    requires forall c :: c in r ==> c == x
    ensures r == [x]
  {
    assert r[0] in r && r[|r| - 1] in r;
  }

  /**
   * When every enrolled id selects catalog entry `k` and no other, the page shows
   * exactly that entry.
   */
  lemma ShowsOnly(lookup: Lookup, enrolled: seq<Course>, id: string, k: nat)
    requires |enrolled| > 0 && k < |AllCoursesData|
    requires forall i :: 0 <= i < |enrolled| ==> enrolled[i].id == id
    requires Matches(lookup, id, AllCoursesData[k])
    requires forall i :: 0 <= i < |AllCoursesData| && i != k ==> !Matches(lookup, id, AllCoursesData[i])
    ensures CoursesData(lookup, enrolled) == [AllCoursesData[k]]
  {
    var r := CoursesData(lookup, enrolled);
    assert enrolled[0] in enrolled;
    forall c | c in r ensures c == AllCoursesData[k] {
      var e :| e in enrolled && Matches(lookup, e.id, c);
      var j :| 0 <= j < |AllCoursesData| && AllCoursesData[j] == c;
      var i :| 0 <= i < |enrolled| && enrolled[i] == e;
    }
    CoursesDataOrdered(lookup, enrolled);
    OnlyElement(r, AllCoursesData[k]);
  }

  /** Enrolling only CSE203 shows exactly the CSE301 catalog entry. */
  lemma EnrollingCSE203ShowsCSE301(enrolled: seq<Course>)
    requires |enrolled| > 0
    requires forall i :: 0 <= i < |enrolled| ==> enrolled[i].id == "CSE203"
    ensures CoursesData(FirstKey, enrolled) == [AllCoursesData[2]]
  {
    CSE203SelectsOnlyCSE301();
    ShowsOnly(FirstKey, enrolled, "CSE203", 2);
  }

  /** With the forward lookup, CSE205 selects the CSE303 entry and no other. */
  lemma CSE205SelectsCSE303Forward()
    ensures Matches(Forward, "CSE205", AllCoursesData[6])
    ensures forall i :: 0 <= i < |AllCoursesData| && i != 6 ==> !Matches(Forward, "CSE205", AllCoursesData[i])
  {
    assert CourseCodeMap[4] == ("CSE205", "CSE303");
  }

  /** With the forward lookup, enrolling only CSE205 shows the CSE303 entry, Computer Networks. */
  lemma EnrollingCSE205ShowsCSE303Forward(enrolled: seq<Course>)
    requires |enrolled| > 0
    requires forall i :: 0 <= i < |enrolled| ==> enrolled[i].id == "CSE205"
    ensures CoursesData(Forward, enrolled) == [AllCoursesData[6]]
    ensures AllCoursesData[6].courseCode == "CSE303" && AllCoursesData[6].courseName == "Computer Networks"
  {
    CSE205SelectsCSE303Forward();
    ShowsOnly(Forward, enrolled, "CSE205", 6);
  }

  /** Only the entries for CSE204 and CSE205 share a value in `courseCodeMap`. */
  lemma SharedValues()
    ensures forall i, j :: 0 <= i < j < |CourseCodeMap| && CourseCodeMap[i].1 == CourseCodeMap[j].1 ==> i == 3 && j == 4
  {
  }

  /**
   * The two lookups differ only for CSE205: for any other id, an entry is selected as
   * written exactly when it is selected by the forward lookup.
   */
  lemma LookupsAgreeExceptCSE205(id: string, course: CatalogCourse)
    requires id != "CSE205"
    ensures Matches(FirstKey, id, course) <==> Matches(Forward, id, course)
  {
    var code := course.courseCode;
    FirstKeyForIsFirst(CourseCodeMap, code);
    if Matches(FirstKey, id, course) && id != code {
      var i :| 0 <= i < |CourseCodeMap| && CourseCodeMap[i] == (id, code)
        && forall j :: 0 <= j < i ==> CourseCodeMap[j].1 != code;
    }
    if Matches(Forward, id, course) && id != code {
      var j :| 0 <= j < |CourseCodeMap| && CourseCodeMap[j] == (id, code);
      assert InValues(CourseCodeMap, code);
      var i :| 0 <= i < |CourseCodeMap| && CourseCodeMap[i] == (FirstKeyFor(CourseCodeMap, code).value, code)
        && forall k :: 0 <= k < i ==> CourseCodeMap[k].1 != code;
      SharedValues();
      assert i == j;
    }
  }

  /** Filters whose selections agree on every catalog entry give the same result. */
  lemma {:induction false} FilterAgree(catalog: seq<CatalogCourse>, ids: seq<string>)
    requires forall i :: 0 <= i < |catalog| ==> (SelectedBy(FirstKey, ids, catalog[i]) <==> SelectedBy(Forward, ids, catalog[i]))
    ensures FilterCatalog(catalog, FirstKey, ids) == FilterCatalog(catalog, Forward, ids)
  {
    if catalog != [] {
      FilterAgree(catalog[1..], ids);
    }
  }

  /** Unless CSE205 is enrolled, the page shows what the forward lookup shows. */
  lemma CoursesDataAgreeWithoutCSE205(enrolled: seq<Course>)
    requires forall i :: 0 <= i < |enrolled| ==> enrolled[i].id != "CSE205"
    ensures CoursesData(FirstKey, enrolled) == CoursesData(Forward, enrolled)
  {
    if enrolled != [] {
      var ids := EnrolledIds(enrolled);
      forall k | 0 <= k < |AllCoursesData|
        ensures SelectedBy(FirstKey, ids, AllCoursesData[k]) <==> SelectedBy(Forward, ids, AllCoursesData[k])
      {
        forall i | 0 <= i < |ids|
          ensures Matches(FirstKey, ids[i], AllCoursesData[k]) <==> Matches(Forward, ids[i], AllCoursesData[k])
        {
          LookupsAgreeExceptCSE205(ids[i], AllCoursesData[k]);
        }
      }
      FilterAgree(AllCoursesData, ids);
    }
  }
}
