/**
 * The "Enrolled Courses" dashboard section (src/componnts/SubComponent/Enrolled.jsx):
 * one card per enrolled course, with an icon looked up by course id.
 */
module EnrolledView {
  import opened Wrappers
  import opened Text
  import opened CourseStore

  /** A card as the section renders it. */
  datatype Card = Card(title: string, description: string, icon: string)

  /** The icon shown for an id `courseIconMap` does not know. */
  const DefaultIcon: string := "/public/3d Icon/algo.png"

  /** `courseIconMap`. */
  const CourseIconMap: map<string, string> := map[
    "CSE201" := "/public/3d Icon/fundemental.png",
    "CSE202" := "/public/3d Icon/algo.png",
    "CSE203" := "/public/3d Icon/database.png",
    "CSE204" := "/public/3d Icon/web-dev.png",
    "CSE205" := "/public/3d Icon/web-dev.png",
    "CSE206" := "/public/3d Icon/fundemental.png",
    "CSE207" := "/public/3d Icon/fundemental.png"
  ]

  /** The four icon files the section can show. */
  predicate IsIconFile(icon: string)
  {
    icon == "/public/3d Icon/fundemental.png" || icon == "/public/3d Icon/algo.png"
    || icon == "/public/3d Icon/database.png" || icon == "/public/3d Icon/web-dev.png"
  }

  /** `courseIconMap[id] || "/public/3d Icon/algo.png"`. */
  function IconFor(id: string): (icon: string)
    ensures IsIconFile(icon) && icon != ""
  {
    if id in CourseIconMap && CourseIconMap[id] != "" then CourseIconMap[id] else DefaultIcon
  }

  /** The ids CSE201 to CSE207 get their mapped icon; every other id the default. */
  lemma IconForKnownAndUnknown(id: string)
    ensures id == "CSE203" ==> IconFor(id) == "/public/3d Icon/database.png"
    ensures (id == "CSE204" || id == "CSE205") ==> IconFor(id) == "/public/3d Icon/web-dev.png"
    ensures (id == "CSE201" || id == "CSE206" || id == "CSE207") ==> IconFor(id) == "/public/3d Icon/fundemental.png"
    ensures id == "CSE202" ==> IconFor(id) == DefaultIcon
    ensures id !in CourseIconMap ==> IconFor(id) == DefaultIcon
  {
  }

  const DescriptionPrefix: string := "Course ID: "
  const DescriptionMiddle: string := " - "
  const DescriptionSuffix: string := " credits"

  /** `` `Course ID: ${course.id} - ${course.credit} credits` ``. */
  function Description(c: Course): string
  {
    DescriptionPrefix + c.id + DescriptionMiddle + IntToString(c.credit) + DescriptionSuffix
  }

  /**
   * The description holds the course id right after its prefix, and the text between
   * the separator and the suffix reads back as the course's credits.
   */
  lemma DescriptionReadsBack(c: Course)
    ensures var d := Description(c);
      |d| == |DescriptionPrefix| + |c.id| + |DescriptionMiddle| + |IntToString(c.credit)| + |DescriptionSuffix|
    ensures var d := Description(c);
      d[|DescriptionPrefix|..|DescriptionPrefix| + |c.id|] == c.id
    ensures var d := Description(c); var from := |DescriptionPrefix| + |c.id| + |DescriptionMiddle|;
      ParseNumber(d[from..|d| - |DescriptionSuffix|]) == Some(c.credit)
    ensures var d := Description(c);
      d[..|DescriptionPrefix|] == DescriptionPrefix && d[|d| - |DescriptionSuffix|..] == DescriptionSuffix
  {
    Segments(DescriptionPrefix, c.id, DescriptionMiddle, IntToString(c.credit), DescriptionSuffix);
    ParseNumberOfIntToString(c.credit);
  }

  /** The card for one enrolled course. */
  function CardFor(c: Course): Card
  {
    Card(c.name, Description(c), IconFor(c.id))
  }

  /** `courses`: `enrolledCourses.map(...)`. */
  function Cards(enrolled: seq<Course>): (r: seq<Card>)
    ensures |r| == |enrolled|
    ensures forall i :: 0 <= i < |r| ==>
      r[i].title == enrolled[i].name && r[i].description == Description(enrolled[i])
      && r[i].icon == IconFor(enrolled[i].id) && IsIconFile(r[i].icon)
  {
    seq(|enrolled|, i requires 0 <= i < |enrolled| => CardFor(enrolled[i]))
  }

  /** Cards follow the enrollment's order: the cards of a concatenation are concatenated. */
  lemma CardsAppend(a: seq<Course>, b: seq<Course>)
    ensures Cards(a + b) == Cards(a) + Cards(b)
  {
    assert forall i :: 0 <= i < |a| ==> (a + b)[i] == a[i];
    assert forall i :: |a| <= i < |a| + |b| ==> (a + b)[i] == b[i - |a|];
  }

  /** `courses.length > 0`: the grid is shown, otherwise the empty state. */
  predicate ShowsGrid(enrolled: seq<Course>)
  {
    |Cards(enrolled)| > 0
  }

  /** The empty state is shown exactly when nothing is enrolled. */
  lemma EmptyStateIffNoEnrollment(enrolled: seq<Course>)
    ensures !ShowsGrid(enrolled) <==> enrolled == []
  {
  }
}
