/**
 * The results page (src/result/component/Result.jsx): two constant result lists, a
 * tab choosing between them, and the colours of grades and statuses.
 */
module Results {

  /** One exam result. */
  datatype ExamResult = ExamResult(
    id: int,
    courseCode: string,
    courseName: string,
    exam: string,
    score: int,
    grade: string,
    date: string,
    status: string)

  /** `recentResults`. */
  const RecentResults: seq<ExamResult> := [
    ExamResult(1, "CSE101", "Introduction to Programming", "Midterm Exam", 85, "A", "2025-01-15", "passed"),
    ExamResult(2, "CSE201", "Data Structures & Algorithms", "Quiz 3", 92, "A+", "2025-01-12", "passed"),
    ExamResult(3, "CSE301", "Database Management Systems", "Assignment 2", 78, "B+", "2025-01-10", "passed")
  ]

  /** The two results that only the full list holds. */
  const OlderResults: seq<ExamResult> := [
    ExamResult(4, "CSE202", "Object-Oriented Programming", "Final Project", 65, "C+", "2024-12-20", "passed"),
    ExamResult(5, "CSE302", "Web Development", "Midterm Exam", 88, "A", "2024-12-15", "passed")
  ]

  /** `allResults`: the recent results followed by the older ones. */
  const AllResults: seq<ExamResult> := RecentResults + OlderResults

  /** No two results share an id. */
  predicate UniqueIds(rs: seq<ExamResult>)
  {
    forall i, j :: 0 <= i < j < |rs| ==> rs[i].id != rs[j].id
  }

  /**
   * The full list starts with the recent results in their order, goes on with ids 4
   * and 5, and numbers its results 1 to 5, so no id repeats.
   */
  lemma AllResultsShape()
    ensures |AllResults| == 5 && AllResults[..|RecentResults|] == RecentResults
    ensures AllResults[3].id == 4 && AllResults[4].id == 5
    ensures forall i :: 0 <= i < |AllResults| ==> AllResults[i].id == i + 1
    ensures UniqueIds(AllResults)
  {
    assert AllResults[..|RecentResults|] == RecentResults;
  }

  /** The list shown for the active tab. */
  function Shown(activeTab: string): (rs: seq<ExamResult>)
    ensures activeTab == "recent" ==> rs == RecentResults
    ensures activeTab != "recent" ==> rs == AllResults
  {
    if activeTab == "recent" then RecentResults else AllResults
  }

  /** Whatever the tab, the shown list is a prefix of the full list with unique ids. */
  lemma ShownIsPrefixOfAll(activeTab: string)
    ensures var rs := Shown(activeTab); |rs| <= |AllResults| && AllResults[..|rs|] == rs
    ensures UniqueIds(Shown(activeTab))
  {
    AllResultsShape();
  }

  const Green: string := "text-green-600"
  const Blue: string := "text-blue-600"
  const Yellow: string := "text-yellow-600"
  const Red: string := "text-red-600"

  /** `getGradeColor(grade)`: each colour stands for exactly its pair of grades. */
  function GradeColor(grade: string): (c: string)
    ensures c == Green <==> grade == "A+" || grade == "A"
    ensures c == Blue <==> grade == "B+" || grade == "B"
    ensures c == Yellow <==> grade == "C+" || grade == "C"
    ensures c == Red <==> !(grade in ["A+", "A", "B+", "B", "C+", "C"])
  {
    if grade == "A+" || grade == "A" then Green
    else if grade == "B+" || grade == "B" then Blue
    else if grade == "C+" || grade == "C" then Yellow
    else Red
  }

  /** `getStatusColor(status)`. */
  function StatusColor(status: string): (c: string)
    ensures c == "bg-green-100 text-green-700 border-green-300" <==> status == "passed"
    ensures c == "bg-red-100 text-red-700 border-red-300" <==> status == "failed"
    ensures status != "passed" && status != "failed" ==> c == "bg-gray-100 text-gray-700 border-gray-300"
  {
    match status
    case "passed" => "bg-green-100 text-green-700 border-green-300"
    case "failed" => "bg-red-100 text-red-700 border-red-300"
    case _ => "bg-gray-100 text-gray-700 border-gray-300"
  }

  /** None of the listed results is shown in red: every grade is a C or better. */
  lemma NoListedResultIsRed()
    ensures forall i :: 0 <= i < |AllResults| ==> GradeColor(AllResults[i].grade) != Red
  {
  }
}
