/**
 * The applications page (src/application/component/Application.jsx): a list of
 * submitted applications that only ever grows by a submit, split into pending and
 * processed views.
 */
module Applications {

  /** An application record; `kind` is the record's `type` field. */
  datatype Application = Application(
    id: int,
    kind: string,
    course: string,
    courseCode: string,
    submittedDate: string,
    status: string,
    priority: string)

  /** The modal's form. */
  datatype FormData = FormData(kind: string, course: string, courseCode: string, priority: string)

  /** The form as it starts and as a submit resets it. */
  const EmptyForm: FormData := FormData("", "", "", "medium")

  /** The placeholder stored for an empty course name or code. */
  const NotApplicable: string := "N/A"

  /** `value || 'N/A'`. */
  function OrNotApplicable(value: string): (r: string)
    ensures r != ""
    ensures value != "" ==> r == value
    ensures value == "" ==> r == NotApplicable
  {
    if value != "" then value else NotApplicable
  }

  /** The application `handleSubmit` builds; `id` and `today` stand for `Date.now()` and the ISO date. */
  function NewApplication(form: FormData, id: int, today: string): (a: Application)
    ensures a.status == "pending" && a.priority == form.priority && a.kind == form.kind
    ensures a.course == OrNotApplicable(form.course) && a.courseCode == OrNotApplicable(form.courseCode)
    ensures a.id == id && a.submittedDate == today
  {
    Application(id, form.kind, OrNotApplicable(form.course), OrNotApplicable(form.courseCode),
                today, "pending", form.priority)
  }

  /** Every application is still pending. */
  predicate AllPending(apps: seq<Application>)
  {
    forall i :: 0 <= i < |apps| ==> apps[i].status == "pending"
  }

  /** `applications.filter(app => app.status === 'pending')`. */
  function Pending(apps: seq<Application>): (r: seq<Application>)
    ensures |r| <= |apps|
    ensures forall a :: a in r <==> a in apps && a.status == "pending"
  {
    if apps == [] then []
    else if apps[0].status == "pending" then [apps[0]] + Pending(apps[1..])
    else Pending(apps[1..])
  }

  /** `applications.filter(app => app.status !== 'pending')`. */
  function Processed(apps: seq<Application>): (r: seq<Application>)
    ensures |r| <= |apps|
    ensures forall a :: a in r <==> a in apps && a.status != "pending"
  {
    if apps == [] then []
    else if apps[0].status != "pending" then [apps[0]] + Processed(apps[1..])
    else Processed(apps[1..])
  }

  /** The two views split the list: their lengths add up to its length. */
  lemma {:induction false} PendingProcessedPartition(apps: seq<Application>)
    ensures |Pending(apps)| + |Processed(apps)| == |apps|
  {
    if apps != [] {
      PendingProcessedPartition(apps[1..]);
    }
  }

  /** When every application is pending, the pending view is the whole list. */
  lemma {:induction false} PendingOfAllPending(apps: seq<Application>)
    requires AllPending(apps)
    ensures Pending(apps) == apps
    ensures Processed(apps) == []
  {
    if apps != [] {
      PendingOfAllPending(apps[1..]);
    }
  }

  /** Appending a new application keeps every application pending. */
  lemma SubmitKeepsAllPending(apps: seq<Application>, form: FormData, id: int, today: string)
    requires AllPending(apps)
    ensures AllPending(apps + [NewApplication(form, id, today)])
  {
  }

  /** `displayApplications` for the active tab. */
  function Displayed(apps: seq<Application>, activeTab: string): seq<Application>
  {
    if activeTab == "all" then apps
    else if activeTab == "pending" then Pending(apps)
    else Processed(apps)
  }

  /**
   * As the page's state always holds only pending applications, the `pending` and
   * `all` tabs both show the whole list and every other tab shows nothing.
   */
  lemma DisplayedOfAllPending(apps: seq<Application>, activeTab: string)
    requires AllPending(apps)
    ensures activeTab == "all" || activeTab == "pending" ==> Displayed(apps, activeTab) == apps
    ensures activeTab != "all" && activeTab != "pending" ==> Displayed(apps, activeTab) == []
  {
    PendingOfAllPending(apps);
  }

  /** `getStatusColor(status)`: each of the four styles stands for exactly its statuses. */
  function StatusColor(status: string): (c: string)
    ensures c == "bg-yellow-100 text-yellow-700 border-yellow-300" <==> status == "pending"
    ensures c == "bg-green-100 text-green-700 border-green-300" <==> status == "approved"
    ensures c == "bg-red-100 text-red-700 border-red-300" <==> status == "rejected"
    ensures c == "bg-gray-100 text-gray-700 border-gray-300" <==>
      status != "pending" && status != "approved" && status != "rejected"
  {
    match status
    case "pending" => "bg-yellow-100 text-yellow-700 border-yellow-300"
    case "approved" => "bg-green-100 text-green-700 border-green-300"
    case "rejected" => "bg-red-100 text-red-700 border-red-300"
    case _ => "bg-gray-100 text-gray-700 border-gray-300"
  }

  /** While every application is pending, every card carries the pending (yellow) style. */
  lemma PendingCardsAreYellow(apps: seq<Application>)
    requires AllPending(apps)
    ensures forall i :: 0 <= i < |apps| ==> StatusColor(apps[i].status) == StatusColor("pending")
    ensures forall i :: 0 <= i < |apps| ==> StatusColor(apps[i].status) != StatusColor("approved")
  {
  }

  const BadgeBase: string := "px-2 py-1 rounded-full text-xs font-semibold "

  /** `colors[priority]`, which reads `undefined` for a priority that is not listed. */
  function PriorityColors(priority: string): string
  {
    match priority
    case "high" => "bg-red-100 text-red-700"
    case "medium" => "bg-yellow-100 text-yellow-700"
    case "low" => "bg-blue-100 text-blue-700"
    case _ => "undefined"
  }

  /** `getPriorityBadge(priority)`. */
  function PriorityBadge(priority: string): (b: string)
    ensures |b| > |BadgeBase| && b[..|BadgeBase|] == BadgeBase
    ensures b[|BadgeBase|..] == PriorityColors(priority)
  {
    BadgeBase + PriorityColors(priority)
  }

  /** The badge for a priority outside high/medium/low ends in the text `undefined`. */
  lemma PriorityBadgeOfUnknown(priority: string)
    requires priority != "high" && priority != "medium" && priority != "low"
    ensures PriorityBadge(priority)[|BadgeBase|..] == "undefined"
  {
  }

  /** The course line of a card. */
  function CourseLabel(a: Application): (line: string)
    ensures a.courseCode == NotApplicable ==> line == a.course
    ensures a.courseCode != NotApplicable ==>
      |line| == |a.courseCode| + 2 + |a.course| && line[..|a.courseCode|] == a.courseCode
      && line[|a.courseCode|..|a.courseCode| + 2] == ": " && line[|a.courseCode| + 2..] == a.course
  {
    if a.courseCode != NotApplicable then a.courseCode + ": " + a.course else a.course
  }

  /** A form submitted without a course code shows just the course name, or `N/A`. */
  lemma CourseLabelWithoutCode(form: FormData, id: int, today: string)
    requires form.courseCode == ""
    ensures CourseLabel(NewApplication(form, id, today)) == OrNotApplicable(form.course)
  {
  }

  /** The form fields, as the modal's inputs edit them. */
  datatype Field = KindField | CourseField | CourseCodeField | PriorityField

  /** `setFormData({...formData, [field]: value})`. */
  function WithField(form: FormData, field: Field, value: string): (r: FormData)
    ensures r.kind == if field == KindField then value else form.kind
    ensures r.course == if field == CourseField then value else form.course
    ensures r.courseCode == if field == CourseCodeField then value else form.courseCode
    ensures r.priority == if field == PriorityField then value else form.priority
  {
    match field
    case KindField => form.(kind := value)
    case CourseField => form.(course := value)
    case CourseCodeField => form.(courseCode := value)
    case PriorityField => form.(priority := value)
  }

  /** The `Application` component's state. */
  class ApplicationPage {
    var applications: seq<Application>
    var formData: FormData
    var isModalOpen: bool
    var activeTab: string

    /** Only a submit adds applications, and it adds pending ones. */
    predicate Valid()
      reads this
    {
      AllPending(applications)
    }

    constructor ()
      ensures Valid()
      ensures applications == [] && formData == EmptyForm && !isModalOpen && activeTab == "pending"
    {
      applications := [];
      formData := EmptyForm;
      isModalOpen := false;
      activeTab := "pending";
    }

    /** `handleSubmit`: append the new application, reset the form, close the modal. */
    method HandleSubmit(id: int, today: string)
      requires Valid()
      modifies this
      ensures Valid()
      ensures applications == old(applications) + [NewApplication(old(formData), id, today)]
      ensures formData == EmptyForm && !isModalOpen && activeTab == old(activeTab)
    {
      SubmitKeepsAllPending(applications, formData, id, today);
      var newApplication := NewApplication(formData, id, today);
      applications := applications + [newApplication];
      formData := EmptyForm;
      isModalOpen := false;
    }

    /** An input's `onChange`. */
    method ChangeField(field: Field, value: string)
      requires Valid()
      modifies this
      ensures Valid()
      ensures formData == WithField(old(formData), field, value)
      ensures applications == old(applications) && isModalOpen == old(isModalOpen)
      ensures activeTab == old(activeTab)
    {
      formData := WithField(formData, field, value);
    }

    /** `setIsModalOpen(open)`: the form is kept as it is. */
    method SetModalOpen(open: bool)
      requires Valid()
      modifies this
      ensures Valid()
      ensures isModalOpen == open
      ensures applications == old(applications) && formData == old(formData)
      ensures activeTab == old(activeTab)
    {
      isModalOpen := open;
    }

    /** `setActiveTab(tab)`. */
    method SetActiveTab(tab: string)
      requires Valid()
      modifies this
      ensures Valid()
      ensures activeTab == tab
      ensures applications == old(applications) && formData == old(formData)
      ensures isModalOpen == old(isModalOpen)
    {
      activeTab := tab;
    }
  }
}
