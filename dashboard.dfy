/**
 * The student dashboard: the badge variant of an assignment status, and the
 * page state that goes from "not loaded" (skeleton) to the dashboard data
 * rebuilt on the client. Dates are whole days on an abstract calendar; `today`
 * is the day the client effect runs, `loadDay` the day the catalog module was
 * loaded.
 */
module Dashboard {
  import opened Wrappers

  datatype BadgeVariant = Destructive | Secondary | Default | Outline

  datatype ActiveCourse = ActiveCourse(id: string, title: string, progress: int, imageId: string)

  datatype UpcomingClass = UpcomingClass(id: string, title: string, date: int, time: string)

  /** `status` is one of "Submitted", "Due Soon", "Overdue" in the catalog data. */
  datatype Assignment = Assignment(id: string, title: string, course: string, dueDate: int, status: string)

  datatype DashboardData = DashboardData(
    activeCourses: seq<ActiveCourse>,
    upcomingClasses: seq<UpcomingClass>,
    assignments: seq<Assignment>)

  /** What the page renders. */
  datatype View = Skeleton | Page(data: DashboardData)

  /** `getStatusBadge`: each of the three statuses has its own variant, anything else is outlined. */
  function StatusBadge(status: string): (r: BadgeVariant)
    ensures r == Destructive <==> status == "Overdue"
    ensures r == Secondary <==> status == "Due Soon"
    ensures r == Default <==> status == "Submitted"
    ensures r == Outline <==> status != "Overdue" && status != "Due Soon" && status != "Submitted"
  {
    match status
    case "Overdue" => Destructive
    case "Due Soon" => Secondary
    case "Submitted" => Default
    case _ => Outline
  }

  const ActiveCourses: seq<ActiveCourse> := [
    ActiveCourse("dash_course_1", "Introduction to Fashion Illustration", 65, "course-1"),
    ActiveCourse("dash_course_2", "Advanced Pattern Making & Draping", 40, "course-2"),
    ActiveCourse("dash_course_3", "Digital Fashion Design with Procreate", 80, "course-5"),
    ActiveCourse("dash_course_4", "The Business of Fashion", 20, "course-6")
  ]

  /** The three upcoming classes, dated from `day`. */
  function UpcomingClassesFrom(day: int): seq<UpcomingClass> {
    [
      UpcomingClass("class_1", "Live Q&A: Color Theory", day + 2, "4:00 PM"),
      UpcomingClass("class_2", "Critique Session: Module 2", day + 5, "2:00 PM"),
      UpcomingClass("class_3", "Guest Lecture: Building a Brand", day + 9, "6:00 PM")
    ]
  }

  /** The three assignments, due relative to `day`. */
  function AssignmentsFrom(day: int): seq<Assignment> {
    [
      Assignment("assign_1", "Final Illustration Submission", "Fashion Illustration", day + 3, "Due Soon"),
      Assignment("assign_2", "Business Plan Draft", "The Business of Fashion", day + 10, "Submitted"),
      Assignment("assign_3", "Figure Drawing Practice", "Fashion Illustration", day - 2, "Overdue")
    ]
  }

  /** The catalog's dashboard data, whose dates were computed when the module loaded. */
  function StaticDashboardData(loadDay: int): DashboardData {
    DashboardData(ActiveCourses, UpcomingClassesFrom(loadDay), AssignmentsFrom(loadDay))
  }

  /**
   * `clientSideDashboardData`: the static data with the classes and assignments
   * re-dated from `today`. Only the overdue assignment lies in the past, and
   * every class lies ahead.
   */
  function Rebuild(base: DashboardData, today: int): (r: DashboardData)
    ensures r.activeCourses == base.activeCourses
    ensures |r.upcomingClasses| == 3 && |r.assignments| == 3
    ensures r.upcomingClasses[0].date == today + 2
    ensures r.upcomingClasses[1].date == today + 5
    ensures r.upcomingClasses[2].date == today + 9
    ensures r.assignments[0].dueDate == today + 3
    ensures r.assignments[1].dueDate == today + 10
    ensures r.assignments[2].dueDate == today - 2
    ensures forall c :: c in r.upcomingClasses ==> c.date > today
    ensures forall a :: a in r.assignments ==> (a.dueDate < today <==> a.status == "Overdue")
  {
    base.(upcomingClasses := UpcomingClassesFrom(today), assignments := AssignmentsFrom(today))
  }

  /** The rebuild does not read the static classes or assignments. */
  lemma RebuildReplacesSchedule(b1: DashboardData, b2: DashboardData, today: int)
    requires b1.activeCourses == b2.activeCourses
    ensures Rebuild(b1, today) == Rebuild(b2, today)
  {
  }

  /** Rebuilding on the day the catalog was loaded gives the catalog's data back: the rebuild only re-dates. */
  lemma RebuildOnLoadDayIsStatic(day: int)
    ensures Rebuild(StaticDashboardData(day), day) == StaticDashboardData(day)
  {
  }

  /** In the rebuilt data the destructive badge marks exactly the assignments that are past due. */
  lemma {:induction false} RebuiltBadges(base: DashboardData, today: int)
    ensures forall a :: a in Rebuild(base, today).assignments ==>
      (StatusBadge(a.status) == Destructive <==> a.dueDate < today)
    ensures forall a :: a in Rebuild(base, today).assignments ==> StatusBadge(a.status) != Outline
  {
    var r := Rebuild(base, today);
    forall a | a in r.assignments
      ensures StatusBadge(a.status) == Destructive <==> a.dueDate < today
      ensures StatusBadge(a.status) != Outline
    {
      assert a.status in {"Due Soon", "Submitted", "Overdue"};
    }
  }

  /** The page's state: `null` until the mount effect has run. */
  class DashboardPage {
    /** The day the catalog module was loaded. */
    const loadDay: int
    var dashboardData: Option<DashboardData>

    constructor (loadDay: int)
      ensures this.loadDay == loadDay && dashboardData == None
    {
      this.loadDay := loadDay;
      dashboardData := None;
    }

    /** What the page renders now: the skeleton until the data is set. */
    function Render(): (v: View)
      reads this
      ensures v == Skeleton <==> dashboardData.None?
      ensures dashboardData.Some? ==> v.data == dashboardData.value
    {
      if dashboardData.None? then Skeleton else Page(dashboardData.value)
    }

    /** The mount effect, run on day `today`. */
    method MountEffect(today: int)
      modifies this
      ensures dashboardData == Some(Rebuild(StaticDashboardData(loadDay), today))
      ensures Render().Page? && Render().data.activeCourses == ActiveCourses
    {
      dashboardData := Some(Rebuild(StaticDashboardData(loadDay), today));
    }
  }
}
