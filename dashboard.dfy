/**
 * The dashboard: which courses it lists as "new", and which callback each of
 * its controls fires with which course id. It keeps no state of its own.
 */
module Dashboard {
  import opened Wrappers
  import opened Types
  import opened JsBuiltins
  import opened Constants

  const NEW_COURSES_SHOWN: nat := 3

  /** The callbacks the dashboard receives from its parent. */
  datatype Callback =
    | OnCourseClick(courseId: string)   // wired to "continue course"
    | OnCourseSelect(courseId: string)  // wired to "open course"
    | OnSeeMore

  /** The clickable controls of the dashboard. */
  datatype Control =
    | RecentThumbnail          // thumbnail of the recently watched course
    | RecentContinue           // its "Continue" button
    | StartContinue            // "Continue" shown when nothing was watched yet
    | NewCourseCard(index: nat)
    | MoreButton

  /** "Newest first": a reversed copy of the catalog, cut to its first three entries. */
  function NewCourses(catalog: seq<Course>): (r: seq<Course>)
    ensures |r| <= NEW_COURSES_SHOWN
    ensures forall i :: 0 <= i < |r| ==> r[i] in catalog
  {
    var newestFirst := Reverse(catalog);
    newestFirst[..if |newestFirst| < NEW_COURSES_SHOWN then |newestFirst| else NEW_COURSES_SHOWN]
  }

  /** The new-courses list holds min(3, |catalog|) courses, the i-th being the i-th from the back. */
  lemma NewCoursesAreLastThreeReversed(catalog: seq<Course>)
    ensures |NewCourses(catalog)| == if |catalog| < 3 then |catalog| else 3
    ensures forall i :: 0 <= i < |NewCourses(catalog)| ==>
      NewCourses(catalog)[i] == catalog[|catalog| - 1 - i]
  {
  }

  /** With the three-course catalog, the dashboard lists it back to front. */
  lemma NewCoursesOfCatalog()
    ensures NewCourses(COURSES) == [COURSES[2], COURSES[1], COURSES[0]]
  {
    CourseIdsAreUnique();
    NewCoursesAreLastThreeReversed(COURSES);
  }

  /**
   * The callback a control fires, given the recently watched course; None when
   * the control is not on screen (the recent-course controls without a recent
   * course, "Start" with one, a card index past the list).
   */
  function Fire(catalog: seq<Course>, recentlyWatched: Option<Course>, control: Control): (r: Option<Callback>)
    requires catalog != []
    ensures r.Some? && r.value.OnCourseClick? ==>
      r.value.courseId == (if recentlyWatched.Some? then recentlyWatched.value.id else catalog[0].id)
    ensures r.Some? && r.value.OnCourseSelect? ==>
      exists i :: 0 <= i < |NewCourses(catalog)| && r.value.courseId == NewCourses(catalog)[i].id
    ensures r.Some? && r.value.OnSeeMore? <==> control.MoreButton?
  {
    match control
    case RecentThumbnail =>
      if recentlyWatched.Some? then Some(OnCourseClick(recentlyWatched.value.id)) else None
    case RecentContinue =>
      if recentlyWatched.Some? then Some(OnCourseClick(recentlyWatched.value.id)) else None
    case StartContinue =>
      if recentlyWatched.None? then Some(OnCourseClick(catalog[0].id)) else None
    case NewCourseCard(i) =>
      var shown := NewCourses(catalog);
      if i < |shown| then Some(OnCourseSelect(shown[i].id)) else None
    case MoreButton =>
      Some(OnSeeMore)
  }

  /**
   * Every continue control continues the recently watched course when there is
   * one and the first catalog course otherwise; new-course cards open (never
   * continue) the course they show.
   */
  lemma ContinueControlsTargetRecentOrFirst(recentlyWatched: Option<Course>)
    ensures recentlyWatched.Some? ==>
      Fire(COURSES, recentlyWatched, RecentThumbnail) == Fire(COURSES, recentlyWatched, RecentContinue)
        == Some(OnCourseClick(recentlyWatched.value.id))
    ensures recentlyWatched.None? ==>
      Fire(COURSES, recentlyWatched, StartContinue) == Some(OnCourseClick("practical-fiqh-101"))
    ensures forall i :: 0 <= i < 3 ==>
      Fire(COURSES, recentlyWatched, NewCourseCard(i)) == Some(OnCourseSelect(COURSES[2 - i].id))
  {
    NewCoursesOfCatalog();
    OnlyFirstCourseIsUnlocked();
  }
}
