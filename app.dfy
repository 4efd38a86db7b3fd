/**
 * The application shell: session and navigation state, the handlers that
 * change it, and the values derived from it for rendering.
 *
 * Handlers are React closures: each one sees the field values of the render
 * that created it, not values a handler it calls has just assigned. The pure
 * transition functions below take that render's values explicitly, and the
 * `AppState` class implements each handler and proves it equal to them.
 */
module App {
  import opened Wrappers
  import opened Types
  import opened JsBuiltins
  import opened Constants
  import Dashboard
  import CoursePlayer

  datatype Tab = Home | Courses | CourseDetail | Profile | Player

  /** What the root component renders, in the order it checks. */
  datatype Screen = LoadingScreen | LandingScreen | LoginScreen | MainScreen

  const SESSION_KEY: string := "kithademics_session"
  const RECENT_KEY: string := "kithademics_recent_course"
  const WHATSAPP_URL_PREFIX: string := "https://wa.me/1234567890?text="
  const PURCHASE_GREETING: string := "Assalamu Alaikum, I am interested in purchasing the course: \""
  const PURCHASE_CLOSING: string := "\". Please assist me."

  /** The tabs of the bottom navigation bar (the header offers two of them). */
  const NAV_TABS: seq<Tab> := [Home, Courses, Profile]

  /** The root component's state, with the browser's local storage as a string map. */
  datatype State = State(
    isAppLoading: bool,
    isLoggedIn: bool,
    showLanding: bool,
    activeTab: Tab,
    selectedCourseId: Option<string>,
    selectedLessonId: Option<string>,
    recentlyWatchedId: Option<string>,
    storage: map<string, string>)

  /** A handler's effect: the next state and, for a locked course, the purchase message it sends out. */
  datatype Step = Step(next: State, purchaseMessage: Option<string>)

  /** `localStorage.getItem`: the stored value, or null. */
  function GetItem(storage: map<string, string>, key: string): Option<string> {
    if key in storage then Some(storage[key]) else None
  }

  /** `COURSES.find(c => c.id === id)`. */
  function FindCourse(catalog: seq<Course>, id: string): (r: Option<Course>)
    ensures r.Some? <==> exists i :: 0 <= i < |catalog| && catalog[i].id == id
    ensures r.Some? ==> r.value in catalog && r.value.id == id
  {
    Find(catalog, (c: Course) => c.id == id)
  }

  /** The catalog has a course with this id and it is not locked. */
  predicate Opens(catalog: seq<Course>, id: string) {
    var course := FindCourse(catalog, id);
    course.Some? && !course.value.isLocked
  }

  /** The message pre-filled into the purchase chat for a locked course. */
  function PurchaseMessage(title: string): string {
    PURCHASE_GREETING + title + PURCHASE_CLOSING
  }

  /** The purchase message quotes the course title, right after the greeting. */
  lemma PurchaseMessageNamesCourse(title: string)
    ensures |PurchaseMessage(title)| == |PURCHASE_GREETING| + |title| + |PURCHASE_CLOSING|
    ensures PurchaseMessage(title)[|PURCHASE_GREETING|..|PURCHASE_GREETING| + |title|] == title
  {
  }

  /** The lesson "continue" resumes: the first one not completed, or else the first one. */
  function ResumeLesson(lessons: seq<Lesson>): (r: Lesson)
    requires lessons != []
    ensures r in lessons
    ensures (forall i :: 0 <= i < |lessons| ==> lessons[i].isCompleted) ==> r == lessons[0]
    ensures (exists i :: 0 <= i < |lessons| && !lessons[i].isCompleted) ==>
      exists k :: 0 <= k < |lessons| && lessons[k] == r && !r.isCompleted &&
        forall j :: 0 <= j < k ==> lessons[j].isCompleted
  {
    match Find(lessons, (l: Lesson) => !l.isCompleted)
    case Some(lesson) => lesson
    case None => lessons[0]
  }

  /** Start-up: the initial state, then the mount effect that restores the session from storage. */
  function Restored(storage: map<string, string>): (r: State)
    ensures r.isAppLoading && r.activeTab == Home && r.storage == storage
    ensures r.selectedCourseId.None? && r.selectedLessonId.None?
    ensures r.isLoggedIn != r.showLanding
  {
    var loggedIn := Truthy(GetItem(storage, SESSION_KEY));
    var savedRecent := GetItem(storage, RECENT_KEY);
    State(
      isAppLoading := true,
      isLoggedIn := loggedIn,
      showLanding := !loggedIn,
      activeTab := Home,
      selectedCourseId := None,
      selectedLessonId := None,
      recentlyWatchedId := if Truthy(savedRecent) then savedRecent else None,
      storage := storage)
  }

  /** `handleCourseClick(id)` seen from state `s`. */
  function CourseClicked(catalog: seq<Course>, s: State, id: string): (r: Step)
    ensures r.next.storage == s.storage && r.next.recentlyWatchedId == s.recentlyWatchedId
    ensures r.next.isLoggedIn == s.isLoggedIn && r.next.selectedLessonId == s.selectedLessonId
    ensures r.purchaseMessage.Some? ==> r.next == s
  {
    match FindCourse(catalog, id)
    case None => Step(s, None)
    case Some(course) =>
      if course.isLocked then Step(s, Some(PurchaseMessage(course.title)))
      else Step(s.(selectedCourseId := Some(id), activeTab := CourseDetail), None)
  }

  /**
   * `handlePlayLesson(lessonId)` applied to `s` by a closure whose render saw
   * `seen` as the selected course id.
   */
  function LessonPlayed(s: State, seen: Option<string>, lessonId: string): (r: State)
    ensures r.selectedCourseId == s.selectedCourseId && r.isLoggedIn == s.isLoggedIn
    ensures r.storage.Keys <= s.storage.Keys + {RECENT_KEY}
    ensures forall k :: k in s.storage && k != RECENT_KEY ==> k in r.storage && r.storage[k] == s.storage[k]
  {
    var playing := s.(selectedLessonId := Some(lessonId), activeTab := Player);
    if Truthy(seen) then
      playing.(recentlyWatchedId := seen, storage := playing.storage[RECENT_KEY := seen.value])
    else
      playing
  }

  /**
   * `handleContinueCourse(id)` seen from state `s`: the nested call to the play
   * handler still sees `s.selectedCourseId`, not `id`.
   */
  function CourseContinued(catalog: seq<Course>, s: State, id: string): (r: Step)
    requires WellFormedCatalog(catalog)
    ensures r.next.isLoggedIn == s.isLoggedIn && r.next.showLanding == s.showLanding
    ensures r.purchaseMessage.Some? ==> r.next == s
    ensures r.purchaseMessage.None? && r.next != s ==> r.next.activeTab == Player
  {
    match FindCourse(catalog, id)
    case None => Step(s, None)
    case Some(course) =>
      if course.isLocked then CourseClicked(catalog, s, id)
      else
        var lesson := ResumeLesson(course.lessons);
        Step(LessonPlayed(s.(selectedCourseId := Some(id)), s.selectedCourseId, lesson.id), None)
  }

  /**
   * The states the handlers can reach: the tabs with navigation have no course
   * selected, detail and player views have an owned course selected, and the
   * player has a lesson of that course selected.
   */
  predicate Consistent(catalog: seq<Course>, s: State) {
    (ShowNav(s.activeTab) ==> s.selectedCourseId.None?) &&
    (!ShowNav(s.activeTab) ==> s.selectedCourseId.Some? && Opens(catalog, s.selectedCourseId.value)) &&
    (s.activeTab == Player ==>
      s.selectedLessonId.Some? &&
      CoursePlayer.FindLesson(FindCourse(catalog, s.selectedCourseId.value).value.lessons,
                              s.selectedLessonId.value).Some?)
  }

  /** Header and bottom navigation are hidden exactly on the detail and player views. */
  function ShowNav(tab: Tab): (r: bool)
    ensures r <==> tab in NAV_TABS
  {
    tab != Player && tab != CourseDetail
  }

  function ScreenOf(s: State): (r: Screen)
    ensures r == MainScreen ==> s.isLoggedIn && !s.isAppLoading
  {
    if s.isAppLoading then LoadingScreen
    else if s.showLanding && !s.isLoggedIn then LandingScreen
    else if !s.isLoggedIn then LoginScreen
    else MainScreen
  }

  /** The course behind `recentlyWatchedId`: null when the id is falsy or matches no course. */
  function RecentlyWatchedCourse(catalog: seq<Course>, recentlyWatchedId: Option<string>): (r: Option<Course>)
    ensures r.Some? ==> Truthy(recentlyWatchedId) && r.value in catalog && r.value.id == recentlyWatchedId.value
    ensures r.None? <==>
      (!Truthy(recentlyWatchedId) || forall i :: 0 <= i < |catalog| ==> catalog[i].id != recentlyWatchedId.value)
  {
    if Truthy(recentlyWatchedId) then FindCourse(catalog, recentlyWatchedId.value) else None
  }

  /** "My Learning": the owned courses, in catalog order. */
  function MyCourses(catalog: seq<Course>): (r: seq<Course>)
    ensures forall i :: 0 <= i < |r| ==> r[i] in catalog && !r[i].isLocked
  {
    Filter(catalog, (c: Course) => !c.isLocked)
  }

  /** "Premium Courses": the locked ones, in catalog order. */
  function PaidCourses(catalog: seq<Course>): (r: seq<Course>)
    ensures forall i :: 0 <= i < |r| ==> r[i] in catalog && r[i].isLocked
  {
    Filter(catalog, (c: Course) => c.isLocked)
  }

  function CompletedLessons(course: Course): nat {
    |Filter(course.lessons, (l: Lesson) => l.isCompleted)|
  }

  /** `courses.reduce((acc, course) => acc + completed(course), 0)`, folding from the left. */
  function SumCompleted(courses: seq<Course>): (r: nat)
    ensures forall i :: 0 <= i < |courses| ==> CompletedLessons(courses[i]) <= r
  {
    if courses == [] then 0
    else SumCompleted(courses[..|courses| - 1]) + CompletedLessons(courses[|courses| - 1])
  }

  /** The profile's "Lessons" figure. */
  function ProfileLessonCount(catalog: seq<Course>): nat {
    SumCompleted(MyCourses(catalog))
  }

  /** Completed lessons over the whole catalog where a locked course contributes nothing. */
  function OwnedCompleted(catalog: seq<Course>): nat {
    if catalog == [] then 0
    else
      var last := catalog[|catalog| - 1];
      OwnedCompleted(catalog[..|catalog| - 1]) + (if last.isLocked then 0 else CompletedLessons(last))
  }

  // ----- Properties of the catalog views -----

  /** Owned and premium lists split the catalog: each course is in exactly the list its lock says. */
  lemma CatalogPartition(catalog: seq<Course>)
    ensures |MyCourses(catalog)| + |PaidCourses(catalog)| == |catalog|
    ensures forall i :: 0 <= i < |catalog| ==>
      (catalog[i] in MyCourses(catalog) <==> !catalog[i].isLocked) &&
      (catalog[i] in PaidCourses(catalog) <==> catalog[i].isLocked)
  {
    FilterSplits(catalog, (c: Course) => c.isLocked, (c: Course) => !c.isLocked);
  }

  /** Folding one more course adds its completed lessons. */
  lemma SumCompletedSnoc(courses: seq<Course>, last: Course)
    ensures SumCompleted(courses + [last]) == SumCompleted(courses) + CompletedLessons(last)
  {
    assert (courses + [last])[..|courses|] == courses;
  }

  /** The profile counts completed lessons of owned courses only. */
  lemma {:induction false} ProfileCountsOwnedOnly(catalog: seq<Course>)
    ensures ProfileLessonCount(catalog) == OwnedCompleted(catalog)
  {
    if catalog != [] {
      var init, last := catalog[..|catalog| - 1], catalog[|catalog| - 1];
      assert catalog == init + [last];
      var owns := (c: Course) => !c.isLocked;
      FilterDistributes(init, [last], owns);
      ProfileCountsOwnedOnly(init);
      if !last.isLocked {
        assert Filter([last], owns) == [last];
        SumCompletedSnoc(MyCourses(init), last);
      } else {
        assert Filter([last], owns) == [];
        assert MyCourses(init) + [] == MyCourses(init);
      }
    }
  }

  /** A catalog of locked courses owns nothing and sells everything. */
  lemma {:induction false} AllLockedIsAllPaid(catalog: seq<Course>)
    requires forall i :: 0 <= i < |catalog| ==> catalog[i].isLocked
    ensures MyCourses(catalog) == [] && PaidCourses(catalog) == catalog
  {
    if catalog != [] {
      AllLockedIsAllPaid(catalog[1..]);
      assert catalog == [catalog[0]] + catalog[1..];
    }
  }

  /** A catalog whose first course alone is unlocked owns that course and sells the rest. */
  lemma OnlyFirstOwned(catalog: seq<Course>)
    requires catalog != [] && !catalog[0].isLocked
    requires forall i :: 1 <= i < |catalog| ==> catalog[i].isLocked
    ensures MyCourses(catalog) == [catalog[0]] && PaidCourses(catalog) == catalog[1..]
    ensures ProfileLessonCount(catalog) == CompletedLessons(catalog[0])
  {
    var first, rest := catalog[0], catalog[1..];
    AllLockedIsAllPaid(rest);
    assert MyCourses(catalog) == [first] + MyCourses(rest);
    assert PaidCourses(catalog) == [] + PaidCourses(rest);
    SumCompletedSnoc([], first);
    assert [] + [first] == [first];
  }

  /** With the catalog as shipped: one owned course, two premium ones, two completed lessons. */
  lemma CatalogFigures()
    ensures MyCourses(COURSES) == [COURSES[0]] && PaidCourses(COURSES) == COURSES[1..]
    ensures ProfileLessonCount(COURSES) == 2
  {
    OnlyFirstCourseIsUnlocked();
    OnlyFirstOwned(COURSES);
    ProgressIsNotDerived();
  }

  // ----- Properties of the handlers -----

  /** An id the catalog does not know: click and continue change nothing and send nothing out. */
  lemma UnknownCourseIsIgnored(catalog: seq<Course>, s: State, id: string)
    requires WellFormedCatalog(catalog)
    requires forall i :: 0 <= i < |catalog| ==> catalog[i].id != id
    ensures CourseClicked(catalog, s, id) == Step(s, None)
    ensures CourseContinued(catalog, s, id) == Step(s, None)
  {
  }

  /**
   * A locked course: click and continue leave the whole state as it was and
   * send out one purchase message, which quotes the course title.
   */
  lemma LockedCourseRedirects(catalog: seq<Course>, s: State, id: string)
    requires WellFormedCatalog(catalog)
    requires FindCourse(catalog, id).Some? && FindCourse(catalog, id).value.isLocked
    ensures var title := FindCourse(catalog, id).value.title;
      CourseClicked(catalog, s, id) == CourseContinued(catalog, s, id) == Step(s, Some(PurchaseMessage(title))) &&
      PurchaseMessage(title)[|PURCHASE_GREETING|..|PURCHASE_GREETING| + |title|] == title
  {
    PurchaseMessageNamesCourse(FindCourse(catalog, id).value.title);
  }

  /** An owned course opens its detail view and nothing else changes. */
  lemma OwnedCourseOpensDetail(catalog: seq<Course>, s: State, id: string)
    requires Opens(catalog, id)
    ensures CourseClicked(catalog, s, id) ==
      Step(s.(selectedCourseId := Some(id), activeTab := CourseDetail), None)
  {
  }

  /**
   * Continuing an owned course selects it, opens the player on the lesson to
   * resume, and the player, lesson ids being distinct, starts on that lesson.
   */
  lemma ContinueResumesFirstIncomplete(catalog: seq<Course>, s: State, id: string)
    requires WellFormedCatalog(catalog) && Opens(catalog, id)
    ensures var course := FindCourse(catalog, id).value;
      var next := CourseContinued(catalog, s, id).next;
      course.lessons != [] &&
      CourseContinued(catalog, s, id).purchaseMessage == None &&
      next.activeTab == Player && next.selectedCourseId == Some(id) &&
      next.selectedLessonId == Some(ResumeLesson(course.lessons).id) &&
      CoursePlayer.InitialLesson(course, next.selectedLessonId) == ResumeLesson(course.lessons)
  {
    var course := FindCourse(catalog, id).value;
    var resume := ResumeLesson(course.lessons);
    var k :| 0 <= k < |course.lessons| && course.lessons[k] == resume;
    CoursePlayer.IndexOfDistinctId(course.lessons, k);
  }

  /** With the catalog as shipped, continuing `practical-fiqh-101` plays `l3`. */
  lemma ContinueFiqhPlaysL3(s: State)
    ensures WellFormedCatalog(COURSES) &&
      CourseContinued(COURSES, s, "practical-fiqh-101").next.selectedLessonId == Some("l3")
  {
    CoursesAreWellFormed();
    OnlyFirstCourseIsUnlocked();
    FirstIncompleteFiqhLessonIsL3();
    assert FindCourse(COURSES, "practical-fiqh-101") == Some(COURSES[0]);
  }

  /**
   * The play handler records a course as recently watched, in the state and in
   * storage, only when the course id its render saw is truthy, and then that id.
   */
  lemma PlayRecordsSeenCourse(s: State, seen: Option<string>, lessonId: string)
    ensures var next := LessonPlayed(s, seen, lessonId);
      next.selectedLessonId == Some(lessonId) && next.activeTab == Player &&
      next.selectedCourseId == s.selectedCourseId &&
      (Truthy(seen) ==> next.recentlyWatchedId == seen && next.storage == s.storage[RECENT_KEY := seen.value]) &&
      (!Truthy(seen) ==> next.recentlyWatchedId == s.recentlyWatchedId && next.storage == s.storage)
  {
  }

  /**
   * Playing a lesson from a course's detail view records that course, and a
   * restart restores it as the recently watched course.
   */
  lemma PlayFromDetailIsRemembered(catalog: seq<Course>, s: State, lessonId: string)
    requires WellFormedCatalog(catalog) && Consistent(catalog, s) && s.activeTab == CourseDetail
    ensures var next := LessonPlayed(s, s.selectedCourseId, lessonId);
      next.recentlyWatchedId == s.selectedCourseId &&
      Restored(next.storage).recentlyWatchedId == s.selectedCourseId
  {
  }

  /**
   * Continuing from the dashboard never records the continued course: there
   * the selection is always empty, and the play handler records the selection
   * its render saw, not the course just continued.
   */
  lemma ContinueFromDashboardKeepsRecent(catalog: seq<Course>, s: State, id: string)
    requires WellFormedCatalog(catalog) && Consistent(catalog, s) && s.activeTab == Home
    ensures CourseContinued(catalog, s, id).next.recentlyWatchedId == s.recentlyWatchedId
    ensures CourseContinued(catalog, s, id).next.storage == s.storage
  {
  }

  /** Logging out and restarting gives a signed-out session on the landing page, at home. */
  lemma LogoutThenRestartIsSignedOut(s: State)
    ensures var restarted := Restored(s.storage - {SESSION_KEY});
      !restarted.isLoggedIn && restarted.showLanding && restarted.activeTab == Home
    ensures GetItem(s.storage - {SESSION_KEY}, RECENT_KEY) == GetItem(s.storage, RECENT_KEY)
  {
  }

  /** Logging in and restarting restores the session exactly when the stored name is not empty. */
  lemma LoginThenRestartIsSignedIn(s: State, name: string)
    ensures Restored(s.storage[SESSION_KEY := name]).isLoggedIn <==> name != ""
    ensures Restored(s.storage[SESSION_KEY := name]).showLanding <==> name == ""
  {
  }

  /** Screen gating: loading first, then the landing page, then the login page, then the app. */
  lemma ScreenGating(s: State)
    ensures ScreenOf(s) == LoadingScreen <==> s.isAppLoading
    ensures ScreenOf(s) == LandingScreen <==> !s.isAppLoading && s.showLanding && !s.isLoggedIn
    ensures ScreenOf(s) == LoginScreen <==> !s.isAppLoading && !s.showLanding && !s.isLoggedIn
    ensures ScreenOf(s) == MainScreen <==> !s.isAppLoading && s.isLoggedIn
  {
  }

  // ----- Reachable states are consistent -----

  lemma RestoredIsConsistent(catalog: seq<Course>, storage: map<string, string>)
    ensures Consistent(catalog, Restored(storage))
  {
  }

  lemma CourseClickedKeepsConsistent(catalog: seq<Course>, s: State, id: string)
    requires Consistent(catalog, s)
    ensures Consistent(catalog, CourseClicked(catalog, s, id).next)
  {
  }

  lemma CourseContinuedKeepsConsistent(catalog: seq<Course>, s: State, id: string)
    requires WellFormedCatalog(catalog) && Consistent(catalog, s)
    ensures Consistent(catalog, CourseContinued(catalog, s, id).next)
  {
    if Opens(catalog, id) {
      var course := FindCourse(catalog, id).value;
      var resume := ResumeLesson(course.lessons);
      var k :| 0 <= k < |course.lessons| && course.lessons[k] == resume;
      assert course.lessons[k].id == resume.id;
    }
  }

  // ----- The root component -----

  /** A purchase link opened in a new window: the URL and the message it carries. */
  datatype Redirect = Redirect(url: string, message: string)

  class AppState {
    /** The course catalog the screens read. */
    const catalog: seq<Course>
    var isAppLoading: bool
    var isLoggedIn: bool
    var showLanding: bool
    var activeTab: Tab
    var selectedCourseId: Option<string>
    var selectedLessonId: Option<string>
    var recentlyWatchedId: Option<string>
    var storage: map<string, string>
    /** The purchase links opened so far, oldest first. */
    ghost var redirects: seq<Redirect>
    /** `encodeURIComponent`, left uninterpreted. */
    const encodeUri: string -> string

    ghost function Snapshot(): State
      reads this
    {
      State(isAppLoading, isLoggedIn, showLanding, activeTab,
            selectedCourseId, selectedLessonId, recentlyWatchedId, storage)
    }

    ghost predicate Valid()
      reads this
    {
      WellFormedCatalog(catalog) && Consistent(catalog, Snapshot())
    }

    /** The links a step opens: one for a purchase message, none otherwise. */
    function Opened(purchaseMessage: Option<string>): seq<Redirect> {
      match purchaseMessage
      case None => []
      case Some(message) => [Redirect(WHATSAPP_URL_PREFIX + encodeUri(message), message)]
    }

    /** Mounting the app with what storage holds, then the restore effect. */
    constructor (savedStorage: map<string, string>, encodeUri: string -> string)
      ensures Valid()
      ensures catalog == COURSES && Snapshot() == Restored(savedStorage)
      ensures redirects == [] && this.encodeUri == encodeUri
    {
      catalog := COURSES;
      isAppLoading, isLoggedIn, showLanding, activeTab := true, false, true, Home;
      selectedCourseId, selectedLessonId, recentlyWatchedId := None, None, None;
      storage := savedStorage;
      redirects := [];
      this.encodeUri := encodeUri;
      new;
      var savedSession := GetItem(storage, SESSION_KEY);
      var savedRecent := GetItem(storage, RECENT_KEY);
      if Truthy(savedSession) {
        isLoggedIn := true;
        showLanding := false;
      }
      if Truthy(savedRecent) {
        recentlyWatchedId := savedRecent;
      }
      CoursesAreWellFormed();
      RestoredIsConsistent(catalog, savedStorage);
    }

    /** The start-up timer firing: loading ends. */
    method FinishLoading()
      requires Valid()
      modifies this
      ensures Valid()
      ensures Snapshot() == old(Snapshot()).(isAppLoading := false) && redirects == old(redirects)
    {
      isAppLoading := false;
    }

    /** "Get started" on the landing page. */
    method GetStarted()
      requires Valid()
      modifies this
      ensures Valid()
      ensures Snapshot() == old(Snapshot()).(showLanding := false) && redirects == old(redirects)
    {
      showLanding := false;
    }

    /** Login: signed in, landing hidden, the display name stored under the session key. */
    method Login(name: string)
      requires Valid()
      modifies this
      ensures Valid()
      ensures Snapshot() == old(Snapshot()).(isLoggedIn := true, showLanding := false,
                                             storage := old(storage)[SESSION_KEY := name])
      ensures redirects == old(redirects)
    {
      isLoggedIn := true;
      showLanding := false;
      storage := storage[SESSION_KEY := name];
    }

    /**
     * "Sign Out" (on the profile view): signed out, landing shown, home tab, and
     * only the session key removed; the selections, the recently watched course
     * and its storage key are kept.
     */
    method Logout()
      requires Valid() && activeTab == Profile
      modifies this
      ensures Valid()
      ensures Snapshot() == old(Snapshot()).(isLoggedIn := false, showLanding := true,
                                             storage := old(storage) - {SESSION_KEY}, activeTab := Home)
      ensures redirects == old(redirects)
    {
      isLoggedIn := false;
      showLanding := true;
      storage := storage - {SESSION_KEY};
      activeTab := Home;
    }

    /** `handleCourseClick`: open an owned course, or send a locked one to the purchase chat. */
    method CourseClick(id: string)
      requires Valid() && ShowNav(activeTab)
      modifies this
      ensures Valid()
      ensures var step := CourseClicked(catalog, old(Snapshot()), id);
        Snapshot() == step.next && redirects == old(redirects) + Opened(step.purchaseMessage)
    {
      CourseClickedKeepsConsistent(catalog, Snapshot(), id);
      var found := FindCourse(catalog, id);
      if found.None? {
        return;
      }
      var course := found.value;
      if course.isLocked {
        var message := PurchaseMessage(course.title);
        var url := WHATSAPP_URL_PREFIX + encodeUri(message);
        redirects := redirects + [Redirect(url, message)];
        return;
      }
      selectedCourseId := Some(id);
      activeTab := CourseDetail;
    }

    /**
     * The body of `handlePlayLesson` as run by a closure whose render saw
     * `seen` as the selected course id.
     */
    method PlayLessonAsSeen(seen: Option<string>, lessonId: string)
      modifies this
      ensures Snapshot() == LessonPlayed(old(Snapshot()), seen, lessonId) && redirects == old(redirects)
    {
      selectedLessonId := Some(lessonId);
      activeTab := Player;
      if seen.Some? && seen.value != "" {
        recentlyWatchedId := seen;
        storage := storage[RECENT_KEY := seen.value];
      }
    }

    /** `handlePlayLesson`, fired from the detail view with one of the selected course's lessons. */
    method PlayLesson(lessonId: string)
      requires Valid() && activeTab == CourseDetail
      requires CoursePlayer.FindLesson(FindCourse(catalog, selectedCourseId.value).value.lessons, lessonId).Some?
      modifies this
      ensures Valid()
      ensures Snapshot() == LessonPlayed(old(Snapshot()), old(selectedCourseId), lessonId)
      ensures redirects == old(redirects)
    {
      PlayLessonAsSeen(selectedCourseId, lessonId);
    }

    /**
     * `handleContinueCourse`: an owned course is selected and its resume lesson
     * played by the play handler of the same render, which still sees the
     * previous selection; a locked course goes to the click handler.
     */
    method ContinueCourse(id: string)
      requires Valid() && activeTab == Home
      modifies this
      ensures Valid()
      ensures var step := CourseContinued(catalog, old(Snapshot()), id);
        Snapshot() == step.next && redirects == old(redirects) + Opened(step.purchaseMessage)
      ensures recentlyWatchedId == old(recentlyWatchedId) && storage == old(storage)
    {
      CourseContinuedKeepsConsistent(catalog, Snapshot(), id);
      ContinueFromDashboardKeepsRecent(catalog, Snapshot(), id);
      var found := FindCourse(catalog, id);
      if found.None? {
        return;
      }
      var course := found.value;
      if course.isLocked {
        CourseClick(id);
        return;
      }
      var seen := selectedCourseId;
      selectedCourseId := Some(id);
      var lesson := ResumeLesson(course.lessons);
      PlayLessonAsSeen(seen, lesson.id);
    }

    /** Back from the detail view: no course selected, home tab. */
    method BackToDashboard()
      requires Valid() && activeTab == CourseDetail
      modifies this
      ensures Valid()
      ensures Snapshot() == old(Snapshot()).(selectedCourseId := None, activeTab := Home)
      ensures redirects == old(redirects)
    {
      selectedCourseId := None;
      activeTab := Home;
    }

    /** Back from the player: the detail view of the same course. */
    method BackToDetail()
      requires Valid() && activeTab == Player
      modifies this
      ensures Valid()
      ensures Snapshot() == old(Snapshot()).(activeTab := CourseDetail) && redirects == old(redirects)
    {
      activeTab := CourseDetail;
    }

    /** "More" on the dashboard: the course library. */
    method SeeMoreCourses()
      requires Valid() && activeTab == Home
      modifies this
      ensures Valid()
      ensures Snapshot() == old(Snapshot()).(activeTab := Courses) && redirects == old(redirects)
    {
      activeTab := Courses;
    }

    /** A header or bottom-navigation button, shown only on the tabs with navigation. */
    method NavClick(tab: Tab)
      requires Valid() && ShowNav(activeTab) && tab in NAV_TABS
      modifies this
      ensures Valid()
      ensures Snapshot() == old(Snapshot()).(activeTab := tab) && redirects == old(redirects)
    {
      activeTab := tab;
    }

    /**
     * A dashboard control clicked on the home tab: the callback the dashboard
     * fires for it, dispatched as wired: continue to the continue handler,
     * select to the click handler, "More" to see-more.
     */
    method OnDashboard(control: Dashboard.Control)
      requires Valid() && activeTab == Home
      requires Dashboard.Fire(catalog, RecentlyWatchedCourse(catalog, recentlyWatchedId), control).Some?
      modifies this
      ensures Valid()
      ensures var callback := Dashboard.Fire(catalog, RecentlyWatchedCourse(catalog, old(recentlyWatchedId)), control).value;
        (callback.OnCourseClick? ==>
          var step := CourseContinued(catalog, old(Snapshot()), callback.courseId);
          Snapshot() == step.next && redirects == old(redirects) + Opened(step.purchaseMessage)) &&
        (callback.OnCourseSelect? ==>
          var step := CourseClicked(catalog, old(Snapshot()), callback.courseId);
          Snapshot() == step.next && redirects == old(redirects) + Opened(step.purchaseMessage)) &&
        (callback.OnSeeMore? ==>
          Snapshot() == old(Snapshot()).(activeTab := Courses) && redirects == old(redirects))
    {
      var callback := Dashboard.Fire(catalog, RecentlyWatchedCourse(catalog, recentlyWatchedId), control).value;
      match callback
      case OnCourseClick(id) => ContinueCourse(id);
      case OnCourseSelect(id) => CourseClick(id);
      case OnSeeMore => SeeMoreCourses();
    }
  }
}
