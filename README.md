# Kithademics client: a Dafny model of its state machines

Kithademics is a single-page e-learning client written in React. Most of it
renders things. This project models the logic under the rendering:

- **Navigation and session** (module `App`). The root component's state:
  loading, logged in, landing shown, active tab, selected course and lesson,
  and the recently watched course. Browser local storage is a string map.
  Each handler is a method of the class `App.AppState`, and each is proved
  equal to a pure transition function of the state the handler's render
  saw. The module also holds the values derived for rendering: screen
  gating, navigation visibility, the recently watched lookup, and the
  owned/premium lists with the profile's lesson count.
- **Lesson player** (module `CoursePlayer`, class `LessonPlayer`). The
  initial lesson, the prop-change effect, play/pause, the next lesson by
  index, and the confirm-to-toggle-completion flow with its modal.
- **Course catalog** (module `Constants`). The three-course fixture, and
  the structural facts the screens depend on.
- **Dashboard** (module `Dashboard`). The "new courses" list, and which
  callback each control fires with which course id.
- **Study assistant chat** (module `AIAssistant`, class `Assistant`). The
  transcript, the input box and the loading flag across one send.
- The JavaScript library behaviour these rely on is written out in
  `JsBuiltins`: `find`, `findIndex`, `filter`, `reverse`, `trim` with the
  ECMAScript white-space set, and truthiness of a string.

React handlers read state as it was when their render ran. The model keeps
that. `handleContinueCourse` selects a course and then calls the play
handler of the same render. That handler still sees the old selection, so
it records the old selection as recently watched, not the continued course.

The model also proves that on the home, courses and profile tabs no course
is ever selected (`App.Consistent`). A dashboard "Continue" therefore never
updates the recently watched course (`App.ContinueFromDashboardKeepsRecent`).
Only playing a lesson from a course's detail page records it
(`App.PlayFromDetailIsRemembered`).

Four behaviours of the code are easy to miss; the model keeps them as
written:

- Logout removes only the session key. It keeps the selected course and
  lesson, the recently watched course and its storage key.
- Continue records the previously selected course, as above, not the
  course being played.
- A chat request that throws appends nothing to the transcript. The
  service wrapper catches its own errors and returns fallback text. The
  model treats that text as an ordinary reply (`Complete`).
- For an active lesson id missing from the course, `findIndex` gives -1, so
  the "next" lesson is the first one (`CoursePlayer.NextLessonOfUnknownId`).

The handlers of `App.AppState` are stated against the pure functions.
Those functions take the catalog as a parameter (`catalog`). The class's
constant `catalog` is the fixture `Constants.COURSES`, and `Valid()` carries
`Constants.WellFormedCatalog` for it.

## Model

| member | source | states |
|---|---|---|
| JsBuiltins.FindIndex | pages/CoursePlayer.tsx:66 | `findIndex`: -1 exactly when no element matches, otherwise the first matching index |
| JsBuiltins.Find | App.tsx:57 | `find`: a value exactly when some element matches, and then the element at the first matching index |
| JsBuiltins.Filter | App.tsx:178 | `filter`: only elements of the input that match, every matching element present, never longer than the input |
| JsBuiltins.FilterKeepsMultiplicity | App.tsx:178 | `filter` keeps each matching element exactly as many times as it occurs in the input, and drops the others |
| JsBuiltins.FilterDistributes | App.tsx:291-292 | filtering a concatenation concatenates the filtered parts, so filters keep catalog order |
| JsBuiltins.FilterSplits | App.tsx:291-292 | a predicate's filter and its negation's filter together have as many elements as the input |
| JsBuiltins.Reverse | pages/Dashboard.tsx:17 | `reverse` of a copy: same length, the i-th element is the i-th from the back |
| JsBuiltins.Trim | components/AIAssistant.tsx:20 | `trim()`: white space removed from both ends, never longer than the input |
| JsBuiltins.TrimEmptyIffBlank | components/AIAssistant.tsx:20 | `trim()` is empty exactly when every character is ECMAScript white space |
| Constants.CourseIdsAreUnique | constants.tsx:4-140 | there are three courses and their ids (lines 6, 59, 96) are pairwise distinct |
| Constants.LessonIdsAreUnique | constants.tsx:4-140 | lesson ids are distinct within each course and never empty, in all three lesson lists |
| Constants.LessonsAreNonEmpty | constants.tsx:4-140 | every course has at least one lesson and a non-empty id |
| Constants.CoursesAreWellFormed | constants.tsx:4-140 | the fixture meets everything the screens rely on: a first course, unique non-empty ids, non-empty lesson lists |
| Constants.ProgressIsAPercentage | constants.tsx:4-140 | every course's progress (lines 12, 65, 102) lies in 0..100 |
| Constants.OnlyFirstCourseIsUnlocked | constants.tsx:4-140 | `practical-fiqh-101` comes first and is the only unlocked course (lock flags at lines 14, 67, 104) |
| Constants.FirstIncompleteFiqhLessonIsL3 | constants.tsx:20-36 | the first lesson of `practical-fiqh-101` not completed is the third, `l3` |
| Constants.ProgressIsNotDerived | constants.tsx:12 | progress is stored: 45 while 2 of 5 lessons (40 percent) are completed |
| Dashboard.NewCourses | pages/Dashboard.tsx:17 | `[...COURSES].reverse().slice(0, 3)`: at most three catalog courses |
| Dashboard.NewCoursesAreLastThreeReversed | pages/Dashboard.tsx:17 | the new-courses list has min(3, catalog size) entries, the i-th being the catalog's i-th from the back |
| Dashboard.NewCoursesOfCatalog | pages/Dashboard.tsx:17 | with the shipped catalog the dashboard lists its three courses back to front |
| Dashboard.Fire | pages/Dashboard.tsx:90-136 | continue fires with the recent course or else the catalog's first course; select only with a listed new course; see-more exactly from "More" |
| Dashboard.ContinueControlsTargetRecentOrFirst | pages/Dashboard.tsx:65-111 | thumbnail and Continue both continue the recent course; without one Continue continues `practical-fiqh-101`; card i selects course 2-i |
| CoursePlayer.FindLesson | pages/CoursePlayer.tsx:14 | the lesson with the id when one exists, and the first such lesson |
| CoursePlayer.InitialLesson | pages/CoursePlayer.tsx:12-18 | the initial lesson belongs to the course: the one with the given id when that id is truthy and found, else the first lesson |
| CoursePlayer.NextLesson | pages/CoursePlayer.tsx:66-67 | the lesson after the active one's index, when there is one, is a lesson of the course |
| CoursePlayer.NextLessonFollows | pages/CoursePlayer.tsx:66-67 | with distinct ids, the lesson after the k-th is the (k+1)-th, absent after the last, and is labelled k+2 |
| CoursePlayer.NextLessonOfUnknownId | pages/CoursePlayer.tsx:66-67 | an id not in the course gives index -1, so the next lesson is the first |
| CoursePlayer.IndexOfDistinctId | pages/CoursePlayer.tsx:66 | with distinct ids, looking up the k-th lesson's id finds index k and that lesson |
| CoursePlayer.Toggled | pages/CoursePlayer.tsx:56-59 | the toggled copy keeps the id and every field but the completion flag, which flips |
| CoursePlayer.LessonPlayer.constructor | pages/CoursePlayer.tsx:12-25 | the player starts on the initial lesson with the modal closed, not animating, paused |
| CoursePlayer.LessonPlayer.ReceiveInitialLessonId | pages/CoursePlayer.tsx:28-36 | a changed, truthy and found id switches to the stored lesson and pauses; otherwise lesson and playing state stay |
| CoursePlayer.LessonPlayer.PlayPause | pages/CoursePlayer.tsx:39-49 | with the frame present posts pause when playing and play otherwise, and flips playing; without it changes nothing |
| CoursePlayer.LessonPlayer.OpenCompleteModal | pages/CoursePlayer.tsx:171 | the modal opens and nothing else changes |
| CoursePlayer.LessonPlayer.CancelComplete | pages/CoursePlayer.tsx:286 | cancel closes the modal and leaves the lesson and its flag untouched |
| CoursePlayer.LessonPlayer.BackdropClick | pages/CoursePlayer.tsx:259 | the backdrop closes the modal exactly when no animation is running |
| CoursePlayer.LessonPlayer.ConfirmComplete | pages/CoursePlayer.tsx:52-54 | confirm starts the animation with the modal still open and the flag not yet flipped |
| CoursePlayer.LessonPlayer.CommitComplete | pages/CoursePlayer.tsx:55-62 | the commit flips the flag of the player's copy once and closes the modal; its index and next lesson stay the same |
| CoursePlayer.LessonPlayer.PlayNext | pages/CoursePlayer.tsx:227 | Up Next makes the course's stored next lesson active, dropping any local toggle |
| CoursePlayer.ConfirmedToggleTwice | pages/CoursePlayer.tsx:52-63 | two confirmed toggles give back the original active lesson |
| App.Restored | App.tsx:15-37 | start-up state: loading, home tab, nothing selected, storage as found, and exactly one of signed in and landing shown |
| App.CourseClicked | App.tsx:56-70 | the click transition never touches storage, the session, the recent course or the lesson selection; a purchase message leaves the state as it was |
| App.LessonPlayed | App.tsx:73-82 | the play transition keeps the course selection and the session, and changes no storage key but the recent-course key |
| App.CourseContinued | App.tsx:85-99 | the continue transition keeps the session; a purchase message leaves the state as it was, any other change opens the player |
| App.ScreenOf | App.tsx:114-124 | the main app shows only when signed in and done loading |
| App.FindCourse | App.tsx:57 | a course exactly when the catalog has one with the id, and then a catalog course with that id |
| App.ResumeLesson | App.tsx:97 | the first lesson not completed, or the first lesson when all are completed |
| App.ShowNav | App.tsx:350 | header and navigation show exactly on the home, courses and profile tabs |
| App.RecentlyWatchedCourse | App.tsx:126-128 | a catalog course with the recent id; null when the id is falsy or matches no course |
| App.PurchaseMessageNamesCourse | App.tsx:62 | the purchase message quotes the course title right after the greeting |
| App.MyCourses | App.tsx:178 | the owned list holds only unlocked catalog courses |
| App.PaidCourses | App.tsx:292 | the premium list holds only locked catalog courses |
| App.SumCompleted | App.tsx:179 | the reduce is at least the completed-lesson count of each course it folds |
| App.CatalogPartition | App.tsx:291-292 | owned and premium lists together are as long as the catalog; each course is in the list its lock says |
| App.ProfileCountsOwnedOnly | App.tsx:178-179 | the profile's lesson figure is the completed lessons summed over unlocked courses only |
| App.AllLockedIsAllPaid | App.tsx:291-292 | a catalog of locked courses owns nothing and sells all of them, in order |
| App.SumCompletedSnoc | App.tsx:179 | the reduce adds one more course's completed lessons for each course folded in |
| App.OnlyFirstOwned | App.tsx:291-292 | when only the first course is unlocked, it alone is owned, the rest are premium in order, and the profile counts its completed lessons |
| App.CatalogFigures | App.tsx:178-179 | with the shipped catalog: owned is the first course, premium the other two, two completed lessons |
| App.UnknownCourseIsIgnored | App.tsx:57-58 | click or continue with an unknown id changes no state and sends nothing |
| App.LockedCourseRedirects | App.tsx:60-66 | click or continue on a locked course changes no state and sends one purchase message quoting the title |
| App.OwnedCourseOpensDetail | App.tsx:68-69 | clicking an owned course selects it and opens its detail view, nothing else |
| App.ContinueResumesFirstIncomplete | App.tsx:85-98 | continue selects the course and opens the player on the first incomplete lesson, which the player then starts on |
| App.ContinueFiqhPlaysL3 | App.tsx:95-98 | continuing `practical-fiqh-101` plays `l3` |
| App.PlayRecordsSeenCourse | App.tsx:73-82 | playing records a recent course in state and storage only when the render's selection was truthy, and then that selection |
| App.PlayFromDetailIsRemembered | App.tsx:372 | playing from a detail view records that course and a restart restores it |
| App.ContinueFromDashboardKeepsRecent | App.tsx:95-98 | continuing from the dashboard leaves the recent course and storage unchanged |
| App.LogoutThenRestartIsSignedOut | App.tsx:48-53 | after logout a restart is signed out on the landing page, and the recent-course entry survives |
| App.LoginThenRestartIsSignedIn | App.tsx:29-45 | after login a restart is signed in exactly when the stored name is non-empty |
| App.ScreenGating | App.tsx:114-124 | loading first, then landing when shown and signed out, then login, then the main app |
| App.RestoredIsConsistent | App.tsx:15-37 | the start-up state is consistent |
| App.CourseClickedKeepsConsistent | App.tsx:56-70 | clicking a course keeps the state consistent |
| App.CourseContinuedKeepsConsistent | App.tsx:85-99 | continuing a course keeps the state consistent |
| App.AppState.constructor | App.tsx:23-40 | mounting restores a signed-in session from a non-empty session value and the recent course from a non-empty recent value |
| App.AppState.FinishLoading | App.tsx:25-27 | the load timer ends loading and nothing else |
| App.AppState.GetStarted | App.tsx:119 | "get started" hides the landing page and nothing else |
| App.AppState.Login | App.tsx:42-46 | login signs in, hides landing and stores the name under the session key |
| App.AppState.Logout | App.tsx:48-53 | logout signs out, shows landing, goes home and removes only the session key |
| App.AppState.CourseClick | App.tsx:56-70 | from a tab with navigation (dashboard cards, library, profile), the click transition, with one purchase link to the WhatsApp URL and the encoded message for a locked course |
| App.AppState.PlayLessonAsSeen | App.tsx:73-82 | the play handler's body for a closure that saw a given selection |
| App.AppState.PlayLesson | App.tsx:73-82 | playing from the detail view records the course its render had selected |
| App.AppState.ContinueCourse | App.tsx:85-99 | from the home tab, the continue transition, with the play step seeing the previous selection; the recent course and storage stay as they were |
| App.AppState.BackToDashboard | App.tsx:101-104 | back from the detail view clears the selection and goes home |
| App.AppState.BackToDetail | App.tsx:106-108 | back from the player changes only the tab |
| App.AppState.SeeMoreCourses | App.tsx:110-112 | "More" changes only the tab, to courses |
| App.AppState.NavClick | App.tsx:161 | header and bottom-nav buttons change only the tab |
| App.AppState.OnDashboard | App.tsx:358-363 | a dashboard control fires the callback the dashboard gives it; continue goes to the continue handler, select to the click handler, more to see-more |
| AIAssistant.CanSend | components/AIAssistant.tsx:20 | the send guard passes only when not loading and the input is not empty |
| AIAssistant.CanSendIffVisibleInput | components/AIAssistant.tsx:20 | a send goes out exactly when nothing is loading and the input has a non-white-space character |
| AIAssistant.ExchangeAppendsOnly | components/AIAssistant.tsx:23-30 | an exchange keeps the transcript as a prefix, then the user's text, then the reply if any |
| AIAssistant.Assistant.constructor | components/AIAssistant.tsx:8-10 | the chat starts empty, with empty input, not loading |
| AIAssistant.Assistant.SetInput | components/AIAssistant.tsx:127 | typing sets the input and nothing else |
| AIAssistant.Assistant.BeginSend | components/AIAssistant.tsx:19-28 | a guarded send appends the user message, clears input, sets loading and requests with the old transcript and input |
| AIAssistant.Assistant.Complete | components/AIAssistant.tsx:29-34 | a reply appends exactly one model message and ends loading |
| AIAssistant.Assistant.Fail | components/AIAssistant.tsx:31-34 | a thrown request appends nothing and ends loading |
| AIAssistant.Send | components/AIAssistant.tsx:19-36 | a whole send from idle leaves the transcript as the exchange of the typed input and its outcome |

## Left out

- `encodeURIComponent` is an uninterpreted function supplied to
  `App.AppState`. Its percent-encoding (section 2.1 of RFC 3986, over
  UTF-8) is not modelled.
- `window.open` is not modelled. The opened links go into the ghost log
  `redirects` instead.
- `localStorage` is modelled only as a map. Storage failures and quota
  limits are not.
- The timers are step methods, with no real time:
  - the 2500 ms start-up load is `FinishLoading`;
  - the 1200 ms completion animation is `CommitComplete`;
  - the 1000 ms mock login becomes the `Login(name)` call itself.
- The clean-up that clears the load timer on unmount is not modelled.
- The YouTube iframe, `postMessage` and the embed URL are not modelled.
  Only the chosen command is kept, and whether the frame is there is the
  `frameReady` parameter.
- The chat service is not modelled: it is a wrapper over a network SDK
  with a floating-point temperature. Its reply, or its failure, is the
  caller's argument.
- The assistant's `isOpen` flag and its scroll effect only show or hide
  the panel, so they are not modelled.
- The login, landing, footer and loading pages are not modelled. The login
  page only passes a fixed display name to `Login`.
- The sidebar is not modelled: it is not mounted.
- CourseCard and the CourseDetail page are not modelled. They only render;
  the detail page's lesson buttons are `PlayLesson` with one of the
  course's lesson ids.
- The profile's display name and avatar read storage only for display, so
  they are not modelled.
- Rendering and styling are not modelled.
- App.AppState handlers do not require the main screen to be showing.
  Where the source shows a control only on some tabs, the handler requires
  one of those tabs; the screen itself is not a precondition.
