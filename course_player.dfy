/**
 * The lesson player: which lesson it opens on, the lesson that comes next,
 * play/pause, and the confirm-then-animate flow that toggles a lesson's
 * completion flag on the player's own copy of that lesson.
 */
module CoursePlayer {
  import opened Wrappers
  import opened Types
  import opened JsBuiltins
  import opened Constants

  /** The command posted to the embedded video frame. */
  datatype Command = PlayVideo | PauseVideo

  /** `lessons.findIndex(l => l.id === id)`. */
  function LessonIndex(lessons: seq<Lesson>, id: string): int {
    FindIndex(lessons, (l: Lesson) => l.id == id)
  }

  /** `lessons.find(l => l.id === id)`. */
  function FindLesson(lessons: seq<Lesson>, id: string): (r: Option<Lesson>)
    ensures r.Some? <==> exists i :: 0 <= i < |lessons| && lessons[i].id == id
    ensures r.Some? ==> r.value.id == id && r.value == lessons[LessonIndex(lessons, id)]
  {
    Find(lessons, (l: Lesson) => l.id == id)
  }

  /**
   * The lesson the player opens on: the course lesson with the requested id
   * when that id is truthy and found, and the course's first lesson otherwise.
   */
  function InitialLesson(course: Course, initialLessonId: Option<string>): (r: Lesson)
    requires course.lessons != []
    ensures r in course.lessons
    ensures Truthy(initialLessonId) && FindLesson(course.lessons, initialLessonId.value).Some?
      ==> r.id == initialLessonId.value
    ensures !(Truthy(initialLessonId) && FindLesson(course.lessons, initialLessonId.value).Some?)
      ==> r == course.lessons[0]
  {
    if Truthy(initialLessonId) then
      match FindLesson(course.lessons, initialLessonId.value)
      case Some(found) => found
      case None => course.lessons[0]
    else
      course.lessons[0]
  }

  /**
   * The lesson after the active one: `lessons[i + 1]` where i is the index of
   * the active lesson's id (-1 when absent, which makes it the first lesson).
   */
  function NextLesson(lessons: seq<Lesson>, activeId: string): (r: Option<Lesson>)
    ensures r.Some? ==> r.value in lessons
  {
    var i := LessonIndex(lessons, activeId);
    if i + 1 < |lessons| then Some(lessons[i + 1]) else None
  }

  /** The number shown on the "Up Next" card: "Lesson i + 2". */
  function NextLessonNumber(lessons: seq<Lesson>, activeId: string): int {
    LessonIndex(lessons, activeId) + 2
  }

  /**
   * With distinct lesson ids, the lesson after the k-th is the (k+1)-th, absent
   * after the last one, and it is announced as lesson number k + 2 (counting
   * from one).
   */
  lemma NextLessonFollows(lessons: seq<Lesson>, k: nat)
    requires UniqueLessonIds(lessons)
    requires k < |lessons|
    ensures NextLesson(lessons, lessons[k].id) == if k + 1 < |lessons| then Some(lessons[k + 1]) else None
    ensures NextLessonNumber(lessons, lessons[k].id) == (k + 1) + 1
  {
    IndexOfDistinctId(lessons, k);
  }

  /** A lesson id that does not occur makes the first lesson "next" (findIndex gives -1). */
  lemma NextLessonOfUnknownId(lessons: seq<Lesson>, activeId: string)
    requires lessons != []
    requires forall i :: 0 <= i < |lessons| ==> lessons[i].id != activeId
    ensures NextLesson(lessons, activeId) == Some(lessons[0])
  {
  }

  /** With distinct ids, looking up the k-th lesson's id finds index k. */
  lemma IndexOfDistinctId(lessons: seq<Lesson>, k: nat)
    requires UniqueLessonIds(lessons)
    requires k < |lessons|
    ensures LessonIndex(lessons, lessons[k].id) == k
    ensures FindLesson(lessons, lessons[k].id) == Some(lessons[k])
  {
    var p := (l: Lesson) => l.id == lessons[k].id;
    assert p(lessons[k]);
  }

  /** The player's copy of a lesson with its completion flag flipped. */
  function Toggled(lesson: Lesson): (r: Lesson)
    ensures r.id == lesson.id && r.isCompleted != lesson.isCompleted
    ensures r.(isCompleted := lesson.isCompleted) == lesson
  {
    lesson.(isCompleted := !lesson.isCompleted)
  }

  /** The command for the current play state: pause when playing, play otherwise. */
  function CommandFor(isPlaying: bool): Command {
    if isPlaying then PauseVideo else PlayVideo
  }

  /**
   * A mounted player. `course` is the catalog entry of the selected course and
   * cannot change while the player is on screen; `initialLessonId` is the
   * last value of the prop of that name, kept to decide when the prop-change
   * effect runs.
   */
  class LessonPlayer {
    const course: Course
    var initialLessonId: Option<string>
    var activeLesson: Lesson
    var showCompleteModal: bool
    var isAnimating: bool
    var isPlaying: bool

    /** The active lesson is always one of the course's lesson ids; an animation runs only in the modal. */
    ghost predicate Valid()
      reads this
    {
      course.lessons != [] &&
      0 <= LessonIndex(course.lessons, activeLesson.id) &&
      (isAnimating ==> showCompleteModal)
    }

    /** Mounting: the initial lesson choice; modal closed, not animating, paused. */
    constructor (course: Course, initialLessonId: Option<string>)
      requires course.lessons != []
      ensures Valid()
      ensures this.course == course && this.initialLessonId == initialLessonId
      ensures activeLesson == InitialLesson(course, initialLessonId)
      ensures !showCompleteModal && !isAnimating && !isPlaying
    {
      this.course := course;
      this.initialLessonId := initialLessonId;
      activeLesson := InitialLesson(course, initialLessonId);
      showCompleteModal, isAnimating, isPlaying := false, false, false;
      new;
      InLessonsHasIndex(course.lessons, activeLesson);
    }

    /**
     * The prop-change effect. It runs only when the prop differs from its last
     * value; a truthy id that is found switches the active lesson to the
     * stored lesson and pauses, anything else leaves both as they were.
     */
    method ReceiveInitialLessonId(id: Option<string>)
      requires Valid()
      modifies this
      ensures Valid()
      ensures initialLessonId == id
      ensures showCompleteModal == old(showCompleteModal) && isAnimating == old(isAnimating)
      ensures id != old(initialLessonId) && Truthy(id) && FindLesson(course.lessons, id.value).Some? ==>
        activeLesson == FindLesson(course.lessons, id.value).value && !isPlaying
      ensures !(id != old(initialLessonId) && Truthy(id) && FindLesson(course.lessons, id.value).Some?) ==>
        activeLesson == old(activeLesson) && isPlaying == old(isPlaying)
    {
      if id != initialLessonId {
        initialLessonId := id;
        if Truthy(id) {
          var found := FindLesson(course.lessons, id.value);
          if found.Some? {
            activeLesson := found.value;
            isPlaying := false;
          }
        }
      }
    }

    /**
     * Play/pause: with the video frame present, posts pause when playing and
     * play otherwise, and flips `isPlaying`; without it nothing happens.
     */
    method PlayPause(frameReady: bool) returns (command: Option<Command>)
      requires Valid()
      modifies this
      ensures Valid()
      ensures frameReady ==> command == Some(CommandFor(old(isPlaying))) && isPlaying == !old(isPlaying)
      ensures !frameReady ==> command == None && isPlaying == old(isPlaying)
      ensures activeLesson == old(activeLesson) && initialLessonId == old(initialLessonId)
      ensures showCompleteModal == old(showCompleteModal) && isAnimating == old(isAnimating)
    {
      command := None;
      if frameReady {
        command := Some(if isPlaying then PauseVideo else PlayVideo);
        isPlaying := !isPlaying;
      }
    }

    /** The "Mark as Complete" / "Completed" button opens the confirmation modal. */
    method OpenCompleteModal()
      requires Valid()
      modifies this
      ensures Valid()
      ensures showCompleteModal
      ensures activeLesson == old(activeLesson) && isAnimating == old(isAnimating)
      ensures isPlaying == old(isPlaying) && initialLessonId == old(initialLessonId)
    {
      showCompleteModal := true;
    }

    /** "Cancel" (shown only while not animating) closes the modal and leaves the lesson untouched. */
    method CancelComplete()
      requires Valid() && showCompleteModal && !isAnimating
      modifies this
      ensures Valid()
      ensures !showCompleteModal
      ensures activeLesson == old(activeLesson) && isAnimating == old(isAnimating)
      ensures isPlaying == old(isPlaying) && initialLessonId == old(initialLessonId)
    {
      showCompleteModal := false;
    }

    /** A click on the backdrop closes the modal unless the animation is running. */
    method BackdropClick()
      requires Valid() && showCompleteModal
      modifies this
      ensures Valid()
      ensures showCompleteModal == old(isAnimating)
      ensures activeLesson == old(activeLesson) && isAnimating == old(isAnimating)
      ensures isPlaying == old(isPlaying) && initialLessonId == old(initialLessonId)
    {
      if !isAnimating {
        showCompleteModal := false;
      }
    }

    /** "Confirm" starts the animation and schedules the commit; the flag is not yet flipped. */
    method ConfirmComplete()
      requires Valid() && showCompleteModal && !isAnimating
      modifies this
      ensures Valid()
      ensures isAnimating && showCompleteModal
      ensures activeLesson == old(activeLesson)
      ensures isPlaying == old(isPlaying) && initialLessonId == old(initialLessonId)
    {
      isAnimating := true;
    }

    /**
     * The scheduled commit (the 1200 ms timer firing): flips the completion
     * flag of the player's copy of the active lesson, keeping its id, and
     * closes the modal. The course's own lesson list is not touched.
     */
    method CommitComplete()
      requires Valid() && isAnimating
      modifies this
      ensures Valid()
      ensures activeLesson == Toggled(old(activeLesson))
      ensures LessonIndex(course.lessons, activeLesson.id) == LessonIndex(course.lessons, old(activeLesson.id))
      ensures NextLesson(course.lessons, activeLesson.id) == NextLesson(course.lessons, old(activeLesson.id))
      ensures !isAnimating && !showCompleteModal
      ensures isPlaying == old(isPlaying) && initialLessonId == old(initialLessonId)
    {
      activeLesson := activeLesson.(isCompleted := !activeLesson.isCompleted);
      isAnimating := false;
      showCompleteModal := false;
    }

    /**
     * The "Up Next" card (shown only when there is a next lesson) makes the
     * stored next lesson active, which drops any toggle made on the player's
     * copy of the previous one.
     */
    method PlayNext()
      requires Valid() && NextLesson(course.lessons, activeLesson.id).Some?
      modifies this
      ensures Valid()
      ensures activeLesson == NextLesson(course.lessons, old(activeLesson.id)).value
      ensures activeLesson in course.lessons
      ensures showCompleteModal == old(showCompleteModal) && isAnimating == old(isAnimating)
      ensures isPlaying == old(isPlaying) && initialLessonId == old(initialLessonId)
    {
      var next := NextLesson(course.lessons, activeLesson.id);
      activeLesson := next.value;
      InLessonsHasIndex(course.lessons, activeLesson);
    }
  }

  /** A lesson of the list has an index under its own id. */
  lemma InLessonsHasIndex(lessons: seq<Lesson>, lesson: Lesson)
    requires lesson in lessons
    ensures 0 <= LessonIndex(lessons, lesson.id)
  {
    var k :| 0 <= k < |lessons| && lessons[k] == lesson;
    var p := (l: Lesson) => l.id == lesson.id;
    assert p(lessons[k]);
  }

  /**
   * Two confirmed toggles restore the original completion flag: open, confirm,
   * commit, twice over, leaves the active lesson as it was.
   */
  method ConfirmedToggleTwice(player: LessonPlayer)
    requires player.Valid() && !player.isAnimating
    modifies player
    ensures player.Valid()
    ensures player.activeLesson == old(player.activeLesson)
    ensures !player.showCompleteModal && !player.isAnimating
  {
    player.OpenCompleteModal();
    player.ConfirmComplete();
    player.CommitComplete();
    assert player.activeLesson.isCompleted != old(player.activeLesson.isCompleted);
    player.OpenCompleteModal();
    player.ConfirmComplete();
    player.CommitComplete();
  }
}
