/**
 * The course catalog: a static fixture, read-only for the lifetime of the
 * process, and the structural facts about it that the handlers rely on.
 */
module Constants {
  import opened Wrappers
  import opened Types
  import opened JsBuiltins

  const COURSES: seq<Course> := [
    Course(
      id := "practical-fiqh-101",
      title := "Practical Fiqh: Acts of Worship",
      instructor := "Shaykh Dr. Ahmad Ibrahim",
      category := "Fiqh",
      description := "A comprehensive study of the pillars of Islam, focusing on the practical application of Taharah, Salah, Zakat, and Sawm in daily life.",
      thumbnail := "https://images.unsplash.com/photo-1542810634-71277d95dcbb?auto=format&fit=crop&q=80&w=800",
      progress := 45,
      price := "Purchased",
      isLocked := false,
      lessons := [
        Lesson(id := "l1", title := "Introduction to Islamic Jurisprudence", duration := "12:45", isCompleted := true,
          videoUrl := "https://sample-videos.com/video123/mp4/720/big_buck_bunny_720p_1mb.mp4",
          thumbnail := Some("https://images.unsplash.com/photo-1532012197267-da84d127e765?auto=format&fit=crop&q=80&w=300")),
        Lesson(id := "l2", title := "The Essentials of Purification (Taharah)", duration := "24:10", isCompleted := true,
          videoUrl := "https://sample-videos.com/video123/mp4/720/big_buck_bunny_720p_1mb.mp4",
          thumbnail := Some("https://images.unsplash.com/photo-1555848962-6e79363ec58f?auto=format&fit=crop&q=80&w=300")),
        Lesson(id := "l3", title := "Conditions and Pillars of Salah", duration := "35:20", isCompleted := false,
          videoUrl := "https://sample-videos.com/video123/mp4/720/big_buck_bunny_720p_1mb.mp4",
          thumbnail := Some("https://images.unsplash.com/photo-1564121211835-e88c852648ab?auto=format&fit=crop&q=80&w=300")),
        Lesson(id := "l4", title := "The Mechanics of Prayer: A Step-by-Step Guide", duration := "42:15", isCompleted := false,
          videoUrl := "https://sample-videos.com/video123/mp4/720/big_buck_bunny_720p_1mb.mp4",
          thumbnail := Some("https://images.unsplash.com/photo-1519817650390-64a93db51149?auto=format&fit=crop&q=80&w=300")),
        Lesson(id := "l5", title := "Understanding Zakat: Calculation and Recipients", duration := "28:30", isCompleted := false,
          videoUrl := "https://sample-videos.com/video123/mp4/720/big_buck_bunny_720p_1mb.mp4",
          thumbnail := Some("https://images.unsplash.com/photo-1550592704-6c76fc9535e4?auto=format&fit=crop&q=80&w=300"))
      ]),
    Course(
      id := "aqidah-foundations",
      title := "Foundations of Aqidah",
      instructor := "Ustadh Muhammad Ali",
      category := "Theology",
      description := "Exploring the core beliefs of Islam, the six pillars of Iman, and the attributes of Allah based on authentic tradition.",
      thumbnail := "https://images.unsplash.com/photo-1590073844006-33379778ae09?auto=format&fit=crop&q=80&w=800",
      progress := 0,
      price := "$29.99",
      isLocked := true,
      lessons := [
        Lesson(id := "aq1", title := "Definition and Importance of Aqidah", duration := "15:00", isCompleted := false,
          videoUrl := "#",
          thumbnail := Some("https://images.unsplash.com/photo-1507643179173-61b86c089a3b?auto=format&fit=crop&q=80&w=300")),
        Lesson(id := "aq2", title := "The Six Pillars of Iman", duration := "45:00", isCompleted := false,
          videoUrl := "#",
          thumbnail := Some("https://images.unsplash.com/photo-1584824388173-054f137e3d17?auto=format&fit=crop&q=80&w=300")),
        Lesson(id := "aq3", title := "Tawheed and its Categories", duration := "32:00", isCompleted := false,
          videoUrl := "#",
          thumbnail := Some("https://images.unsplash.com/photo-1584824388173-054f137e3d17?auto=format&fit=crop&q=80&w=300"))
      ]),
    Course(
      id := "prophetic-seerah",
      title := "The Prophetic Biography (Seerah)",
      instructor := "Dr. Fatima Zahra",
      category := "History",
      description := "A chronological journey through the life of Prophet Muhammad (peace be upon him) with emphasis on character and leadership lessons.",
      thumbnail := "https://images.unsplash.com/photo-1584551246679-0daf3d275d0f?auto=format&fit=crop&q=80&w=800",
      progress := 0,
      price := "$49.99",
      isLocked := true,
      lessons := [
        Lesson(id := "se1", title := "Pre-Islamic Arabia", duration := "20:00", isCompleted := false,
          videoUrl := "#",
          thumbnail := Some("https://images.unsplash.com/photo-1568853744655-b0e66d480790?auto=format&fit=crop&q=80&w=300")),
        Lesson(id := "se2", title := "The Year of the Elephant", duration := "22:00", isCompleted := false,
          videoUrl := "#",
          thumbnail := Some("https://images.unsplash.com/photo-1590076215667-875d4ef2d743?auto=format&fit=crop&q=80&w=300")),
        Lesson(id := "se3", title := "Birth and Early Childhood", duration := "25:00", isCompleted := false,
          videoUrl := "#",
          thumbnail := Some("https://images.unsplash.com/photo-1590076215667-875d4ef2d743?auto=format&fit=crop&q=80&w=300")),
        Lesson(id := "se4", title := "Marriage to Khadijah (RA)", duration := "18:00", isCompleted := false,
          videoUrl := "#",
          thumbnail := Some("https://images.unsplash.com/photo-1590076215667-875d4ef2d743?auto=format&fit=crop&q=80&w=300"))
      ])
  ]

  predicate UniqueCourseIds(catalog: seq<Course>) {
    forall i, j :: 0 <= i < j < |catalog| ==> catalog[i].id != catalog[j].id
  }

  predicate UniqueLessonIds(lessons: seq<Lesson>) {
    forall i, j :: 0 <= i < j < |lessons| ==> lessons[i].id != lessons[j].id
  }

  /** Course ids are pairwise distinct, so a lookup by id is unambiguous. */
  lemma CourseIdsAreUnique()
    ensures |COURSES| == 3
    ensures UniqueCourseIds(COURSES)
  {
  }

  /** Within each course lesson ids are distinct and non-empty (hence truthy). */
  lemma LessonIdsAreUnique()
    ensures forall c :: c in COURSES ==> UniqueLessonIds(c.lessons)
    ensures forall c, l :: c in COURSES && l in c.lessons ==> l.id != ""
  {
  }

  /** Every course has a lesson, so "first incomplete or else the first lesson" is always defined. */
  lemma LessonsAreNonEmpty()
    ensures forall c :: c in COURSES ==> c.lessons != [] && c.id != ""
  {
  }

  /**
   * What the screens rely on of the catalog: a first course, distinct
   * non-empty course ids, and in every course at least one lesson, with
   * distinct non-empty ids.
   */
  predicate WellFormedCatalog(catalog: seq<Course>) {
    catalog != [] && UniqueCourseIds(catalog) &&
    forall c :: c in catalog ==>
      c.id != "" && c.lessons != [] && UniqueLessonIds(c.lessons) &&
      forall l :: l in c.lessons ==> l.id != ""
  }

  lemma CoursesAreWellFormed()
    ensures WellFormedCatalog(COURSES)
  {
    CourseIdsAreUnique();
    LessonIdsAreUnique();
    LessonsAreNonEmpty();
  }

  lemma ProgressIsAPercentage()
    ensures forall c :: c in COURSES ==> 0 <= c.progress <= 100
  {
  }

  /** Exactly one course is owned, `practical-fiqh-101`, the first; the other two are locked. */
  lemma OnlyFirstCourseIsUnlocked()
    ensures COURSES[0].id == "practical-fiqh-101" && !COURSES[0].isLocked
    ensures forall i :: 1 <= i < |COURSES| ==> COURSES[i].isLocked
  {
  }

  /** The first lesson of `practical-fiqh-101` that is not completed is `l3`, its third. */
  lemma FirstIncompleteFiqhLessonIsL3()
    ensures FindIndex(COURSES[0].lessons, (l: Lesson) => !l.isCompleted) == 2
    ensures COURSES[0].lessons[2].id == "l3"
  {
  }

  /**
   * `progress` is a stored figure: `practical-fiqh-101` says 45 percent while
   * two of its five lessons (40 percent) are completed.
   */
  lemma ProgressIsNotDerived()
    ensures COURSES[0].progress == 45
    ensures |COURSES[0].lessons| == 5
    ensures |Filter(COURSES[0].lessons, (l: Lesson) => l.isCompleted)| == 2
    ensures COURSES[0].progress != 100 * 2 / 5
  {
  }
}
