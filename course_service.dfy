/** CourseService: the course-details cache and the per-user progress cache,
    with getCourseDetails, initializeUserProgress, getUserProgress and
    updateLessonProgress as methods that update them. */
module CourseService {
  import opened Common
  import opened CourseProgress

  datatype Instructor = Instructor(id: string, name: string, title: string, image: string)

  /** The detailed course record of getCourseDetails (its long prose fields,
      reviews, requirements, objectives and price labels are not modelled). */
  datatype CourseDetails = CourseDetails(
    id: string,
    title: string,
    instructor: Instructor,
    thumbnail: string,
    coverImage: string,
    duration: string,
    modules: seq<Module>,
    level: string,
    category: string,
    tags: seq<string>,
    ratingTenths: nat,
    enrollments: nat,
    featured: bool,
    releaseDate: string,
    lastUpdated: string,
    certificate: bool)

  /** enrollInCourse's record (its enrolment and last-access timestamps are not modelled). */
  datatype Enrollment = Enrollment(userId: string, courseId: string, progress: nat, status: string)

  // ---- the mock course structure ----------------------------------------

  /** The ids of the mock course's lessons, three to a module. */
  function MockLessonId(i: nat, j: nat): string
    requires i < 2 && j < 3
  {
    if i == 0 then (if j == 0 then "lesson-001" else if j == 1 then "lesson-002" else "lesson-003")
    else (if j == 0 then "lesson-004" else if j == 1 then "lesson-005" else "lesson-006")
  }

  function MockLesson(i: nat, j: nat): (l: Lesson)
    requires i < 2 && j < 3
    ensures l.id == MockLessonId(i, j)
  {
    if i == 0 && j == 0 then
      Lesson(MockLessonId(i, j), "O que é Escatologia?", "25 minutos", "video-001",
        [Resource("pdf", "Apostila - Introdução à Escatologia", "/assets/resources/apostila-escatologia.pdf"),
         Resource("slides", "Slides da Aula", "/assets/resources/slides-escatologia-intro.pdf")])
    else if i == 0 && j == 1 then
      Lesson(MockLessonId(i, j), "A Importância do Estudo Profético", "30 minutos", "video-002",
        [Resource("pdf", "Leitura Complementar", "/assets/resources/importancia-estudo-profetico.pdf")])
    else if i == 0 then
      Lesson(MockLessonId(i, j), "Princípios de Interpretação Profética", "40 minutos", "video-003",
        [Resource("pdf", "Guia de Interpretação", "/assets/resources/guia-interpretacao.pdf"),
         Resource("quiz", "Quiz - Princípios Básicos", "/quizzes/principios-basicos")])
    else if j == 0 then
      Lesson(MockLessonId(i, j), "Contexto Histórico de Daniel", "35 minutos", "video-004",
        [Resource("pdf", "Linha do Tempo - Babilônia", "/assets/resources/linha-tempo-babilonia.pdf")])
    else if j == 1 then
      Lesson(MockLessonId(i, j), "As Quatro Bestas e os Reinos Mundiais", "45 minutos", "video-005",
        [Resource("pdf", "Mapa dos Impérios Antigos", "/assets/resources/mapa-imperios.pdf"),
         Resource("quiz", "Quiz - Reinos Mundiais", "/quizzes/reinos-mundiais")])
    else
      Lesson(MockLessonId(i, j), "A Profecia das 70 Semanas", "50 minutos", "video-006",
        [Resource("pdf", "Cálculo Detalhado das 70 Semanas", "/assets/resources/calculo-70-semanas.pdf")])
  }

  function MockModule(i: nat): (m: Module)
    requires i < 2
    ensures |m.lessons| == 3
    ensures forall j :: 0 <= j < 3 ==> m.lessons[j].id == MockLessonId(i, j)
  {
    var lessons := seq(3, j requires 0 <= j < 3 => MockLesson(i, j));
    if i == 0 then
      Module("module-001", "Introdução à Escatologia", "Fundamentos e importância do estudo escatológico", lessons)
    else
      Module("module-002", "O Livro de Daniel", "Análise das profecias de Daniel e sua relevância contemporânea", lessons)
  }

  /** getCourseDetails's record for any id: the same course under the id asked for. */
  function MockCourseDetails(courseId: string): (d: CourseDetails)
    ensures d.id == courseId
    ensures |d.modules| == 2 && TotalLessons(d.modules) == 6
    ensures forall i :: 0 <= i < 2 ==> |d.modules[i].lessons| == 3
    ensures forall i, j :: 0 <= i < 2 && 0 <= j < 3 ==> d.modules[i].lessons[j].id == MockLessonId(i, j)
  {
    var modules := seq(2, i requires 0 <= i < 2 => MockModule(i));
    assert TotalLessons(modules[2..]) == 0;
    assert TotalLessons(modules[1..]) == 3;
    CourseDetails(courseId, "Escatologia Fundamental",
      Instructor("instructor-001", "Eric Alberto da Cruz", "Pastor, Jornalista e Escritor",
        "/assets/images/instructors/eric-alberto.jpg"),
      "/assets/images/courses/escatologia-fundamental.jpg",
      "/assets/images/courses/escatologia-fundamental-cover.jpg",
      "12 horas", modules, "iniciante", "escatologia",
      ["profecias", "apocalipse", "daniel", "últimos dias"],
      49, 1250, true, "2025-01-15", "2025-03-20", true)
  }

  /** The mock course's lesson ids are pairwise distinct. */
  lemma MockLessonIdsDistinct()
    ensures forall i, j, i', j' :: 0 <= i < 2 && 0 <= j < 3 && 0 <= i' < 2 && 0 <= j' < 3 && (i, j) != (i', j') ==>
              MockLessonId(i, j) != MockLessonId(i', j')
  {
  }

  /** A fresh record of the mock course: two modules of three entries,
      carrying the course's lesson ids in order. */
  lemma MockFreshRecord(userId: string, courseId: string)
    ensures var mods := InitialProgress(userId, courseId, MockCourseDetails(courseId).modules).moduleProgress;
      && |mods| == 2 && |mods[0].lessonProgress| == 3 && |mods[1].lessonProgress| == 3
      && forall i, j :: 0 <= i < 2 && 0 <= j < 3 ==> mods[i].lessonProgress[j].lessonId == MockLessonId(i, j)
  {
  }

  /** Three watch events on a fresh record of the mock course, each at
      exactly 90 percent of the duration, on lesson-001 and lesson-002 of the
      first module and lesson-004 of the second: half the course is done and
      neither module is completed. */
  lemma HalfwayThroughMockCourse(userId: string, courseId: string)
    ensures var p0 := InitialProgress(userId, courseId, MockCourseDetails(courseId).modules);
      var d := LessonData(Some(540), None, None, Some(600), None);
      var r1 := ApplyLessonEvent(p0, MockLessonId(0, 0), d, 6);
      && r1.Ok?
      && var r2 := ApplyLessonEvent(r1.value, MockLessonId(0, 1), d, 6);
      && r2.Ok?
      && var r3 := ApplyLessonEvent(r2.value, MockLessonId(1, 0), d, 6);
      && r3.Ok?
      && r3.value.completedLessons == [MockLessonId(0, 0), MockLessonId(0, 1), MockLessonId(1, 0)]
      && r3.value.overallProgress == 50.0
      && |r3.value.moduleProgress| == 2
      && !r3.value.moduleProgress[0].completed && !r3.value.moduleProgress[1].completed
  {
    var p0 := InitialProgress(userId, courseId, MockCourseDetails(courseId).modules);
    MockFreshRecord(userId, courseId);
    MockLessonIdsDistinct();
    assert FreshTwoByThree(p0, MockLessonId(0, 0), MockLessonId(0, 1), MockLessonId(1, 0), MockLessonId(0, 2), MockLessonId(1, 1));
    TwoOfFirstOneOfSecond(p0, LessonData(Some(540), None, None, Some(600), None),
                          MockLessonId(0, 0), MockLessonId(0, 1), MockLessonId(1, 0), MockLessonId(0, 2), MockLessonId(1, 1));
  }

  // ---- the two caches ---------------------------------------------------

  /** Where getCourseDetails gets a record it has not cached: the service
      builds the record above for whatever id it is asked for. */
  type DetailsSource = string -> CourseDetails

  /** A source whose every course has at least one lesson. */
  ghost predicate SourceOk(source: DetailsSource) {
    forall id :: TotalLessons(source(id).modules) > 0
  }

  lemma MockSourceOk()
    ensures SourceOk(MockCourseDetails)
  {
  }

  type ProgressStore = map<string, map<string, Progress>>

  /** `userProgressCache[userId][courseId]`, if both levels are present. */
  function Stored(store: ProgressStore, userId: string, courseId: string): Option<Progress> {
    if userId in store && courseId in store[userId] then Some(store[userId][courseId]) else None
  }

  /** The record getUserProgress hands back: the stored one, or a fresh one
      for the course's modules. */
  function StoredOrInitial(store: ProgressStore, userId: string, courseId: string, modules: seq<Module>): Progress {
    match Stored(store, userId, courseId)
    case Some(p) => p
    case None => InitialProgress(userId, courseId, modules)
  }

  /** `userProgressCache[userId] ||= {}; userProgressCache[userId][courseId] = p`. */
  function Put(store: ProgressStore, userId: string, courseId: string, p: Progress): (r: ProgressStore)
    ensures Stored(r, userId, courseId) == Some(p)
    ensures forall u, c :: (u, c) != (userId, courseId) ==> Stored(r, u, c) == Stored(store, u, c)
  {
    store[userId := (if userId in store then store[userId] else map[])[courseId := p]]
  }

  /** Storing back the record that is already there changes nothing. */
  lemma PutStored(store: ProgressStore, userId: string, courseId: string)
    requires Stored(store, userId, courseId).Some?
    ensures Put(store, userId, courseId, Stored(store, userId, courseId).value) == store
  {
    var r := Put(store, userId, courseId, Stored(store, userId, courseId).value);
    assert r[userId] == store[userId];
  }

  /** Storing twice under the same keys keeps only the second record. */
  lemma PutTwice(store: ProgressStore, userId: string, courseId: string, p: Progress, q: Progress)
    ensures Put(Put(store, userId, courseId, p), userId, courseId, q) == Put(store, userId, courseId, q)
  {
    var a, b := Put(Put(store, userId, courseId, p), userId, courseId, q), Put(store, userId, courseId, q);
    assert a[userId] == b[userId];
  }

  /** What each stored record satisfies: it belongs to its keys and keeps
      the record invariant for its course's modules. */
  ghost predicate StoredRecordOk(userId: string, courseId: string, p: Progress, modules: seq<Module>) {
    p.userId == userId && p.courseId == courseId && ProgressInvariant(p, modules)
  }

  ghost predicate StoreOk(store: ProgressStore, source: DetailsSource) {
    forall u, c :: Stored(store, u, c).Some? ==> StoredRecordOk(u, c, Stored(store, u, c).value, source(c).modules)
  }

  lemma PutKeepsStoreOk(store: ProgressStore, source: DetailsSource, userId: string, courseId: string, p: Progress)
    requires StoreOk(store, source) && StoredRecordOk(userId, courseId, p, source(courseId).modules)
    ensures StoreOk(Put(store, userId, courseId, p), source)
  {
    var r := Put(store, userId, courseId, p);
    forall u, c | Stored(r, u, c).Some? ensures StoredRecordOk(u, c, Stored(r, u, c).value, source(c).modules) {
      if (u, c) != (userId, courseId) {
        assert Stored(r, u, c) == Stored(store, u, c);
      }
    }
  }

  lemma StoredOrInitialOk(store: ProgressStore, source: DetailsSource, userId: string, courseId: string)
    requires StoreOk(store, source) && SourceOk(source)
    ensures StoredRecordOk(userId, courseId, StoredOrInitial(store, userId, courseId, source(courseId).modules),
                           source(courseId).modules)
  {
    if Stored(store, userId, courseId).None? {
      InitialProgressInvariant(userId, courseId, source(courseId).modules);
    }
  }

  /** A successful event on the record getUserProgress hands back leaves a
      store whose records all keep their invariant. */
  lemma EventKeepsStoreOk(store: ProgressStore, source: DetailsSource, userId: string, courseId: string,
                          lessonId: string, data: LessonData, p: Progress)
    requires StoreOk(store, source) && SourceOk(source)
    requires ApplyLessonEvent(StoredOrInitial(store, userId, courseId, source(courseId).modules), lessonId, data,
                              TotalLessons(source(courseId).modules)) == Ok(p)
    ensures StoreOk(Put(store, userId, courseId, p), source)
  {
    var modules := source(courseId).modules;
    var p0 := StoredOrInitial(store, userId, courseId, modules);
    StoredOrInitialOk(store, source, userId, courseId);
    LessonNotFound(p0, lessonId, data, TotalLessons(modules));
    EventPreservesInvariant(p0, lessonId, data, modules);
    PutKeepsStoreOk(store, source, userId, courseId, p);
  }

  /** Two stopping points of the nested search are the same point. */
  lemma FirstLessonUnique(mods: seq<ModuleProgress>, lessonId: string, i: nat, j: nat, i': nat, j': nat)
    requires IsFirstLesson(mods, lessonId, i, j) && IsFirstLesson(mods, lessonId, i', j')
    ensures i == i' && j == j'
  {
  }

  /** The nested search of updateLessonProgress: module by module, lesson by
      lesson, stopping at the first entry with the id. */
  method FindLesson(mods: seq<ModuleProgress>, lessonId: string) returns (found: bool, mi: nat, li: nat)
    ensures found <==> HasLesson(mods, lessonId)
    ensures found ==> LocateLesson(mods, lessonId) == Some((mi, li))
  {
    found, mi, li := false, 0, 0;
    var i := 0;
    while i < |mods|
      invariant 0 <= i <= |mods|
      invariant !found
      invariant forall i', j' :: 0 <= i' < i && 0 <= j' < |mods[i'].lessonProgress| ==>
                  mods[i'].lessonProgress[j'].lessonId != lessonId
    {
      var lessons := mods[i].lessonProgress;
      var j := 0;
      while j < |lessons|
        invariant 0 <= j <= |lessons|
        invariant forall j' :: 0 <= j' < j ==> lessons[j'].lessonId != lessonId
      {
        if lessons[j].lessonId == lessonId {
          found, mi, li := true, i, j;
          break;
        }
        j := j + 1;
      }
      if found {
        break;
      }
      i := i + 1;
    }
    if found {
      assert IsFirstLesson(mods, lessonId, mi, li);
      var (a, b) := LocateLesson(mods, lessonId).value;
      FirstLessonUnique(mods, lessonId, mi, li, a, b);
    }
  }

  /** The loop of updateLessonProgress that recomputes each module's
      `completed` flag from its lessons. */
  method RefreshFlags(mods: seq<ModuleProgress>) returns (r: seq<ModuleProgress>)
    ensures r == RefreshModuleFlags(mods)
  {
    r := mods;
    var k := 0;
    while k < |r|
      invariant 0 <= k <= |r| && |r| == |mods|
      invariant forall m :: 0 <= m < k ==> r[m] == mods[m].(completed := AllLessonsCompleted(mods[m].lessonProgress))
      invariant forall m :: k <= m < |r| ==> r[m] == mods[m]
    {
      r := r[k := r[k].(completed := AllLessonsCompleted(r[k].lessonProgress))];
      k := k + 1;
    }
  }

  /** The rest of updateLessonProgress once the lesson is found at
      `(mi, li)`: merge the data in, apply the completion threshold, append
      to `completedLessons` if new, refresh the module flags and recompute
      the percentage. */
  method ApplyAt(progress: Progress, lessonId: string, data: LessonData, mi: nat, li: nat, totalLessons: nat)
    returns (p: Progress)
    requires totalLessons > 0
    requires LocateLesson(progress.moduleProgress, lessonId) == Some((mi, li))
    ensures ApplyLessonEvent(progress, lessonId, data, totalLessons) == Ok(p)
  {
    ApplyLessonEventAt(progress, lessonId, data, totalLessons, mi, li);
    var mods := progress.moduleProgress;
    var lesson := Merge(mods[mi].lessonProgress[li], data);
    var completed := progress.completedLessons;
    if data.watchTime.Some? && data.watchTime.value != 0 && data.duration.Some? &&
       10 * data.watchTime.value >= 9 * data.duration.value {
      lesson := lesson.(completed := true);
      if lessonId !in completed {
        completed := completed + [lessonId];
      }
    }
    assert lesson == UpdatedLesson(progress.moduleProgress[mi].lessonProgress[li], data);
    assert completed == UpdatedCompleted(progress.completedLessons, lessonId, data);
    mods := mods[mi := mods[mi].(lessonProgress := mods[mi].lessonProgress[li := lesson])];
    assert mods == SetLesson(progress.moduleProgress, mi, li, lesson);
    mods := RefreshFlags(mods);
    p := progress.(completedLessons := completed, moduleProgress := mods,
                   overallProgress := (|completed| as real / totalLessons as real) * 100.0);
    assert p.overallProgress == Percent(|completed|, totalLessons);
  }

  class CourseService {
    /** The data source behind getCourseDetails, fixed at construction. */
    const fetchDetails: DetailsSource
    var courseCache: map<string, CourseDetails>
    var userProgressCache: ProgressStore

    /** Every cached course is the source's record for its id; every cached
        progress record belongs to its keys and keeps the record invariant. */
    ghost predicate Valid()
      reads this
    {
      && SourceOk(fetchDetails)
      && (forall id :: id in courseCache ==> courseCache[id] == fetchDetails(id))
      && StoreOk(userProgressCache, fetchDetails)
    }

    /** A service over the built-in mock course, with both caches empty. */
    constructor()
      ensures Valid()
      ensures fetchDetails == MockCourseDetails
      ensures courseCache == map[] && userProgressCache == map[]
    {
      fetchDetails := MockCourseDetails;
      courseCache := map[];
      userProgressCache := map[];
      new;
      MockSourceOk();
    }

    /** getCourseDetails: the cached record if there is one, otherwise the
        source's record, which is then cached under the id. */
    method GetCourseDetails(courseId: string) returns (d: CourseDetails)
      requires Valid()
      modifies this`courseCache
      ensures Valid()
      ensures d == fetchDetails(courseId)
      ensures courseCache == old(courseCache)[courseId := d]
      ensures courseId in old(courseCache) ==> d == old(courseCache)[courseId] && courseCache == old(courseCache)
    {
      if courseId in courseCache {
        return courseCache[courseId];
      }
      d := fetchDetails(courseId);
      courseCache := courseCache[courseId := d];
    }

    /** initializeUserProgress: a zeroed record for the course's current
        structure, stored under (userId, courseId) over whatever was there. */
    method InitializeUserProgress(userId: string, courseId: string) returns (p: Progress)
      requires Valid()
      modifies this
      ensures Valid()
      ensures p == InitialProgress(userId, courseId, fetchDetails(courseId).modules)
      ensures courseCache == old(courseCache)[courseId := fetchDetails(courseId)]
      ensures userProgressCache == Put(old(userProgressCache), userId, courseId, p)
    {
      var details := GetCourseDetails(courseId);
      p := InitialProgress(userId, courseId, details.modules);
      InitialProgressInvariant(userId, courseId, details.modules);
      PutKeepsStoreOk(userProgressCache, fetchDetails, userId, courseId, p);
      userProgressCache := Put(userProgressCache, userId, courseId, p);
    }

    /** enrollInCourse: an active enrolment at zero progress, and a fresh
        progress record for the course, replacing any earlier one. */
    method EnrollInCourse(userId: string, courseId: string) returns (e: Enrollment)
      requires Valid()
      modifies this
      ensures Valid()
      ensures e == Enrollment(userId, courseId, 0, "active")
      ensures courseCache == old(courseCache)[courseId := fetchDetails(courseId)]
      ensures userProgressCache == Put(old(userProgressCache), userId, courseId,
                                       InitialProgress(userId, courseId, fetchDetails(courseId).modules))
    {
      e := Enrollment(userId, courseId, 0, "active");
      var _ := InitializeUserProgress(userId, courseId);
    }

    /** getUserProgress: the stored record, or a freshly initialised one. */
    method GetUserProgress(userId: string, courseId: string) returns (p: Progress)
      requires Valid()
      modifies this
      ensures Valid()
      ensures p == StoredOrInitial(old(userProgressCache), userId, courseId, fetchDetails(courseId).modules)
      ensures StoredRecordOk(userId, courseId, p, fetchDetails(courseId).modules)
      ensures userProgressCache == Put(old(userProgressCache), userId, courseId, p)
      ensures Stored(old(userProgressCache), userId, courseId).Some? ==>
                courseCache == old(courseCache) && userProgressCache == old(userProgressCache)
      ensures Stored(old(userProgressCache), userId, courseId).None? ==>
                courseCache == old(courseCache)[courseId := fetchDetails(courseId)]
    {
      StoredOrInitialOk(userProgressCache, fetchDetails, userId, courseId);
      if userId in userProgressCache && courseId in userProgressCache[userId] {
        p := userProgressCache[userId][courseId];
        PutStored(userProgressCache, userId, courseId);
        return;
      }
      p := InitializeUserProgress(userId, courseId);
    }

    /** updateLessonProgress: find the lesson, merge the data into its entry,
        apply the completion threshold, recompute every module flag and the
        overall percentage, and store the record. When the lesson is in no
        module the call fails and no entry changes, though getUserProgress
        may already have stored a fresh record and cached the details. */
    method UpdateLessonProgress(userId: string, courseId: string, lessonId: string, data: LessonData)
      returns (r: Result<Progress>)
      requires Valid()
      modifies this
      ensures Valid()
      ensures r == ApplyLessonEvent(StoredOrInitial(old(userProgressCache), userId, courseId, fetchDetails(courseId).modules),
                                    lessonId, data, TotalLessons(fetchDetails(courseId).modules))
      ensures r.Ok? ==> userProgressCache == Put(old(userProgressCache), userId, courseId, r.value)
      ensures r.Err? ==>
                userProgressCache == Put(old(userProgressCache), userId, courseId,
                                         StoredOrInitial(old(userProgressCache), userId, courseId, fetchDetails(courseId).modules))
      ensures r.Err? && Stored(old(userProgressCache), userId, courseId).Some? ==>
                userProgressCache == old(userProgressCache)
      ensures r.Ok? || Stored(old(userProgressCache), userId, courseId).None? ==>
                courseCache == old(courseCache)[courseId := fetchDetails(courseId)]
      ensures r.Err? && Stored(old(userProgressCache), userId, courseId).Some? ==>
                courseCache == old(courseCache)
    {
      var progress := GetUserProgress(userId, courseId);
      ghost var p0 := progress;
      var found, mi, li := FindLesson(progress.moduleProgress, lessonId);
      if !found {
        if Stored(old(userProgressCache), userId, courseId).Some? {
          PutStored(old(userProgressCache), userId, courseId);
        }
        return Err("Lesson not found in course progress");
      }
      var details := GetCourseDetails(courseId);
      var totalLessons := TotalLessons(details.modules);
      progress := ApplyAt(progress, lessonId, data, mi, li, totalLessons);
      EventKeepsStoreOk(old(userProgressCache), fetchDetails, userId, courseId, lessonId, data, progress);
      PutTwice(old(userProgressCache), userId, courseId, p0, progress);
      userProgressCache := Put(userProgressCache, userId, courseId, progress);
      r := Ok(progress);
    }
  }
}
